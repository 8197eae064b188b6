# Retrieval-QA service core, modelled in Dafny

This project models the core of a Django and LangChain question-answering API.
A query goes to a RetrievalQA chain that retrieves passages from a FAISS
vector store. An Ollama model then answers from those passages. The service
returns the answer together with up to three deduplicated source citations.
The model covers four pieces of that core:

- **The citation builder** of `RetrievalService.process_query` (`sources.dfy`).
  It skips documents without a URL and keeps the first document of each URL, in
  order. The title falls back to the URL. The first citation is tiered "high"
  and later ones "medium". The list is cut to three entries. The loop is a
  method (`CollectSources`) proved equal to a specification function
  (`Citations`). Lemmas characterise that function independently, by the
  positions where each URL first occurs.
- **The memoised loaders** (`embeddings.dfy`, `retrieval.dfy`).
  `get_vectorstore` and `create_qa_chain` are `lru_cache(maxsize=1)` slots,
  modelled as `Option` fields of the classes `EmbeddingService` and
  `RetrievalService`. Ghost counters record how many loads of the embedding
  model and of the index were attempted, and how many chains were built. A hit returns the stored value and builds
  nothing. A failure is re-raised and leaves the slot empty, so the next call
  retries.
- **Retriever parameters** (`MmrRetriever`): MMR search, `k` from the settings,
  `fetch_k = 2 * k`, `lambda_mult = 0.7`.
- **The views** (`views.dfy`). The health check aggregates two probes into a
  status record. The query POST maps validation failure to 400, any exception
  to 500 with "Query processing failed", and a rejected response to 500 with
  "Response validation failed".

Library calls become parameters. A `LoadEnv` says whether building the
embedding model raises, whether the index path exists, and what
`FAISS.load_local` returns or raises. A `ChainEnv` adds what `get_llm` does and
whether `RetrievalQA.from_chain_type` raises. The chain invocation is a
function from chain and query to an outcome. The request and response
serializers' verdicts are parameters of `QueryPost`, and so is the measured
processing time. Python exceptions become `Result` failures that carry the
same `Error` value, which is how "re-raised unchanged" is stated.

Some behaviour of the code that the model keeps as written:

- A failed load raises `FileNotFoundError` for a missing index path, or
  whatever exception the embedding or FAISS library raises. Each is passed on
  as it is, with no common wrapping error kind.
- The health record has an `api` entry that is always "available". A component
  whose probe returns a falsy value stays "unknown".
- The 500 response of the query view includes the exception text as `detail`.
- `lru_cache` is not single-flight under threads; the cells are modelled for
  sequential calls.

## Model

| member | source | states |
|---|---|---|
| `Sources.Citations` | api/services/retrieval.py:63-65 | The response's sources are at most three and a prefix of the full deduplicated list. They are the whole list when it has fewer than three entries, and empty when there are no documents. |
| `Sources.FirstOccurrences` | api/services/retrieval.py:50-56 | The positions where a URL first occurs, in strictly increasing order and within the document list. |
| `Sources.FirstOccurrencesExact` | api/services/retrieval.py:50-56 | That list holds exactly the positions whose URL is non-empty and not carried by any earlier document. |
| `Sources.CitedUrls` | api/services/retrieval.py:50-56 | After any prefix of the documents, the seen URLs are exactly the non-empty URLs in that prefix. |
| `Sources.SourcesAreFirstOccurrences` | api/services/retrieval.py:51-61 | The k-th emitted source is built from the document at the k-th first occurrence: its URL, its title (or the URL when the title is empty), and tier k. Later duplicates add nothing, even when they have a title. |
| `Sources.DistinctUrls` | api/services/retrieval.py:50-56 | No two emitted sources share a URL. |
| `Sources.CitationsAreFirstOccurrences` | api/services/retrieval.py:48-65 | The returned sources are the first min(3, number of distinct URLs) first occurrences, in order, each cited from its first document. |
| `Sources.CitationsWellFormed` | api/services/retrieval.py:50-65 | The returned sources have distinct, non-empty URLs and non-empty titles. Source 0 is "high" and every later one is "medium". |
| `Sources.SingleUrl` | api/services/retrieval.py:55-60 | Documents that all carry one non-empty URL give exactly one citation, from the first document, tiered "high". |
| `Sources.CollectSources` | api/services/retrieval.py:48-65 | The loop with its seen-set and output list, followed by the cut to three, returns exactly `Citations(docs)`. |
| `Embeddings.LoadFromDisk` | api/services/embeddings.py:18-42 | An uncached load succeeds iff the embedding model builds, the path exists and the index loads, and then it returns that index. A missing path gives FileNotFound for the configured path. Every failure is the collaborator's own error, passed on. |
| `Embeddings.MmrRetriever` | api/services/embeddings.py:44-57 | The retriever uses MMR search with `k` from the settings and `fetch_k = 2 * k`, so `fetch_k >= k` for non-negative `k`. `lambda_mult` is 0.7, strictly between 0 and 1. |
| `Embeddings.EmbeddingService.GetVectorstore` | api/services/embeddings.py:14-42 | A hit returns the stored index and loads nothing. A miss returns `LoadFromDisk` and builds the embedding model once. It loads the index only when the path exists. The slot is filled only on success. |
| `Embeddings.EmbeddingService.GetRetriever` | api/services/embeddings.py:44-57 | Succeeds iff the store is cached afterwards, and then returns the MMR retriever over it. Otherwise it returns the load's own failure, which can only happen when nothing was cached. A hit attempts no load; a miss attempts one embedding-model load, and one index load only when the path exists. |
| `Embeddings.RecoverAfterMissingPath` | api/services/embeddings.py:14-42 | On a fresh service, a call with a missing path fails with FileNotFound. A later call once the path exists returns the loaded index, so the failure was not cached. |
| `Embeddings.ReuseAfterFirstLoad` | api/services/embeddings.py:14-17 | After a successful first load, a second call returns the same index whatever the collaborators would now do. |
| `Retrieval.AnswerFrom` | api/services/retrieval.py:42-71 | An invocation failure is re-raised unchanged. A missing "result" key raises KeyError("result") before "source_documents" is read. Otherwise the response is the chain's "result" unchanged and the sources are `Citations` of the documents. |
| `Retrieval.BuildError` | api/services/retrieval.py:14-29 | An uncached chain build fails iff the store is neither cached nor loadable, `get_llm` raises, or `from_chain_type` raises. The error raised is the first of these in that order: the load's own error, then the LLM's, then the builder's. |
| `Retrieval.RetrievalService.CreateQaChain` | api/services/retrieval.py:14-29 | A hit returns the stored chain, builds nothing and leaves the vector store alone. A miss fails with exactly `BuildError` when that is an error, and leaves the slot empty. Otherwise it stores a chain that retrieves with MMR from the cached store and uses the model `get_llm` returned, and counts one build. |
| `Retrieval.RetrievalService.ProcessQuery` | api/services/retrieval.py:31-71 | Once a chain is cached, the query runs through it without a rebuild and the vector store is untouched. Otherwise the chain is built iff `BuildError` is none, the build count grows by one exactly then, and a loaded store stays cached. The outcome is `AnswerFrom` of the invocation when a chain exists, and the exact `BuildError` when none does. |
| `Retrieval.SecondQueryReusesChain` | api/services/retrieval.py:14-38 | Two queries through a fresh service with working collaborators both run through the chain the first query built, even if the collaborators fail later, and exactly one chain is built. |
| `Views.HealthCheck` | api/views.py:98-131 | `api` is always available. Each component is unavailable iff its probe raised, available iff it returned a truthy value, and unknown iff it returned a falsy one. The overall status is degraded iff some probe raised. The probes are independent and the handler never fails. |
| `Views.VectorstoreProbe` | api/views.py:110-117 | A loaded store is a truthy return value, and a failed load is a raised probe that carries the same error. |
| `Views.HealthCheckWithStore` | api/views.py:110-131 | Probing through the cache fills it on success. The store is reported available iff it is cached afterwards and unavailable iff it is not. The status is degraded iff the store is missing or the LLM probe raised. The LLM is unavailable iff its probe raised, available iff it returned a truthy value, and unknown iff it returned a falsy one. |
| `Views.QueryPost` | api/views.py:38-74 | Invalid input gives 400 and changes nothing. With no chain after the call, the response is 500 with "Query processing failed" and exactly `BuildError`. With a chain, an exception from the invocation or a missing key gives 500 with that error. A successful answer gives 200 with the answer and processing time when the response validates, and 500 with "Response validation failed" otherwise. The caches and the build count end as `process_query` leaves them. |
| `Views.MissingIndexFailsQuery` | api/views.py:51-74 | A query to a fresh service whose index path is missing gets 500 with "Query processing failed" and FileNotFound for that path. |

## Left out

- Library calls are not modelled: `HuggingFaceEmbeddings`, `FAISS.load_local`, `OllamaLLM`, `RetrievalQA.from_chain_type` and the chain's invocation. They are parameters that either return a value or fail. MMR selection happens inside the library, so nothing is claimed about how many documents it returns.
- `LLMService.get_llm` and `create_qa_prompt` (api/services/llm.py) are not part of this model. The LLM health probe's outcome and `get_llm`'s result are parameters, and the prompt template is a constant handed to LangChain.
- Request and response validation are not modelled: `max_length`, non-blank and URL checks belong to DRF, so the serializers' verdicts are parameters (api/serializers.py is not part of this model).
- Views.QueryPost: the 200 body is the `Answer` and elapsed time as returned. DRF rebuilds it as the response serializer's data, which trims surrounding whitespace from the response text and titles; that re-serialisation is not modelled. The `details` of the "Response validation failed" body, the serializer's error dictionary, is not carried either.
- Processing time: `time.time()` and float subtraction are not modelled; the elapsed time is a `real` parameter.
- Floating point: `lambda_mult` is the exact real 0.7, not its binary double approximation.
- Metadata values are modelled as strings or None. Python treats None, a missing key and "" alike, so all three read as "". Truthiness of other value types is not modelled.
- `Views.VectorstoreProbe`: a loaded FAISS store is taken to be truthy; an index object that tests falsy is not modelled.
- Concurrency is not modelled: the cells are used by one caller at a time.
- Logging, `print` and `traceback` output, rate limiting, `cache_page(60)` on the health view, permission classes, Swagger decorators, URL routing and the startup path warning (api/apps.py, api/urls.py, api/utils.py) are not part of this model.
