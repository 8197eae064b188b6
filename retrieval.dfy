/**
 * `RetrievalService`: the QA chain built lazily behind a one-slot cache, and
 * `process_query`, which invokes it and turns its output into an answer.
 */
module Retrieval {
  import opened Wrappers
  import opened Errors
  import opened Sources
  import opened Embeddings

  /** The Ollama model handle returned by `LLMService.get_llm`. */
  datatype Llm = Llm(model: string)

  /** A "stuff" RetrievalQA chain that returns its source documents. */
  datatype QaChain = QaChain(retriever: Retriever, llm: Llm)

  /**
   * What the collaborators of one uncached `create_qa_chain` call do: the
   * vector-store load, `get_llm`, and whether `RetrievalQA.from_chain_type` raises.
   */
  datatype ChainEnv = ChainEnv(load: LoadEnv, llm: Result<Llm, Error>, buildError: Option<Error>)

  /** The dictionary `qa_chain.invoke` returns; either key may be missing. */
  datatype ChainOutput = ChainOutput(result: Option<string>, sourceDocuments: Option<seq<Document>>)

  /** The dictionary `process_query` returns. */
  datatype Answer = Answer(response: string, sources: seq<Source>)

  /**
   * The outcome of `process_query` once the chain has been invoked: an exception
   * from the invocation or a missing key is re-raised, otherwise the model's text
   * is passed through and the sources are cited.
   */
  function AnswerFrom(output: Result<ChainOutput, Error>): (r: Result<Answer, Error>)
    ensures r.Success? <==>
      output.Success? && output.value.result.Some? && output.value.sourceDocuments.Some?
    ensures output.Failure? ==> r == Failure(output.error)
    ensures output.Success? && output.value.result.None? ==> r == Failure(KeyError("result"))
    ensures output.Success? && output.value.result.Some? && output.value.sourceDocuments.None? ==>
      r == Failure(KeyError("source_documents"))
    ensures r.Success? ==>
      r.value.response == output.value.result.value &&
      r.value.sources == Citations(output.value.sourceDocuments.value)
  {
    match output
    case Failure(e) => Failure(e)
    case Success(out) =>
      if out.result.None? then Failure(KeyError("result"))
      else if out.sourceDocuments.None? then Failure(KeyError("source_documents"))
      else Success(Answer(out.result.value, Citations(out.sourceDocuments.value)))
  }

  /**
   * The exception an uncached `create_qa_chain` raises, if any. The steps run in
   * order: the vector-store load (skipped when the store is already cached),
   * then `get_llm`, then `RetrievalQA.from_chain_type`; the first that raises
   * decides.
   */
  function BuildError(env: ChainEnv, cachedStore: Option<VectorStore>, path: string): (r: Option<Error>)
    ensures r.None? <==>
      (cachedStore.Some? || (env.load.embedder.Success? && env.load.pathExists && env.load.index.Success?)) &&
      env.llm.Success? && env.buildError.None?
    ensures cachedStore.None? && LoadFromDisk(env.load, path).Failure? ==>
      r == Some(LoadFromDisk(env.load, path).error)
    ensures (cachedStore.Some? || LoadFromDisk(env.load, path).Success?) && env.llm.Failure? ==>
      r == Some(env.llm.error)
    ensures (cachedStore.Some? || LoadFromDisk(env.load, path).Success?) && env.llm.Success? ==>
      r == env.buildError
  {
    if cachedStore.None? && LoadFromDisk(env.load, path).Failure? then Some(LoadFromDisk(env.load, path).error)
    else if env.llm.Failure? then Some(env.llm.error)
    else env.buildError
  }

  class RetrievalService {
    /** The EmbeddingService whose cached vector store the chain retrieves from. */
    const embeddings: EmbeddingService

    /** The `lru_cache(maxsize=1)` slot of `create_qa_chain`. */
    var qaChain: Option<QaChain>

    /** How many chains `RetrievalQA.from_chain_type` has built. */
    ghost var chainBuilds: nat

    /** A cached chain retrieves, with MMR, from the cached vector store. */
    ghost predicate Valid()
      reads this, embeddings
    {
      qaChain.Some? ==>
        embeddings.vectorstore.Some? &&
        qaChain.value.retriever == MmrRetriever(embeddings.vectorstore.value, embeddings.retrievalK)
    }

    constructor (embeddings: EmbeddingService)
      ensures this.embeddings == embeddings
      ensures qaChain == None && chainBuilds == 0
      ensures Valid()
    {
      this.embeddings := embeddings;
      qaChain := None;
      chainBuilds := 0;
    }

    /**
     * `create_qa_chain`: a hit returns the stored chain and touches nothing else;
     * a miss builds one from the retriever and the model, and stores it only when
     * every step succeeds.
     */
    method CreateQaChain(env: ChainEnv) returns (r: Result<QaChain, Error>)
      requires Valid()
      modifies this, embeddings
      ensures Valid()
      ensures old(qaChain).Some? ==>
        r == Success(old(qaChain).value) && qaChain == old(qaChain) &&
        chainBuilds == old(chainBuilds) && unchanged(embeddings)
      ensures old(qaChain).None? ==>
        qaChain == (if r.Success? then Some(r.value) else None) &&
        chainBuilds == old(chainBuilds) + (if r.Success? then 1 else 0)
      ensures r.Success? ==> r.value.retriever == MmrRetriever(embeddings.vectorstore.value, embeddings.retrievalK)
      ensures old(qaChain).None? && r.Success? ==> Success(r.value.llm) == env.llm && env.buildError.None?
      ensures old(qaChain).None? ==>
        if r.Success? then BuildError(env, old(embeddings.vectorstore), embeddings.vectorstorePath) == None
        else BuildError(env, old(embeddings.vectorstore), embeddings.vectorstorePath) == Some(r.error)
      ensures old(embeddings.vectorstore).Some? ==> embeddings.vectorstore == old(embeddings.vectorstore)
      ensures old(embeddings.vectorstore).None? ==>
        embeddings.vectorstore == LoadFromDisk(env.load, embeddings.vectorstorePath).ToOption()
    {
      if qaChain.Some? {
        return Success(qaChain.value);
      }
      var retriever := embeddings.GetRetriever(env.load);
      if retriever.Failure? {
        return Failure(retriever.error);
      }
      if env.llm.Failure? {
        return Failure(env.llm.error);
      }
      if env.buildError.Some? {
        return Failure(env.buildError.value);
      }
      var chain := QaChain(retriever.value, env.llm.value);
      chainBuilds := chainBuilds + 1;
      qaChain := Some(chain);
      r := Success(chain);
    }

    /**
     * `process_query`: obtain the chain, invoke it on the query, and build the
     * answer. Every exception is re-raised; once a chain is cached it is the one
     * invoked and no new chain is built.
     */
    method ProcessQuery(query: string, env: ChainEnv, invoke: (QaChain, string) -> Result<ChainOutput, Error>)
      returns (r: Result<Answer, Error>)
      requires Valid()
      modifies this, embeddings
      ensures Valid()
      ensures old(qaChain).Some? ==>
        qaChain == old(qaChain) && chainBuilds == old(chainBuilds) && unchanged(embeddings)
      ensures old(qaChain).None? ==> chainBuilds == old(chainBuilds) + (if qaChain.Some? then 1 else 0)
      ensures qaChain.Some? <==>
        old(qaChain).Some? || BuildError(env, old(embeddings.vectorstore), embeddings.vectorstorePath).None?
      ensures old(qaChain).None? && qaChain.Some? ==>
        qaChain.value == QaChain(MmrRetriever(embeddings.vectorstore.value, embeddings.retrievalK), env.llm.value)
      ensures old(embeddings.vectorstore).Some? ==> embeddings.vectorstore == old(embeddings.vectorstore)
      ensures old(embeddings.vectorstore).None? ==>
        embeddings.vectorstore == LoadFromDisk(env.load, embeddings.vectorstorePath).ToOption()
      ensures qaChain.None? ==>
        r.Failure? && BuildError(env, old(embeddings.vectorstore), embeddings.vectorstorePath) == Some(r.error)
      ensures qaChain.Some? ==> r == AnswerFrom(invoke(qaChain.value, query))
    {
      var chain := CreateQaChain(env);
      if chain.Failure? {
        return Failure(chain.error);
      }
      var response := invoke(chain.value, query);
      if response.Failure? {
        return Failure(response.error);
      }
      if response.value.result.None? {
        return Failure(KeyError("result"));
      }
      if response.value.sourceDocuments.None? {
        return Failure(KeyError("source_documents"));
      }
      var sources := CollectSources(response.value.sourceDocuments.value);
      r := Success(Answer(response.value.result.value, sources));
    }
  }

  /**
   * Two queries through a fresh service: once the first has built the chain,
   * the second reuses it, whatever the collaborators would now do, and only one
   * chain is ever built.
   */
  method SecondQueryReusesChain(
    path: string, k: int, first: string, second: string,
    env: ChainEnv, later: ChainEnv, invoke: (QaChain, string) -> Result<ChainOutput, Error>)
    returns (a: Result<Answer, Error>, b: Result<Answer, Error>, service: RetrievalService)
    requires env.load.embedder.Success? && env.load.pathExists && env.load.index.Success?
    requires env.llm.Success? && env.buildError.None?
    ensures service.qaChain == Some(QaChain(MmrRetriever(env.load.index.value, k), env.llm.value))
    ensures service.chainBuilds == 1
    ensures a == AnswerFrom(invoke(service.qaChain.value, first))
    ensures b == AnswerFrom(invoke(service.qaChain.value, second))
  {
    var embeddings := new EmbeddingService(path, k);
    service := new RetrievalService(embeddings);
    a := service.ProcessQuery(first, env, invoke);
    b := service.ProcessQuery(second, later, invoke);
  }
}
