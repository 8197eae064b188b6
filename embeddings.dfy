/**
 * `EmbeddingService`: the vector store loaded lazily behind a one-slot cache,
 * and the MMR retriever built over it.
 */
module Embeddings {
  import opened Wrappers
  import opened Errors

  /** A constructed HuggingFace embedding model. */
  datatype Embedder = Embedder

  /** A FAISS index loaded from disk; `id` tells apart indexes loaded separately. */
  datatype VectorStore = VectorStore(id: nat)

  /**
   * What the collaborators of one uncached `get_vectorstore` call do: whether
   * constructing the embedding model raises, whether the configured path exists,
   * and what `FAISS.load_local` returns or raises.
   */
  datatype LoadEnv = LoadEnv(
    embedder: Result<Embedder, Error>,
    pathExists: bool,
    index: Result<VectorStore, Error>)

  datatype SearchType = Mmr

  /** The retriever handed to the QA chain, with its search settings. */
  datatype Retriever = Retriever(store: VectorStore, searchType: SearchType, k: int, fetchK: int, lambdaMult: real)

  /** Balance between relevance and diversity in the MMR selection. */
  const LambdaMult: real := 0.7

  /**
   * The body `get_vectorstore` runs on a cache miss: build the embedding model,
   * check the path, then load the index. Every failure is passed on unchanged.
   */
  function LoadFromDisk(env: LoadEnv, path: string): (r: Result<VectorStore, Error>)
    ensures r.Success? <==> env.embedder.Success? && env.pathExists && env.index.Success?
    ensures r.Success? ==> r.value == env.index.value
    ensures env.embedder.Success? && !env.pathExists ==> r == Failure(FileNotFound(path))
    ensures r.Failure? ==>
      (env.embedder.Failure? && r.error == env.embedder.error) ||
      (env.embedder.Success? && !env.pathExists && r.error == FileNotFound(path)) ||
      (env.embedder.Success? && env.pathExists && env.index == r)
  {
    match env.embedder
    case Failure(e) => Failure(e)
    case Success(_) =>
      if !env.pathExists then Failure(FileNotFound(path)) else env.index
  }

  /** `vectorstore.as_retriever(search_type="mmr", ...)` with `k` from the settings. */
  function MmrRetriever(store: VectorStore, k: int): (r: Retriever)
    ensures r.store == store && r.searchType == Mmr && r.k == k
    ensures r.fetchK == 2 * r.k
    ensures k >= 0 ==> r.fetchK >= r.k
    ensures k > 0 ==> r.fetchK > r.k
    ensures 0.0 < r.lambdaMult < 1.0 && r.lambdaMult == LambdaMult
  {
    Retriever(store, Mmr, k, k * 2, LambdaMult)
  }

  class EmbeddingService {
    /** Settings: VECTORSTORE_PATH and RETRIEVAL_K. */
    const vectorstorePath: string
    const retrievalK: int

    /** The `lru_cache(maxsize=1)` slot of `get_vectorstore`. */
    var vectorstore: Option<VectorStore>

    /** How many loads of the embedding model and of the FAISS index were attempted. */
    ghost var embedderLoads: nat
    ghost var indexLoads: nat

    constructor (path: string, k: int)
      ensures vectorstorePath == path && retrievalK == k
      ensures vectorstore == None && embedderLoads == 0 && indexLoads == 0
    {
      vectorstorePath, retrievalK := path, k;
      vectorstore := None;
      embedderLoads, indexLoads := 0, 0;
    }

    /**
     * `get_vectorstore`: a hit returns the stored index and loads nothing; a miss
     * runs LoadFromDisk and stores the result only when it is a success.
     */
    method GetVectorstore(env: LoadEnv) returns (r: Result<VectorStore, Error>)
      modifies this
      ensures old(vectorstore).Some? ==>
        r == Success(old(vectorstore).value) && vectorstore == old(vectorstore) &&
        embedderLoads == old(embedderLoads) && indexLoads == old(indexLoads)
      ensures old(vectorstore).None? ==>
        r == LoadFromDisk(env, vectorstorePath) &&
        vectorstore == (if r.Success? then Some(r.value) else None) &&
        embedderLoads == old(embedderLoads) + 1 &&
        indexLoads == old(indexLoads) + (if env.embedder.Success? && env.pathExists then 1 else 0)
      ensures r.Success? <==> vectorstore.Some?
      ensures r.Success? ==> vectorstore == Some(r.value)
    {
      if vectorstore.Some? {
        return Success(vectorstore.value);
      }
      embedderLoads := embedderLoads + 1;
      if env.embedder.Failure? {
        return Failure(env.embedder.error);
      }
      if !env.pathExists {
        return Failure(FileNotFound(vectorstorePath));
      }
      indexLoads := indexLoads + 1;
      r := env.index;
      if r.Success? {
        vectorstore := Some(r.value);
      }
    }

    /** `get_retriever`: the MMR retriever over the cached store, or the load's failure. */
    method GetRetriever(env: LoadEnv) returns (r: Result<Retriever, Error>)
      modifies this
      ensures old(vectorstore).Some? ==>
        vectorstore == old(vectorstore) && embedderLoads == old(embedderLoads) && indexLoads == old(indexLoads)
      ensures old(vectorstore).None? ==>
        vectorstore == LoadFromDisk(env, vectorstorePath).ToOption() &&
        embedderLoads == old(embedderLoads) + 1 &&
        indexLoads == old(indexLoads) + (if env.embedder.Success? && env.pathExists then 1 else 0)
      ensures r.Success? <==> vectorstore.Some?
      ensures r.Success? ==> r.value == MmrRetriever(vectorstore.value, retrievalK)
      ensures r.Failure? ==> old(vectorstore).None? && r.error == LoadFromDisk(env, vectorstorePath).error
    {
      var store := GetVectorstore(env);
      if store.Failure? {
        return Failure(store.error);
      }
      r := Success(MmrRetriever(store.value, retrievalK));
    }
  }

  /**
   * A missing index directory fails with FileNotFound, and once the directory is
   * there the next call loads it: the failure was not remembered.
   */
  method RecoverAfterMissingPath(path: string, k: int, broken: LoadEnv, repaired: LoadEnv)
    returns (first: Result<VectorStore, Error>, second: Result<VectorStore, Error>)
    requires broken.embedder.Success? && !broken.pathExists
    requires repaired.embedder.Success? && repaired.pathExists && repaired.index.Success?
    ensures first == Failure(FileNotFound(path))
    ensures second == repaired.index
  {
    var service := new EmbeddingService(path, k);
    first := service.GetVectorstore(broken);
    second := service.GetVectorstore(repaired);
  }

  /**
   * After a successful load every later call returns the same index, whatever
   * the collaborators would now do.
   */
  method ReuseAfterFirstLoad(path: string, k: int, env: LoadEnv, later: LoadEnv)
    returns (first: Result<VectorStore, Error>, second: Result<VectorStore, Error>)
    requires env.embedder.Success? && env.pathExists && env.index.Success?
    ensures first == env.index && second == first
  {
    var service := new EmbeddingService(path, k);
    first := service.GetVectorstore(env);
    second := service.GetVectorstore(later);
  }
}
