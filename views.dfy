/**
 * The two API views: the health check, which turns probe failures into status
 * flags, and the query POST, which maps outcomes to HTTP status codes.
 */
module Views {
  import opened Wrappers
  import opened Errors
  import opened Embeddings
  import opened Retrieval

  // ---------------------------------------------------------------------------
  // HealthCheckView.get

  datatype Overall = Healthy | Degraded

  datatype ComponentStatus = Available | Unavailable | Unknown

  /** The `health_status` dictionary. */
  datatype HealthStatus = HealthStatus(status: Overall, api: ComponentStatus, vectorstore: ComponentStatus, llm: ComponentStatus)

  /** What one probe call did: returned a value of the given truthiness, or raised. */
  datatype Probe = Returned(truthy: bool) | Raised(error: Error)

  /** The record the handler starts from. */
  const InitialHealth: HealthStatus := HealthStatus(Healthy, Available, Unknown, Unknown)

  /**
   * The body of `HealthCheckView.get`, given what `get_vectorstore` and `get_llm`
   * did. Each probe sets only its own component; a raised probe also degrades
   * the overall status; the handler itself never fails.
   */
  method HealthCheck(vectorstoreProbe: Probe, llmProbe: Probe) returns (h: HealthStatus)
    ensures h.api == Available
    ensures h.status == Degraded <==> vectorstoreProbe.Raised? || llmProbe.Raised?
    ensures h.vectorstore == Unavailable <==> vectorstoreProbe.Raised?
    ensures h.vectorstore == Available <==> vectorstoreProbe == Returned(true)
    ensures h.vectorstore == Unknown <==> vectorstoreProbe == Returned(false)
    ensures h.llm == Unavailable <==> llmProbe.Raised?
    ensures h.llm == Available <==> llmProbe == Returned(true)
    ensures h.llm == Unknown <==> llmProbe == Returned(false)
  {
    h := InitialHealth;
    match vectorstoreProbe {
      case Returned(truthy) =>
        if truthy {
          h := h.(vectorstore := Available);
        }
      case Raised(_) =>
        h := h.(vectorstore := Unavailable);
        h := h.(status := Degraded);
    }
    match llmProbe {
      case Returned(truthy) =>
        if truthy {
          h := h.(llm := Available);
        }
      case Raised(_) =>
        h := h.(llm := Unavailable);
        h := h.(status := Degraded);
    }
  }

  /** A loaded vector store is a truthy object. */
  function VectorstoreProbe(r: Result<VectorStore, Error>): (p: Probe)
    ensures p.Raised? <==> r.Failure?
    ensures r.Failure? ==> p.error == r.error
    ensures r.Success? ==> p == Returned(true)
  {
    match r
    case Success(_) => Returned(true)
    case Failure(e) => Raised(e)
  }

  /**
   * `HealthCheckView.get` over the real vector-store cell: the probe goes through
   * the cache, so a healthy check leaves the store loaded for later queries, and
   * the store is reported available exactly when it is now cached.
   */
  method HealthCheckWithStore(embeddings: EmbeddingService, env: LoadEnv, llmProbe: Probe) returns (h: HealthStatus)
    modifies embeddings
    ensures old(embeddings.vectorstore).Some? ==> embeddings.vectorstore == old(embeddings.vectorstore)
    ensures old(embeddings.vectorstore).None? ==>
      embeddings.vectorstore == LoadFromDisk(env, embeddings.vectorstorePath).ToOption()
    ensures h.vectorstore == Available <==> embeddings.vectorstore.Some?
    ensures h.vectorstore == Unavailable <==> embeddings.vectorstore.None?
    ensures h.status == Degraded <==> embeddings.vectorstore.None? || llmProbe.Raised?
    ensures h.api == Available
    ensures h.llm == Unavailable <==> llmProbe.Raised?
    ensures h.llm == Available <==> llmProbe == Returned(true)
    ensures h.llm == Unknown <==> llmProbe == Returned(false)
  {
    var store := embeddings.GetVectorstore(env);
    h := HealthCheck(VectorstoreProbe(store), llmProbe);
  }

  // ---------------------------------------------------------------------------
  // QueryView.post

  const HttpOk: int := 200
  const HttpBadRequest: int := 400
  const HttpServerError: int := 500

  const QueryFailedMessage: string := "Query processing failed"
  const ResponseInvalidMessage: string := "Response validation failed"

  datatype Body =
    | ValidationErrors
    | Payload(answer: Answer, processingTime: real)
    | ErrorBody(error: string, detail: Option<Error>)

  datatype HttpResponse = HttpResponse(status: int, body: Body)

  /**
   * `QueryView.post`. `validated` is the query the request serializer accepted
   * (None when it rejected the request), `elapsed` the measured processing time,
   * and `responseValid` the response serializer's verdict.
   */
  method QueryPost(
    service: RetrievalService, validated: Option<string>, env: ChainEnv,
    invoke: (QaChain, string) -> Result<ChainOutput, Error>,
    elapsed: real, responseValid: (Answer, real) -> bool)
    returns (resp: HttpResponse)
    requires service.Valid()
    modifies service, service.embeddings
    ensures service.Valid()
    ensures validated.None? ==>
      resp == HttpResponse(HttpBadRequest, ValidationErrors) &&
      unchanged(service) && unchanged(service.embeddings)
    ensures validated.Some? ==> resp.status == HttpOk || resp.status == HttpServerError
    ensures resp.status == HttpOk <==> resp.body.Payload?
    ensures validated.Some? && old(service.qaChain).Some? ==>
      service.qaChain == old(service.qaChain) && service.chainBuilds == old(service.chainBuilds) &&
      unchanged(service.embeddings)
    ensures validated.Some? && old(service.qaChain).None? ==>
      service.chainBuilds == old(service.chainBuilds) + (if service.qaChain.Some? then 1 else 0) &&
      service.qaChain.Some? ==
        BuildError(env, old(service.embeddings.vectorstore), service.embeddings.vectorstorePath).None? &&
      service.embeddings.vectorstore ==
        (if old(service.embeddings.vectorstore).Some? then old(service.embeddings.vectorstore)
         else LoadFromDisk(env.load, service.embeddings.vectorstorePath).ToOption())
    ensures validated.Some? && old(service.qaChain).None? && service.qaChain.Some? ==>
      service.qaChain.value ==
        QaChain(MmrRetriever(service.embeddings.vectorstore.value, service.embeddings.retrievalK), env.llm.value)
    ensures validated.Some? && service.qaChain.None? ==>
      resp == HttpResponse(HttpServerError, ErrorBody(QueryFailedMessage,
        BuildError(env, old(service.embeddings.vectorstore), service.embeddings.vectorstorePath)))
    ensures validated.Some? && service.qaChain.Some? ==>
      var outcome := AnswerFrom(invoke(service.qaChain.value, validated.value));
      (outcome.Failure? ==>
         resp == HttpResponse(HttpServerError, ErrorBody(QueryFailedMessage, Some(outcome.error)))) &&
      (outcome.Success? && responseValid(outcome.value, elapsed) ==>
         resp == HttpResponse(HttpOk, Payload(outcome.value, elapsed))) &&
      (outcome.Success? && !responseValid(outcome.value, elapsed) ==>
         resp == HttpResponse(HttpServerError, ErrorBody(ResponseInvalidMessage, None)))
  {
    if validated.None? {
      return HttpResponse(HttpBadRequest, ValidationErrors);
    }
    var result := service.ProcessQuery(validated.value, env, invoke);
    if result.Failure? {
      return HttpResponse(HttpServerError, ErrorBody(QueryFailedMessage, Some(result.error)));
    }
    if responseValid(result.value, elapsed) {
      resp := HttpResponse(HttpOk, Payload(result.value, elapsed));
    } else {
      resp := HttpResponse(HttpServerError, ErrorBody(ResponseInvalidMessage, None));
    }
  }

  /**
   * A query to a freshly started service whose index directory is missing is
   * answered 500 with "Query processing failed" and the FileNotFound error.
   */
  method MissingIndexFailsQuery(
    path: string, k: int, query: string, env: ChainEnv,
    invoke: (QaChain, string) -> Result<ChainOutput, Error>,
    elapsed: real, responseValid: (Answer, real) -> bool)
    returns (resp: HttpResponse)
    requires env.load.embedder.Success? && !env.load.pathExists
    ensures resp == HttpResponse(HttpServerError, ErrorBody(QueryFailedMessage, Some(FileNotFound(path))))
  {
    var embeddings := new EmbeddingService(path, k);
    var service := new RetrievalService(embeddings);
    resp := QueryPost(service, Some(query), env, invoke, elapsed, responseValid);
  }
}
