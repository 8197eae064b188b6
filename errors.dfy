/** The exceptions that reach the callers of the services. */
module Errors {

  datatype Error =
    /** Raised by `get_vectorstore` when the configured index directory does not exist. */
    | FileNotFound(path: string)
    /** A key missing from the dictionary the QA chain returned. */
    | KeyError(key: string)
    /** Any exception raised inside a library call (embedding model, FAISS, Ollama, LangChain). */
    | Foreign(message: string)
}
