/** Failure-carrying values shared by the modules of the feed aggregator model. */
module Wrappers {

  /** A value that may be absent (a nullable column, a parse that failed). */
  datatype Option<+T> = None | Some(value: T)

  /** A value or the error that prevented it, as a Go `(T, error)` pair. */
  datatype Result<+T, +E> = Success(value: T) | Failure(error: E)

  /** The outcome of a Go function that returns only an `error`: nil or an error. */
  datatype Outcome<+E> = Pass | Fail(error: E)
}
