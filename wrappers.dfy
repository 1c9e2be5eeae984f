/** Option and Result values for the lookups and error returns of the plan engine. */
module Wrappers {

  datatype Option<+T> = None | Some(value: T)

  /** The outcome of an endpoint: a value, or the error it reports to its caller. */
  datatype Result<+T, +E> = Success(value: T) | Failure(error: E)
}
