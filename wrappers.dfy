/** Optional values and results of calls that can fail. */
module Wrappers {

  datatype Option<+T> = None | Some(value: T)

  /** A call into the gateway either answers or throws; the error carries the exception's message. */
  datatype Result<+T, +E> = Success(value: T) | Failure(error: E)
}
