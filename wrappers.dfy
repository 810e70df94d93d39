/** Optional values and results shared by every module of the model. */
module Wrappers {

  /** A value that may be absent: a NULL column, a missing JSON key, an undefined field. */
  datatype Option<+T> = None | Some(value: T)

  /** The outcome of an operation that can fail with an error value instead of raising. */
  datatype Result<+R, +E> = Success(value: R) | Failure(error: E)
}
