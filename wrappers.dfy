/** Optional values and outcomes shared by every module of the model. */
module Wrappers {

  /** A value that may be absent: `undefined` or `null` in the application. */
  datatype Option<+T> = None | Some(value: T)

  /** The outcome of an operation that either resolves with a value or rejects with an error. */
  datatype Result<+T, +E> = Success(value: T) | Failure(error: E)
}
