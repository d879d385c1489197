/** Optional values and results of operations that may fail. */
module Wrappers {

  datatype Option<+T> = None | Some(value: T)

  /** The outcome of an operation that may raise: a value, or the text of the error. */
  datatype Result<+T, +E> = Success(value: T) | Failure(error: E)
}
