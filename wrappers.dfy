/** Optional values and results with an error, as used throughout the model. */
module Wrappers {

  /** A value that may be absent: Python's `Optional[T]`. */
  datatype Option<+T> = None | Some(value: T)

  /** The outcome of an operation that may fail (an exception or a failed assertion). */
  datatype Result<+R, +E> = Success(value: R) | Failure(error: E)
}
