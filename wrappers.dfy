/** Optional values and results with an error, shared by the other modules. */
module Wrappers {

  /** A value that may be absent; `None` plays the part of Python's `None`. */
  datatype Option<+T> = None | Some(value: T)

  /** The outcome of an operation that can raise an exception. */
  datatype Result<+T, +E> = Success(value: T) | Failure(error: E)
}
