/** Optional values and error results shared by the other modules. */
module Wrappers {

  /** A value that may be absent (JavaScript's `undefined` / `null`). */
  datatype Option<+T> = None | Some(value: T)

  /** The outcome of an operation that can throw: a value or the error it throws. */
  datatype Result<+R, +E> = Success(value: R) | Failure(error: E)
}
