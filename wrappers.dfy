/** Optional values and results with an error, the two shapes every module here returns. */
module Wrappers {

  /** A value that may be absent: JavaScript's `null`/`undefined` next to a present value. */
  datatype Option<+T> = None | Some(value: T)

  /** The outcome of an operation that may throw: the value it returns or the error it raises. */
  datatype Result<+T, +E> = Success(value: T) | Failure(error: E)
}
