/** Option and Result values shared by both trigger handlers. */
module Wrappers {

  /** A value that may be absent (JavaScript `undefined` or `null`). */
  datatype Option<+T> = None | Some(value: T)

  /** The outcome of a handler: the value it returns, or the error it throws. */
  datatype Result<+R, +E> = Success(value: R) | Failure(error: E)
}
