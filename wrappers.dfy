/** Option and Result: the absent value and the thrown error of the source. */
module Wrappers {

  datatype Option<+T> = None | Some(value: T)

  datatype Result<+R, +E> = Success(value: R) | Failure(error: E)

  /** The error a `throw error(message)` in the source raises. */
  datatype Error = Error(message: string)
}
