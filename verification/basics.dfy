/** Option and Result, the two failure-carrying shapes used throughout the model. */
module Basics {

  /** A value that may be absent (a Go nil pointer, a missing map entry). */
  datatype Option<+T> = None | Some(value: T)

  /** A Go `(value, error)` pair where exactly one side is meaningful. */
  datatype Result<+T, +E> = Success(value: T) | Failure(error: E)
}
