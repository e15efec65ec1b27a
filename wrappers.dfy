/** Option, Result and Outcome: the error returns of the Go code as values. */
module Wrappers {

  /** A value that may be absent: a Go pointer that may be nil. */
  datatype Option<+T> = None | Some(value: T)

  /** A value or an error: a Go `(T, error)` pair. */
  datatype Result<+T, +E> = Success(value: T) | Failure(error: E)

  /** A success without a value, or an error: a Go `error` return. */
  datatype Outcome<+E> = Pass | Fail(error: E)
}
