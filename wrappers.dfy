/** Failure-carrying values used for the error returns of the Go code. */
module Wrappers {

  /** A value that may be absent (a nil pointer or a failed type assertion in Go). */
  datatype Option<+T> = None | Some(value: T)

  /** A value or the error that was returned instead of it. */
  datatype Result<+T, +E> = Ok(value: T) | Err(error: E)

  /** A Go `error` return: nil (`Pass`) or an error value. */
  datatype Outcome<+E> = Pass | Fail(error: E)
}
