/** Failure-compatible wrappers shared by the model: an optional value, a
    value-or-error result, and a pass-or-error outcome (Go's `error` return). */
module Wrappers {

  /** A value that may be absent (a Go nil pointer). */
  datatype Option<+T> = None | Some(value: T)

  /** A value, or the error that prevented computing it (Go's `(T, error)`). */
  datatype Result<+T, +E> = Success(value: T) | Failure(error: E)

  /** Success without a value, or an error (Go's lone `error` return). */
  datatype Outcome<+E> = Pass | Fail(error: E)
}
