/** Failure-carrying values used across the model. */
module Wrappers {

  datatype Option<+T> = None | Some(value: T)

  /** A value or the reason it could not be produced (Go's `(T, error)` pair). */
  datatype Result<+T, +E> = Ok(value: T) | Err(error: E)

  /** Success or the reason for failure (Go's lone `error` return). */
  datatype Outcome<+E> = Pass | Fail(error: E)
}
