/**
 * Go's `(T, error)` and plain `error` returns. An error is reduced to its
 * message: the wrapped cause that `errors.New(msg, cause)` attaches is not
 * part of the model.
 */
module Wrappers {

  /** A value, or the error that replaced it (Go's `(T, error)`). */
  datatype Result<+T> = Ok(value: T) | Err(message: string)

  /** An operation that returns only an `error`: nil (`Pass`) or not. */
  datatype Outcome = Pass | Fail(message: string)

  datatype Option<+T> = None | Some(value: T)
}
