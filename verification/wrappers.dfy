/** Failure-carrying values shared by the other modules. */
module Wrappers {

  /** A value that may be missing: the result of an authenticated open. */
  datatype Option<+T> = None | Some(value: T)

  /** A value or the error that prevented it: the `(value, error)` pair of a Go constructor. */
  datatype Result<+T, +E> = Ok(value: T) | Err(error: E)
}
