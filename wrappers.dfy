/** Failure-carrying result types shared by every module of the model. */
module Wrappers {

  /** A value that may be missing (a Go nil pointer or a "comma ok" lookup that failed). */
  datatype Option<+T> = None | Some(value: T)

  /** A value or the error that replaced it (Go's `(T, error)` pair). */
  datatype Result<+T, +E> = Ok(value: T) | Err(error: E)

  /** Success or an error, for Go functions that return only `error`. */
  datatype Outcome<+E> = Pass | Fail(error: E)
}
