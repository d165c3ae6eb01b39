/** Failure-carrying values shared by every module of the model. */
module Wrappers {

  /** A value that may be absent (a Go nil pointer, a SQL NULL, a JavaScript undefined). */
  datatype Option<+T> = None | Some(value: T)

  /** The outcome of an operation that can fail with an error message, as Go's `(T, error)` pairs. */
  datatype Result<+T> = Ok(value: T) | Err(msg: string)
}
