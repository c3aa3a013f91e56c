/** Option and Result, the shapes used for Go's `(value, error)` returns. */
module Wrappers {

  datatype Option<+T> = None | Some(value: T)

  /** A Go `(T, error)` pair: either a value or the error's text. */
  datatype Result<+T> = Ok(value: T) | Err(error: string)
}
