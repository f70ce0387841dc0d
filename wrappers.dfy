/** Option and Result values shared by the Go and Rust models. */
module Wrappers {

  datatype Option<+T> = None | Some(value: T)

  /** A value or an error, in place of Go's `(value, error)` pairs and Rust's `Result`. */
  datatype Result<+T, +E> = Ok(value: T) | Err(error: E)
}
