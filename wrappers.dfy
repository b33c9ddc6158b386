/** Option and Result values used for Go's `nil` pointers, `(value, ok)` pairs and `error` returns. */
module Wrappers {

  datatype Option<+T> = None | Some(value: T)

  datatype Result<+T, +E> = Ok(value: T) | Err(error: E)
}
