/** Option and Result values standing for Go's `(value, error)` returns. */
module Wrappers {

  /** An error as the CSI client returns it; only its text is carried. */
  type Error = string

  datatype Option<+T> = None | Some(value: T)

  /** The reply of one call into the CSI driver: a value or the error it failed with. */
  datatype Result<+T> = Ok(value: T) | Err(error: Error)
}
