/** Small failure-compatible wrappers shared by every module of the model. */
module Wrappers {

  /** A value that may be missing: Go's nil pointer, C's NULL. */
  datatype Option<+T> = None | Some(value: T)

  /** A computation that either produced a value or failed with an error. */
  datatype Result<+T, +E> = Ok(value: T) | Err(error: E)
}
