/** Failure-compatible wrappers used throughout the model. */
module Wrappers {

  /** Go's pointer-or-nil: a value that may be absent. */
  datatype Option<+T> = None | Some(value: T)

  /** Go's `(value, error)` pair where exactly one side is meaningful. */
  datatype Result<+T> = Ok(value: T) | Err(error: string)
}
