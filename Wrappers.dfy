/** Failure-carrying wrappers used throughout the model. */
module Wrappers {

  /** A value that may be missing (a C pointer that may be NULL). */
  datatype Option<+T> = None | Some(value: T)

  /** A computation that yields a value or fails with a reason. */
  datatype Result<+T, +E> = Ok(value: T) | Err(error: E)
}
