/** Failure-carrying values used throughout the model in place of Go's (value, error) pairs and nil pointers. */
module Wrappers {

  /** A value that may be absent: a nil pointer, a failed parse, a missing query parameter. */
  datatype Option<+T> = None | Some(value: T)

  /** Either a value or an error, as a Go function returning (T, error) does. */
  datatype Result<+T, +E> = Ok(value: T) | Err(error: E)
}
