/** Failure-carrying results, the model's stand-in for Go's `(value, error)` pairs. */
module Wrappers {

  datatype Result<+T, +E> = Ok(value: T) | Err(error: E)

  datatype Option<+T> = None | Some(value: T)
}
