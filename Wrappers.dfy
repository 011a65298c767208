/** Optional values and error returns, the two shapes Go expresses with nil pointers and
    (value, error) pairs. */
module Wrappers {

  /** A value that may be absent (a nil pointer in the Go code). */
  datatype Option<+T> = None | Some(value: T)

  /** A value or an error, for Go functions that return `(T, error)`. */
  datatype Result<+T, +E> = Ok(value: T) | Err(error: E)
}
