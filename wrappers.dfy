/** Result and Option values standing in for Go's `(value, error)` pairs and nil pointers. */
module Wrappers {

  /** A Go pointer that may be nil. */
  datatype Option<T> = None | Some(value: T)

  /** A Go `(value, error)` pair in which exactly one side is meaningful. */
  datatype Result<T, E> = Ok(value: T) | Err(error: E)
}
