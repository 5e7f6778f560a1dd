/** Optional values and success-or-error results, shared by the other modules. */
module Wrappers {

  /** A value that may be absent (Go's `(value, ok)` pairs and nil pointers). */
  datatype Option<+T> = None | Some(value: T)

  /** A value or an error message (Go's `(value, error)` pairs). */
  datatype Result<+T> = Success(value: T) | Failure(error: string)
}
