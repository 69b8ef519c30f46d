/** Failure-carrying values used throughout the model. */
module Wrappers {

  /** An optional value, as a Go `(T, bool)` pair or a nil-able error. */
  datatype Option<+T> = None | Some(value: T)

  /** A value or the reason it could not be produced. */
  datatype Result<+T, +E> = Success(value: T) | Failure(error: E)
}
