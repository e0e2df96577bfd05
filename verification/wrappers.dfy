/** Failure-compatible wrappers shared by the models: an optional value (Go's nil
    pointer) and a value-or-error pair (Go's `(T, error)` return). */
module Wrappers {

  datatype Option<+T> = None | Some(value: T)

  datatype Result<+T, +E> = Success(value: T) | Failure(error: E)
}
