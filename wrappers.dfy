/** Option and Result, the failure-carrying values used throughout the model
    (Go's `error` results and `(value, ok)` pairs). */
module Wrappers {

  datatype Option<+T> = None | Some(value: T)

  datatype Result<+T, +E> = Success(value: T) | Failure(error: E)
}
