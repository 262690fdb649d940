/** Option and Result, the failure-carrying values the rest of the model returns
    in place of Go's `(value, error)` pairs and nil checks. */
module Wrappers {

  datatype Option<+T> = None | Some(value: T)

  datatype Result<+T, +E> = Success(value: T) | Failure(error: E)
}
