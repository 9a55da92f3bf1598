/** Option and Result, the shapes Go's `(value, error)` and nil-able returns take in this model. */
module Wrappers {

  datatype Option<+T> = None | Some(value: T)

  datatype Result<+R, +E> = Success(value: R) | Failure(error: E)
}
