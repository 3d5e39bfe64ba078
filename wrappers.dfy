/** Optional values (Go's nil pointers) and results with an error (Go's `(T, error)` returns). */
module Wrappers {

  datatype Option<+T> = None | Some(value: T)

  datatype Result<+R, +E> = Success(value: R) | Failure(error: E)
}
