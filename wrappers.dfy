/** Failure-carrying values used throughout the model: Go's `(T, error)` pairs and bare `error` returns. */
module Wrappers {

  datatype Option<+T> = None | Some(value: T)

  /** A value or an error: Go's `(T, error)` result pair. */
  datatype Result<+R, +E> = Success(value: R) | Failure(error: E)

  /** A Go function that returns only an `error`: `Pass` is `nil`. */
  datatype Outcome<+E> = Pass | Fail(error: E)
}
