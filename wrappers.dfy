/** Option and Result, the two failure-carrying wrappers the model uses for Go's
    nil-able values and (value, error) pairs. */
module Wrappers {

  /** A value that may be absent (a nil pointer or a nil error in Go). */
  datatype Option<+T> = None | Some(value: T)

  /** Either a value or an error (a Go pair where exactly one side is set). */
  datatype Result<+R, +E> = Success(value: R) | Failure(error: E)
}
