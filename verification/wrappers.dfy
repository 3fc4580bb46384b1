/** Option and Result, used for Go's nil pointers and (value, error) returns. */
module Wrappers {

  /** `None` plays the role of a nil pointer or a nil error. */
  datatype Option<+T> = None | Some(value: T)

  /** A Go `(value, err)` pair where exactly one side is meaningful. */
  datatype Result<+R, +E> = Success(value: R) | Failure(error: E)
}
