/** The Option and Result datatypes shared by the model. */
module Wrappers {

  /** A value that may be absent (Go's `value, ok` pair). */
  datatype Option<+T> = None | Some(value: T)

  /** A value or an error (Go's `value, err` pair). */
  datatype Result<+R, +E> = Success(value: R) | Failure(error: E)
}
