/** Option and Result: an optional value, and a value-or-error return. */
module Wrappers {

  /** An optional value; None stands for "this variant has no such field". */
  datatype Option<+T> = None | Some(value: T)

  /** A Go `(value, error)` pair where exactly one side is meaningful. */
  datatype Result<+R, +E> = Success(value: R) | Failure(error: E)
}
