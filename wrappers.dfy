/** Failure-compatible wrappers used by the stock-entry model. */
module Wrappers {

  /** A value that may be absent (Python's `None`). */
  datatype Option<+T> = None | Some(value: T)

  /** The outcome of a step that either produces a value or is rejected. */
  datatype Result<+R, +E> = Success(value: R) | Failure(error: E)
}
