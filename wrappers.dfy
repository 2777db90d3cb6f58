/** Failure-compatible wrappers shared by the other modules. */
module Wrappers {

  /** A value that may be absent (Python's `None`). */
  datatype Option<+T> = None | Some(value: T)

  /** A value or the error that replaced it (a raised exception). */
  datatype Result<+T, +E> = Success(value: T) | Failure(error: E)
}
