/** Failure-compatible wrappers: the "no result" signal and per-file outcomes. */
module Wrappers {

  /** None stands for Python's `None` return. */
  datatype Option<+T> = None | Some(value: T)

  /** A value or the error that stopped computing it (an exception in the source). */
  datatype Result<+R, +E> = Success(value: R) | Failure(error: E)
}
