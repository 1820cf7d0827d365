/** Failure-compatible wrappers shared by the other modules. */
module Wrappers {

  /** An optional value: Python's `Optional[T]` / `T | None`. */
  datatype Option<+T> = None | Some(value: T)

  /** A value or the error that the source raises instead of returning. */
  datatype Result<+T, +E> = Success(value: T) | Failure(error: E)
}
