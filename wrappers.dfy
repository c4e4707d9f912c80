/** Failure-carrying result types shared by the modules below. */
module Wrappers {

  /** A Python value that may be None. */
  datatype Option<+T> = None | Some(value: T)

  /** A computation that either produces a value or raises an error. */
  datatype Result<+T, +E> = Success(value: T) | Failure(error: E)

  /** A check that either passes or raises an error, with no value. */
  datatype Outcome<+E> = Pass | Fail(error: E)
}
