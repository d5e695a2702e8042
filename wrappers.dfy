/** Failure-compatible values used for JavaScript's thrown errors and rejected promises. */
module Wrappers {

  datatype Option<+T> = None | Some(value: T)

  /** A computation that either produced a value or threw an error. */
  datatype Result<+R, +E> = Success(value: R) | Failure(error: E)

  /** A computation with no value that either completed or threw an error. */
  datatype Outcome<+E> = Pass | Fail(error: E)
}
