/** Failure-compatible wrappers shared by the other modules. */
module Wrappers {

  /** A value that may be absent: C#'s null reference. */
  datatype Option<+T> = None | Some(value: T)

  /** A computation that either yields a value or fails with an error (a thrown exception). */
  datatype Result<+R, +E> = Success(value: R) | Failure(error: E)

  /** A step that either completes or fails with an error, without yielding a value. */
  datatype Outcome<+E> = Pass | Fail(error: E)
}
