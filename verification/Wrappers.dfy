/** Failure-compatible wrappers shared by the modules of this model. */
module Wrappers {

  /** A value that may be absent; stands for a Java reference that may be null. */
  datatype Option<+T> = None | Some(value: T)

  /** The result of an operation that either yields a value or fails with an error. */
  datatype Result<+R, +E> = Success(value: R) | Failure(error: E)

  /** The outcome of an operation that either completes or fails with an error. */
  datatype Outcome<+E> = Pass | Fail(error: E)
}
