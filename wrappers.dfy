/** Option, Result and Outcome values used for the run-time checks of the code transform. */
module Wrappers {

  datatype Option<+T> = None | Some(value: T)

  /** A value, or the fault that interrupted the computation of it. */
  datatype Result<+T, +E> = Success(value: T) | Failure(error: E)

  /** Completion of an operation that computes no value, or the fault that interrupted it. */
  datatype Outcome<+E> = Pass | Fail(error: E)
}
