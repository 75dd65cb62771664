/** Failure-carrying return types: the service layer's exceptions become values. */
module Wrappers {

  datatype Option<+T> = None | Some(value: T)

  /** The value of a computation, or the error it raised. */
  datatype Result<+T, +E> = Success(value: T) | Failure(error: E)

  /** A check that either passes or fails with an error (a `void` method that may throw). */
  datatype Outcome<+E> = Pass | Fail(error: E)
}
