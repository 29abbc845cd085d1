/** Failure-compatible result types used for the source's exceptions. */
module Wrappers {

  datatype Option<+T> = None | Some(value: T)

  /** A value, or the error the source raises instead of returning it. */
  datatype Result<+R, +E> = Success(value: R) | Failure(error: E)

  /** Success without a value, or the error the source raises. */
  datatype Outcome<+E> = Pass | Fail(error: E)
}
