/** Failure-carrying values used for the exceptions of the modelled code. */
module Wrappers {

  datatype Option<+T> = None | Some(value: T)

  /** A value, or the error that the operation raised instead. */
  datatype Result<+R, +E> = Success(value: R) | Failure(error: E)

  /** Success without a value, or the error raised. */
  datatype Outcome<+E> = Pass | Fail(error: E)
}
