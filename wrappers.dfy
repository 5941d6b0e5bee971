/** Ruby's nil and raised errors as values. */
module Wrappers {

  /** A value or Ruby's nil. */
  datatype Option<+T> = None | Some(value: T)

  /** A result, or the error that was raised instead. */
  datatype Result<+R, +E> = Success(value: R) | Failure(error: E)

  /** Success without a value, or the error that was raised. */
  datatype Outcome<+E> = Pass | Fail(error: E)
}
