/** Option, Result and Outcome: the model's stand-ins for Ruby's `nil` and for raised exceptions. */
module Wrappers {

  datatype Option<+T> = None | Some(value: T)

  /** A value or the exception that was raised instead of producing it. */
  datatype Result<+T, +E> = Ok(value: T) | Err(error: E)

  /** Completion without a value, or the exception that was raised. */
  datatype Outcome<+E> = Pass | Fail(error: E)
}
