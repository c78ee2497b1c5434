/** Option and Result values for absence and for the exceptions the robot code raises. */
module Wrappers {

  datatype Option<+T> = None | Some(value: T)

  datatype Result<+R, +E> = Ok(value: R) | Err(error: E)

  /** A completed call that produces no value, or the exception it raised. */
  datatype Outcome<+E> = Pass | Fail(error: E)
}
