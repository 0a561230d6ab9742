/** Failure-carrying values shared by every module of the model. */
module Wrappers {

  /** Python's `None` or a present value. */
  datatype Option<+T> = None | Some(value: T)

  /** A value or the error an operation raised instead. */
  datatype Result<+R, +E> = Ok(value: R) | Err(error: E)

  /** Normal completion, or the error an operation raised. */
  datatype Outcome<+E> = Pass | Fail(error: E)
}
