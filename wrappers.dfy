/** Failure-carrying results shared by every module of the model. */
module Wrappers {

  /** Python's `Optional[T]`: `None` or a value. */
  datatype Option<+T> = None | Some(value: T)

  /** The value an operation returns, or the text of the exception it raises. */
  datatype Result<+T, +E> = Success(value: T) | Failure(error: E)

  /** An operation that returns nothing useful, or raises. */
  datatype Outcome<+E> = Pass | Fail(error: E)
}
