/** Option and Result values for the places where the Python code returns
    `None` or raises an exception. */
module Wrappers {

  datatype Option<+T> = None | Some(value: T)

  datatype Result<+T, +E> = Success(value: T) | Failure(error: E)

  /** The outcome of a call whose only result is whether it raised. */
  datatype Outcome<+E> = Pass | Fail(error: E)
}
