/** Failure-carrying wrappers used across the model. */
module Wrappers {

  /** A value that may be absent: a parse that failed, a member that is missing. */
  datatype Option<+T> = None | Some(value: T)

  /** The result of an operation that either succeeds or fails with an error value,
      the way a C++ call returns normally or throws. */
  datatype Outcome<+E> = Pass | Fail(error: E)
}
