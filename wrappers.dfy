/** Option and result datatypes shared by the other modules. */
module Wrappers {

  /** A value that may be absent: Python's `Optional[T]`. */
  datatype Option<+T> = None | Some(value: T)

  /** The result of an operation that either yields a value or fails with an error. */
  datatype Result<+T, +E> = Success(value: T) | Failure(error: E)

  /** The result of an operation that yields nothing when it succeeds. */
  datatype Outcome<+E> = Pass | Fail(error: E)
}
