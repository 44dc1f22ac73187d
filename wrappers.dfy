/** Helper datatypes shared by the model. */
module Wrappers {

  /** A value that may be absent; `None` also stands for Python's `None`. */
  datatype Option<+T> = None | Some(value: T)

  /** The result of an operation that may raise instead of returning. */
  datatype Result<+T, +E> = Success(value: T) | Failure(error: E)

  /** The result of a check that returns nothing when it passes. */
  datatype Outcome<+E> = Pass | Fail(error: E)
}
