/** Small failure-carrying datatypes shared by the rest of the model. */
module Wrappers {

  /** Python's `X | None`: either a value or nothing. */
  datatype Option<+T> = None | Some(value: T)

  /** The outcome of a call that may raise: a value or the error it raises. */
  datatype Result<+R, +E> = Success(value: R) | Failure(error: E)
}
