/** Failure-carrying datatypes shared by the model: an optional value, and the
    outcome of a call that either succeeds with a value or fails with an error. */
module Wrappers {

  /** A value that may be absent, as a Python `None` default. */
  datatype Option<+T> = None | Some(value: T)

  /** The outcome of a call that can raise: `Failure` carries the exception's text. */
  datatype Result<+R, +E> = Success(value: R) | Failure(error: E)
}
