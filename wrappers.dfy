/** Failure-compatible value types used throughout the model. */
module Wrappers {

  /** A value that may be absent (Swift's Optional). */
  datatype Option<+T> = None | Some(value: T)

  /** The outcome of an asynchronous call that either yields a value or an error. */
  datatype Result<+T, +E> = Success(value: T) | Failure(error: E)

  /** The outcome of an operation that returns nothing but may throw. */
  datatype Outcome<+E> = Pass | Fail(error: E)
}
