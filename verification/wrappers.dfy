/** Option and Result, the failure-carrying values used across the model. */
module Wrappers {

  /** A value that may be absent: JavaScript's `null`/`undefined`, or `NaN` for a number. */
  datatype Option<+T> = None | Some(value: T)

  /** The outcome of an operation that either yields a value or rejects with an error. */
  datatype Result<+T, +E> = Success(value: T) | Failure(error: E)
}
