/** Failure-compatible wrappers used throughout the model. */
module Wrappers {

  /** An optional value: JavaScript's `undefined`/`null` or a present value. */
  datatype Option<+T> = None | Some(value: T)

  /** The value of an operation that may throw instead of returning. */
  datatype Result<+R, +E> = Success(value: R) | Failure(error: E)

  /** The outcome of an operation that returns nothing but may throw. */
  datatype Outcome<+E> = Pass | Fail(error: E)
}
