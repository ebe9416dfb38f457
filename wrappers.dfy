/** Failure-compatible result types shared by the model's modules. */
module Wrappers {

  /** A value that may be absent, like a query's `.first()` that finds no row. */
  datatype Option<+T> = None | Some(value: T)

  /** The value a call returns, or the exception it raises. */
  datatype Result<+R, +E> = Success(value: R) | Failure(error: E)

  /** The outcome of a call that returns nothing: it completes or it raises. */
  datatype Outcome<+E> = Pass | Fail(error: E)
}
