/** Failure-compatible wrappers used throughout the model. */
module Wrappers {

  /** A value that may be absent: a nullable column, a query that found nothing. */
  datatype Option<+T> = None | Some(value: T)

  /** The outcome of an operation that returns a value or raises an error. */
  datatype Result<+T, +E> = Ok(value: T) | Err(error: E)

  /** The outcome of an operation or check that returns nothing or raises an error. */
  datatype Outcome<+E> = Pass | Fail(error: E)
}
