/** Failure-carrying values: Java's `null` and thrown exceptions become data. */
module Wrappers {

  /** A value that may be absent, standing in for a nullable Java reference. */
  datatype Option<+T> = None | Some(value: T)

  /** The result of an operation that may throw: its value or the error. */
  datatype Result<+T, +E> = Ok(value: T) | Err(error: E)

  /** The outcome of an operation that returns nothing but may throw. */
  datatype Outcome<+E> = Pass | Fail(error: E)
}
