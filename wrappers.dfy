/** Failure-carrying values used for the Java methods that either return or throw. */
module Wrappers {

  /** A Java reference that may be null. */
  datatype Option<+T> = None | Some(value: T)

  /** A call that returns a value or throws. */
  datatype Result<+T, +E> = Ok(value: T) | Err(error: E)

  /** A `void` call that returns normally or throws. */
  datatype Outcome<+E> = Pass | Fail(error: E)
}
