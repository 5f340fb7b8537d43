/** Failure-compatible wrappers: Java's nullable references and thrown exceptions become values. */
module Wrappers {

  /** A Java reference that may be null. */
  datatype Option<+T> = None | Some(value: T)

  /** A call that either returns a value or throws. */
  datatype Result<+T, +E> = Success(value: T) | Failure(error: E)

  /** A void call that either returns normally or throws. */
  datatype Outcome<+E> = Pass | Fail(error: E)
}
