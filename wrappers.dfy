/** Wrappers standing for Java's null returns and thrown exceptions. */
module Wrappers {

  /** A value that may be absent (Java's `null`). */
  datatype Option<+T> = None | Some(value: T)

  /** A computed value, or the exception that was thrown instead. */
  datatype Result<+R, +E> = Success(value: R) | Failure(error: E)

  /** A `void` operation that either completes or throws. */
  datatype Outcome<+E> = Pass | Fail(error: E)
}
