/** Failure-carrying values used in place of Java's null references and checked exceptions. */
module Wrappers {

  /** A value that may be absent (a Java reference that may be null). */
  datatype Option<+T> = None | Some(value: T)

  /** A successful value, or the exception a Java call would have thrown instead. */
  datatype Result<+R, +E> = Success(value: R) | Failure(error: E)

  /** The outcome of a Java `void` call that may throw: it returned, or it threw `error`. */
  datatype Outcome<+E> = Pass | Fail(error: E)
}
