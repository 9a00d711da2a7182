/** Wrappers standing for Java's null references and thrown exceptions. */
module Wrappers {

  /** A possibly-null reference or a possibly-absent value. */
  datatype Option<+T> = None | Some(value: T)

  /** A value, or the exception thrown instead of returning one. */
  datatype Result<+T, +E> = Success(value: T) | Failure(error: E)

  /** Normal completion of a void operation, or the exception it threw. */
  datatype Outcome<+E> = Pass | Fail(error: E)
}
