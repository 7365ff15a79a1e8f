/** Option and Result, standing for Java's nullable references and early returns. */
module Wrappers {

  /** A value that may be absent: Java's `null`, or an empty `Optional`. */
  datatype Option<+T> = None | Some(value: T)

  /** The outcome of a chain of checks: the value that passed, or the first error. */
  datatype Result<+R, +E> = Success(value: R) | Failure(error: E)
}
