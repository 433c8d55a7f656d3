/** Absence and failure as values.
    Option stands for a Java reference that may be null; Result for a call
    that either returns or throws. */
module Outcomes {

  /** A possibly-null reference: None is Java's null. */
  datatype Option<+T> = None | Some(value: T)

  /** The outcome of a call that returns a value or throws an exception. */
  datatype Result<+T, +E> = Ok(value: T) | Err(error: E)
}
