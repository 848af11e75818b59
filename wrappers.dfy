/** Failure-carrying values used in place of Python's raised exceptions. */
module Wrappers {

  datatype Option<+T> = None | Some(value: T)

  /** A computation that either produced a value or raised an error. */
  datatype Result<+T, +E> = Ok(value: T) | Err(error: E)

  /** A check that either passed or raised an error (no value on success). */
  datatype Outcome<+E> = Pass | Fail(error: E)
}
