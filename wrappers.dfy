/** Option, Result and Outcome: the model's stand-ins for Java's null, return-or-throw and void-or-throw. */
module Wrappers {

  /** A value that may be absent (Java `null` / an empty `Optional`). */
  datatype Option<+T> = None | Some(value: T)

  /** A value, or the exception that an operation threw instead. */
  datatype Result<+R, +E> = Success(value: R) | Failure(error: E)

  /** A `void` operation: it returned normally, or it threw. */
  datatype Outcome<+E> = Pass | Fail(error: E)
}
