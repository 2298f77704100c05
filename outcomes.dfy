/** Failure-carrying values shared by the handler and the legacy server models. */
module Outcomes {

  /** A value that may be absent (JavaScript `undefined` / `null`). */
  datatype Option<+T> = None | Some(value: T)

  /** The settled state of a promise or callback that yields a value: resolved or rejected. */
  datatype Result<+T, +E> = Success(value: T) | Failure(error: E)

  /** The settled state of a promise or callback that yields no value. */
  datatype Outcome<+E> = Pass | Fail(error: E)
}
