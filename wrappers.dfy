/** Failure-compatible result types shared by the other modules. */
module Wrappers {

  /** A value that may be missing (an absent key, a `null` field). */
  datatype Option<+T> = None | Some(value: T)

  /** The `(err, value)` pair a Node-style callback receives: a value or an error. */
  datatype Result<+T, +E> = Success(value: T) | Failure(error: E)

  /** A callback that receives only an error, or nothing on success. */
  datatype Outcome<+E> = Pass | Fail(error: E)
}
