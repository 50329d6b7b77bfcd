/** Failure-compatible wrappers shared by the other modules. */
module Wrappers {

  /** A value that may be absent (TypeScript's `undefined`). */
  datatype Option<+T> = None | Some(value: T)

  /** The outcome of an operation that may throw. */
  datatype Result<+R, +E> = Ok(value: R) | Err(error: E)
}
