/** Failure-compatible helper datatypes shared by the ticket modules. */
module Wrappers {

  /** A value that may be missing: `null` or `undefined` on the TypeScript side. */
  datatype Option<+T> = None | Some(value: T)

  /** The outcome of a service call: a value, or the exception it throws. */
  datatype Result<+T, +E> = Success(value: T) | Failure(error: E)
}
