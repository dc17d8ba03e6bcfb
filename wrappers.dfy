/** Option and Result values for the engine's "absent" returns and thrown errors. */
module Wrappers {

  /** A value that may be absent (`T | null` in the TypeScript code). */
  datatype Option<+T> = None | Some(value: T)

  /** The outcome of an operation that may throw: the result, or the error it throws. */
  datatype Result<+R, +E> = Success(value: R) | Failure(error: E)
}
