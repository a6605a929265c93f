/** Option and Result, the two failure-aware wrappers the model uses. */
module Wrappers {

  /** A value that may be missing: JavaScript `undefined` on a lookup. */
  datatype Option<+T> = None | Some(value: T)

  /** The outcome of an awaited call that may throw. */
  datatype Result<+T, +E> = Success(value: T) | Failure(error: E)
}
