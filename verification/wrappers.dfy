/** Optional values and results, standing in for JavaScript's `undefined`
    and for thrown exceptions. */
module Wrappers {

  /** A value that may be absent (`undefined` or `null` in the source). */
  datatype Option<+T> = None | Some(value: T)

  /** The outcome of an operation that may throw: either a value or the
      message of the error it threw. */
  datatype Result<+T, +E> = Success(value: T) | Failure(error: E)
}
