/** Optional values and results with an error, as used throughout the model. */
module Wrappers {

  /** A value that may be absent: `null`/`undefined` in the source. */
  datatype Option<+T> = None | Some(value: T)

  /** The outcome of an operation that can fail (a thrown error in the source). */
  datatype Result<+R, +E> = Success(value: R) | Failure(error: E)
}
