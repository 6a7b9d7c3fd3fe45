/** Optional values and results shared by the model. */
module Wrappers {

  /** A value that may be absent (JavaScript's `undefined`). */
  datatype Option<+T> = None | Some(value: T)

  /** A value or the error that replaced it (a thrown JavaScript error). */
  datatype Result<+T, +E> = Success(value: T) | Failure(error: E)
}
