/** Optional values and results shared by the whole model. */
module Wrappers {

  /** A value that may be absent: JavaScript's `undefined`/`null` is `None`. */
  datatype Option<+T> = None | Some(value: T)

  /** The outcome of an operation that can fail with an error of type `E`. */
  datatype Result<+R, +E> = Success(value: R) | Failure(error: E)
}
