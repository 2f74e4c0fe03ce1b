/** Optional values and success/failure results shared by every module of the model. */
module Wrappers {

  /** A value that may be absent; stands for JavaScript's `null`/`undefined` slots. */
  datatype Option<+T> = None | Some(value: T)

  /** The outcome of an operation that either yields a value or throws an error. */
  datatype Result<+T, +E> = Success(value: T) | Failure(error: E)
}
