/** Optional values and results with an error, shared by the modules of this model. */
module Wrappers {

  /** A value that may be absent (pandas' NaN median, JavaScript's `undefined` option). */
  datatype Option<+T> = None | Some(value: T)

  /** The outcome of an operation that may raise an exception in the source. */
  datatype Result<+T, +E> = Success(value: T) | Failure(error: E)
}
