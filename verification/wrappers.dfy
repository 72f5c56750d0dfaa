/** Failure-compatible wrappers used throughout the model. */
module Wrappers {

  /** A value that may be absent; stands in for a Java `null` return. */
  datatype Option<+T> = None | Some(value: T)

  /** Either a computed value or the exception that stopped the computation. */
  datatype Result<+R, +E> = Success(value: R) | Failure(error: E)
}
