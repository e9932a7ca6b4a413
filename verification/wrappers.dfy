/** Option and Result datatypes used across the model. */
module Wrappers {

  /** A value that may be missing. */
  datatype Option<+T> = None | Some(value: T)

  /** Either a result or the error that prevented it. */
  datatype Result<+R, +E> = Success(value: R) | Failure(error: E)
}
