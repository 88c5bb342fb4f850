/** Small failure-carrying datatypes shared by the model. */
module Wrappers {

  /** A value that may be absent; models a Go pointer or interface that may be nil. */
  datatype Option<+T> = None | Some(value: T)

  /** Either a value or the error that stopped its computation. */
  datatype Result<+R, +E> = Success(value: R) | Failure(error: E)
}
