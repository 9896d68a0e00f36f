/** Option and Result, the two failure-carrying datatypes used throughout the model. */
module Wrappers {

  /** A Java reference that may be `null`: `None` is `null`. */
  datatype Option<+T> = None | Some(value: T)

  /** The outcome of an operation that either returns a value or throws. */
  datatype Result<+R, +E> = Success(value: R) | Failure(error: E)
}
