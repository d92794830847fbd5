/** Option and Result, the two failure-carrying shapes used throughout the model. */
module Wrappers {

  /** A value that may be absent: the source's `null`. */
  datatype Option<+T> = None | Some(value: T)

  /** The outcome of a call that can throw: `Failure` carries the thrown message. */
  datatype Result<+R, +E> = Success(value: R) | Failure(error: E)
}
