/** Failure-compatible wrappers shared by the model. */
module Wrappers {

  /** A value that may be absent; `None` plays the part of a NaT/NaN cell. */
  datatype Option<+T> = None | Some(value: T)

  /** The outcome of an operation that can refuse its input. */
  datatype Result<+R, +E> = Success(value: R) | Failure(error: E)
}
