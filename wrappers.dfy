/** Failure-compatible wrappers used across the model. */
module Wrappers {

  /** An optional value; for a Java reference argument, None stands for null. */
  datatype Option<+T> = None | Some(value: T)

  /** The outcome of a call that either returns a value or throws. */
  datatype Result<+R, +E> = Success(value: R) | Failure(error: E)
}
