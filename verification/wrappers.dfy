/** Failure-carrying wrappers used throughout the model: a value that may be
    absent, and the outcome of a call that may fail. */
module Wrappers {

  /** A value that may be absent (a JavaScript `undefined` field or variable). */
  datatype Option<+T> = None | Some(value: T)

  /** The outcome of a fallible step: a value, or the error it threw. */
  datatype Result<+R, +E> = Success(value: R) | Failure(error: E)
}
