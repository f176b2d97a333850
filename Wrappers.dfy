/** Option and Result, the two failure-carrying wrappers the model uses. */
module Wrappers {

  /** A value that may be absent (`undefined` / `null` in the source). */
  datatype Option<+T> = None | Some(value: T)

  /** The outcome of a validation: the parsed value or the reasons it was refused. */
  datatype Result<+R, +E> = Success(value: R) | Failure(error: E)
}
