/** Failure-carrying results shared by the whole model. */
module Wrappers {

  /** A value that may be absent: JavaScript's `undefined` (or NaN for numbers). */
  datatype Option<+T> = None | Some(value: T)

  /** Either a value or the error the source would raise or report. */
  datatype Result<+R, +E> = Success(value: R) | Failure(error: E)

  /** Success without a value, or an error. */
  datatype Outcome<+E> = Pass | Fail(error: E)
}
