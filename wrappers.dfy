/** Optional-value and result types used throughout the model in place of
    Python's `None` returns and raised exceptions. */
module Wrappers {

  /** A value that may be absent (Python's `None`). */
  datatype Option<+T> = None | Some(value: T)

  /** A computed value, or the error a Python function would raise. */
  datatype Result<+R, +E> = Success(value: R) | Failure(error: E)

  /** Success without a value, or the error a Python procedure would raise. */
  datatype Outcome<+E> = Pass | Fail(error: E)
}
