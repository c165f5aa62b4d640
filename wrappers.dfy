/** Option and Result, the absent value and the error path used across the model. */
module Wrappers {

  /** Python's `None` or a value. */
  datatype Option<+T> = None | Some(value: T) {
    /** The value, or `default` when absent (the `x if x is not None else default` idiom). */
    function GetOr(default: T): T {
      match this
      case Some(v) => v
      case None => default
    }
  }

  /** A computed value, or the error the Python code would raise. */
  datatype Result<+R, +E> = Success(value: R) | Failure(error: E)
}
