/** Option and Result: the model's stand-ins for Python's `None` and for raised exceptions. */
module Wrappers {

  /** A value that may be missing (`None` in Python). */
  datatype Option<+T> = None | Some(value: T) {
    function GetOr(default: T): T {
      match this
      case Some(v) => v
      case None => default
    }
  }

  /** The outcome of a call that may raise: `Err` carries the exception's
      message, `str(exception)`, shortened where Python's text quotes data
      the model does not hold. */
  datatype Result<+T> = Ok(value: T) | Err(error: string)
}
