/** Optional values and results with an error, shared by every module of the model. */
module Wrappers {

  /** A value that may be absent: JavaScript `null`/`undefined` on one side, a value on the other. */
  datatype Option<+T> = None | Some(value: T) {
    /** The value, or `default` when absent. */
    function GetOr(default: T): T {
      match this
      case Some(v) => v
      case None => default
    }
  }

  /** The outcome of a call that either returns a value or throws an error. */
  datatype Result<+T, +E> = Ok(value: T) | Err(error: E)
}
