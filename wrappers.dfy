/** Optional values and outcomes shared by the whole model. */
module Wrappers {

  /** A value that may be absent: Python's `None` or a missing dictionary key. */
  datatype Option<+T> = None | Some(value: T) {
    function GetOr(default: T): T {
      match this
      case Some(v) => v
      case None => default
    }
  }

  /** The result of an operation that either returns a value or fails with a message. */
  datatype Result<+R> = Ok(value: R) | Err(error: string)
}
