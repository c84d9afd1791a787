/** Option and Result values shared by every module of the model. */
module Wrappers {

  /** A value that may be missing (JavaScript `null`/`undefined`, Python `None`). */
  datatype Option<+T> = None | Some(value: T) {
    function GetOr(default: T): T {
      match this
      case Some(v) => v
      case None => default
    }
  }

  /** The outcome of a call that either returns a value or raises/rejects. */
  datatype Result<+T, +E> = Ok(value: T) | Err(error: E)
}
