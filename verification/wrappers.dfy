/** Failure-compatible value types shared by every module of the model. */
module Wrappers {

  /** A value that may be absent (JavaScript `undefined`, `null` or a falsy field). */
  datatype Option<+T> = None | Some(value: T) {
    function GetOr(default: T): T {
      match this
      case Some(v) => v
      case None => default
    }
  }

  /** Either a value or the error that replaced it (a caught exception in the source). */
  datatype Result<+T, +E> = Ok(value: T) | Err(error: E)
}
