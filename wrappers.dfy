/** An optional value and a value-or-thrown-error, shared by every module of the model. */
module Wrappers {

  /** A JavaScript value that may be `null`/`undefined`. */
  datatype Option<+T> = None | Some(value: T) {
    function GetOr(default: T): T {
      match this
      case Some(v) => v
      case None => default
    }
  }

  /** The outcome of an operation that may `throw`. */
  datatype Result<+T, +E> = Ok(value: T) | Err(error: E)
}
