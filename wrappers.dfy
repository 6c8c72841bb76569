/** Option and Result, used for the source's `undefined`/`null` values and for thrown errors. */
module Wrappers {

  datatype Option<+T> = None | Some(value: T) {
    function GetOr(default: T): T {
      match this
      case Some(v) => v
      case None => default
    }
  }

  /** A computation that either produced a value or threw an error carrying a message. */
  datatype Result<+T> = Ok(value: T) | Err(message: string)
}
