/** Optional values and results with an error message, used for JavaScript's
    `undefined` / `null` and for exceptions thrown by the modelled code. */
module Wrappers {

  datatype Option<T> = None | Some(value: T) {
    function GetOr(default: T): T {
      match this
      case Some(v) => v
      case None => default
    }
  }

  /** `Err` carries the message the JavaScript code would throw. */
  datatype Result<T> = Ok(value: T) | Err(message: string)
}
