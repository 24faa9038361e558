/** Outcome types for the values that come back from calls the model does not
    look inside: a store query, an HTTP fetch, a JSON decode. */
module Wrappers {

  datatype Option<+T> = None | Some(value: T) {
    function GetOr(default: T): T {
      match this
      case Some(v) => v
      case None => default
    }
  }

  /** `Err` carries the message of the error the call raised. */
  datatype Result<+T> = Ok(value: T) | Err(message: string)
}
