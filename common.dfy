/** Small value wrappers shared by the modules of this model. */
module Common {

  /** A JavaScript value that may be `null`/`undefined`. */
  datatype Option<T> = None | Some(value: T) {
    function GetOr(default: T): T {
      match this
      case Some(v) => v
      case None => default
    }
  }

  /** The outcome of a promise: its resolved value, or the message of the error it rejects with. */
  datatype Result<T> = Ok(value: T) | Err(message: string)
}
