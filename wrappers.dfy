/** Value wrappers shared by every component of the model. */
module Wrappers {

  /** A JavaScript value that may be `null`/`undefined`. */
  datatype Option<+T> = None | Some(value: T) {

    /** The wrapped value, or `default` when absent (the source's `x || default` and `x ?? default`). */
    function GetOr(default: T): T
    {
      match this
      case Some(v) => v
      case None => default
    }
  }

  /**
   * What a call into the hosted backend came back with: the data it returned,
   * or the message of the error it reported or threw. Every remote call of the
   * application is replaced by a parameter of this type.
   */
  datatype Outcome<+T> = Ok(data: T) | Err(message: string)
}
