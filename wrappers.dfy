/** Absent values and the outcome of one network call. */
module Wrappers {

  /** A value that may be missing (`undefined` or `null` in the source). */
  datatype Option<+T> = None | Some(value: T) {

    /** The `??` operator: the value when present, otherwise the default. */
    function GetOr(default: T): T
    {
      match this
      case Some(v) => v
      case None => default
    }
  }

  /** How an awaited API call ended, as the page that awaited it sees it:
      the response value, or the message of the error it threw. */
  datatype Result<+T> = Ok(value: T) | Err(message: string)
}
