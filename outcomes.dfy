/** Optional values and the success-or-error result every provider call ends in. */
module Outcomes {

  /** A value that may be missing: `undefined` (or an absent JSON member) is `None`. */
  datatype Option<+T> = None | Some(value: T) {

    /** The value, or `default` when it is missing. */
    function GetOr(default: T): T {
      match this
      case Some(v) => v
      case None => default
    }
  }

  /** The outcome of an operation that either returns a value or throws an Error with a message. */
  datatype Result<+T> = Ok(value: T) | Err(message: string)
}
