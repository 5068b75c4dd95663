/** Values that stand for what a collaborator hands back: an optional value, a call that
    either returns or raises, and a call that either yields a value or raises. */
module Outcomes {

  /** Python's `None` or a value. */
  datatype Option<+T> = None | Some(value: T) {
    /** The value, or `default` when absent (Python's `dict.get(key, default)`). */
    function GetOr(default: T): T {
      match this
      case Some(v) => v
      case None => default
    }
  }

  /** A call whose result is not used: it returned, or it raised an exception whose
      `str()` is `message`. */
  datatype Outcome = Done | Raised(message: string)

  /** A call that returned a value or raised an exception whose `str()` is `message`. */
  datatype Result<+T> = Ok(value: T) | Err(message: string)
}
