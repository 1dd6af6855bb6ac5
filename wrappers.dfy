/** Failure-carrying values shared by the whole model. */
module Wrappers {

  /** A value that may be absent (Python `None`, or a missing dictionary key). */
  datatype Option<+T> = None | Some(value: T) {
    function GetOr(default: T): T {
      match this
      case Some(v) => v
      case None => default
    }
  }

  /**
   * What a Python call produced: either it returned a value, or it raised an
   * exception whose `str(e)` is `error`.
   */
  datatype Outcome<+T> = Returned(value: T) | Raised(error: string)
}
