/** Option and Result values shared by the scoring and CRM modules. */
module Wrappers {

  /** A value that may be absent: a missing dictionary key, or Python's None. */
  datatype Option<+T> = None | Some(value: T) {
    /** The value, or `default` when absent (Python's `dict.get(key, default)`). */
    function GetOr(default: T): T {
      match this
      case Some(v) => v
      case None => default
    }
  }

  /** The outcome of an operation that may raise: `Raised` carries the exception's text. */
  datatype Result<+T> = Ok(value: T) | Raised(error: string)
}
