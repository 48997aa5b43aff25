/** Optional values and the outcome of a call into a collaborator that may fail. */
module Wrappers {

  datatype Option<+T> = None | Some(value: T) {
    /** The value, or `default` when absent (Python's `dict.get(key, default)`). */
    function GetOr(default: T): T {
      match this
      case Some(v) => v
      case None => default
    }
  }

  /** A collaborator call either returns a value or raises; what it raised is never inspected. */
  datatype Result<+T> = Ok(value: T) | Err
}
