/** Small failure-compatible wrappers shared by every module. */
module Wrappers {

  /** A value that may be missing: JavaScript's `null` / `undefined`. */
  datatype Option<+T> = None | Some(value: T) {
    /** `this || fallback` for a value whose present form is always truthy. */
    function GetOr(fallback: T): T {
      match this
      case Some(v) => v
      case None => fallback
    }
  }

  /** The outcome of an operation that can throw: a value or a rejection. */
  datatype Result<+T> = Ok(value: T) | Err
}
