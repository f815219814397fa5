/** The optional value used wherever the storefront reads a field that may be
    missing (`undefined`/`null` in the original program). */
module Wrappers {
  datatype Option<+T> = None | Some(value: T) {
    /** `o || fallback` for a value that has no falsy members of its own. */
    function GetOr(fallback: T): T {
      match this
      case Some(v) => v
      case None => fallback
    }
  }
}
