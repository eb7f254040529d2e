/** Optional values: the model's stand-in for JavaScript's `undefined` and `null`. */
module Wrappers {

  /** `None` is an absent value (a missing key, `null` or `undefined`). */
  datatype Option<+T> = None | Some(value: T) {

    /** The value if present, the fallback otherwise. */
    function GetOr(fallback: T): T
    {
      match this
      case Some(v) => v
      case None => fallback
    }
  }
}
