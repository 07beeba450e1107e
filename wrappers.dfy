/** Optional values: `None` stands for JavaScript's `null`/`undefined` where a handle or entry may be missing. */
module Wrappers {

  datatype Option<+T> = None | Some(value: T) {

    /** The value when there is one, else `default`. */
    function GetOr(default: T): T {
      match this
      case Some(v) => v
      case None => default
    }
  }
}
