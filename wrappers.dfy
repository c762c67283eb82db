/** Optional values, used for Go's (value, error) pairs, JSON fields tagged
    `omitempty`, and TypeScript values that may be `null`. */
module Wrappers {

  datatype Option<+T> = None | Some(value: T) {
    function GetOr(default: T): T {
      match this
      case Some(v) => v
      case None => default
    }
  }
}
