/** Optional values: JavaScript's `undefined`/`null` and the NaN result of a failed
    numeric conversion are both modelled as `None`. */
module Wrappers {
  datatype Option<+T> = None | Some(value: T) {
    function GetOr(default: T): T {
      match this
      case Some(v) => v
      case None => default
    }
  }
}
