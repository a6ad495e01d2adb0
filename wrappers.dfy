/** The optional value used for preferences that may be absent and for lookups that may fail. */
module Wrappers {

  datatype Option<+T> = None | Some(value: T) {

    /** The stored value, or `default` when there is none (a preference lookup with a default). */
    function GetOr(default: T): (r: T)
      ensures Some? ==> r == value
      ensures None? ==> r == default
    {
      match this
      case Some(v) => v
      case None => default
    }
  }
}
