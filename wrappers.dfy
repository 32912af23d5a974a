/** The optional value shared by both sides: an HTTP header that may be
    absent, a persisted key that may be missing, a JSON field that may be
    left out. */
module Wrappers {

  datatype Option<+T> = None | Some(value: T) {

    /** The carried value, or `default` when there is none. */
    function GetOr(default: T): T {
      match this
      case Some(v) => v
      case None => default
    }
  }
}
