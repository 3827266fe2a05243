/** The optional value used wherever the source reads something that may be
    missing: a URL query parameter, a parsed number that came out as NaN, a
    mounted DOM element or a capture that was rejected. */
module Wrappers {

  datatype Option<+T> = None | Some(value: T) {

    /** The value, or `default` when there is none. */
    function GetOr(default: T): T
    {
      match this
      case Some(v) => v
      case None => default
    }
  }
}
