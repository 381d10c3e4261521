/** The optional-value datatype used for lookups that may find nothing
    (Python's `None`) and for decoders that may fail (a raised KeyError). */
module Wrappers {

  datatype Option<+T> = None | Some(value: T) {

    /** The wrapped value, or `default` when there is none: Python's `d.get(k, default)`. */
    function GetOr(default: T): T {
      match this
      case Some(v) => v
      case None => default
    }
  }
}
