/** Java's nullable references, modelled as an explicit Option. */
module Wrappers {

  datatype Option<+T> = None | Some(value: T) {

    /** The value, or the given default for None (a null-to-default coalesce). */
    function GetOr(default: T): T {
      match this
      case Some(v) => v
      case None => default
    }
  }
}
