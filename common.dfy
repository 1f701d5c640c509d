/** Small shared datatypes. */
module Common {

  /** A value that may be absent (a Go nil pointer or an empty result). */
  datatype Option<+T> = None | Some(value: T) {
    function GetOr(default: T): T {
      match this
      case Some(v) => v
      case None => default
    }
  }
}
