/** The optional value used throughout the model for JavaScript `undefined`,
    PHP `null` and lookups that find nothing. */
module Wrappers {

  datatype Option<+T> = None | Some(value: T) {

    /** The value, or `default` when there is none (PHP `??`, JS `||`). */
    function GetOr(default: T): T {
      match this
      case Some(v) => v
      case None => default
    }
  }
}
