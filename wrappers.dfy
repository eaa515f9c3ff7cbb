/** An optional value, used where the source holds `None` or a value. */
module Wrappers {

  datatype Option<T> = None | Some(value: T) {

    /** The value if there is one, `default` otherwise. */
    function GetOr(default: T): T {
      match this
      case Some(v) => v
      case None => default
    }
  }
}
