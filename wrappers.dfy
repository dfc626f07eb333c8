/** Python's `Optional[T]`: a value or `None`. */
module Wrappers {

  datatype Option<+T> = None | Some(value: T) {

    /** The value, or `default` when this is `None`. */
    function GetOr(default: T): T {
      match this
      case Some(v) => v
      case None => default
    }
  }
}
