/** A value that may be absent: JavaScript's `undefined` for a missing property or argument. */
module Optional {

  datatype Option<+T> = None | Some(value: T) {

    /** Returns the carried value, or `default` when absent. */
    function GetOr(default: T): T {
      match this
      case Some(v) => v
      case None => default
    }
  }
}
