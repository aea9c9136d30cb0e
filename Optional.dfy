/** A value that JavaScript may leave `undefined`: an optional field of a stored
    record, a form value the user did not fill in, a setting that is not set. */
module Optional {

  datatype Option<+T> = None | Some(value: T) {

    /** The value, or `default` when absent (JavaScript's `x ?? default`). */
    function GetOr(default: T): T {
      match this
      case Some(v) => v
      case None => default
    }
  }
}
