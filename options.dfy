/** An optional value: Python's `None` or a present value. */
module Options {

  datatype Option<+T> = None | Some(value: T) {

    /** The value, or `default` when None (Python's `d.get(key, default)`). */
    function GetOr(default: T): T {
      match this
      case Some(v) => v
      case None => default
    }
  }
}
