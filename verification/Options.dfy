/** A value that may be absent: a SQL NULL, a missing file or a missing mapping entry. */
module Options {

  datatype Option<+T> = None | Some(value: T) {

    /** The value, or a default when there is none (SQL coalesce, Python `or`). */
    function GetOr(default: T): T {
      match this
      case None => default
      case Some(v) => v
    }
  }
}
