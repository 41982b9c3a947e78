/**
 * An optional value, where a JavaScript `null`, `undefined` or missing field is
 * `None`; and the outcome of a step that may throw.
 */
module Options {

  datatype Option<+T> = None | Some(value: T) {

    /** The value, or `default` when there is none (`x || default` for list fields). */
    function GetOr(default: T): (r: T)
      ensures Some? ==> r == value
      ensures None? ==> r == default
    {
      match this
      case Some(v) => v
      case None => default
    }
  }

  /** The result of a step that calls `JSON.parse`: its value, or the exception it threw. */
  datatype Result<+T> = Ok(value: T) | Thrown
}
