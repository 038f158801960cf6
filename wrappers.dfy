/** Option and Result, the two wrappers the rest of the model uses for Python's
    `None` and for values that may instead be a raised exception or an error. */
module Wrappers {

  datatype Option<+T> = None | Some(value: T) {

    /** The value if present, else `default` (Python's `d.get(key, default)`). */
    function GetOr(default: T): (r: T)
      ensures Some? ==> r == value
      ensures None? ==> r == default
    {
      match this
      case Some(v) => v
      case None => default
    }
  }

  datatype Result<+T, +E> = Ok(value: T) | Err(error: E)
}
