// Option and Result values shared by every module of the model.
module Wrappers {
  /** A value that may be absent (Python `None`, JavaScript `null`/`undefined`). */
  datatype Option<T> = None | Some(value: T) {
    function GetOr(default: T): (r: T)
      ensures Some? ==> r == value
      ensures None? ==> r == default
    {
      if Some? then value else default
    }
  }

  /** The outcome of an operation that can fail with an error message. */
  datatype Result<T> = Ok(value: T) | Err(error: string)
}
