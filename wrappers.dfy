/** Failure-carrying values returned by the store and the request handlers. */
module Wrappers {

  /** Python's `X | None`. */
  datatype Option<+T> = None | Some(value: T)
  {
    /** The wrapped value, or `default` when there is none. */
    function GetOr(default: T): T
    {
      match this
      case Some(v) => v
      case None => default
    }
  }

  /** A handler's normal return value, or the failure it raises. */
  datatype Result<+T, +E> = Ok(value: T) | Err(error: E)
}
