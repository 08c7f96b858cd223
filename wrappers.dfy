/** Optional values and fallible results shared by the other modules. */
module Wrappers {

  /** A JavaScript value that may be `undefined` (None) or present (Some). */
  datatype Option<+T> = None | Some(value: T)
  {
    /** The present value, or `default` when there is none. */
    function GetOr(default: T): T
    {
      match this
      case Some(v) => v
      case None => default
    }
  }

  /** Either a value, or the message of the error the source throws. */
  datatype Result<+T, +E> = Success(value: T) | Failure(error: E)
}
