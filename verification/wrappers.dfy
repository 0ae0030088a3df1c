/** Optional values, used for the nullable configuration records of the settings tree. */
module Wrappers {

  /** `None` stands for the source's `null` / `undefined`. */
  datatype Option<+T> = None | Some(value: T)
  {
    /** Returns the encapsulated value, or `default` when there is none. */
    function GetOr(default: T): T
    {
      match this
      case Some(v) => v
      case None => default
    }
  }

  /** Either a value or the error that stopped the computation. */
  datatype Result<+T, +E> = Success(value: T) | Failure(error: E)
}
