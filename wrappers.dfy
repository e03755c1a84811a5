/** Optional values and results, used where the source returns `None`/`null`
    or raises. */
module Wrappers {

  datatype Option<+T> = None | Some(value: T) {
    function GetOr(default: T): T {
      match this
      case Some(v) => v
      case None => default
    }
  }

  /** The outcome of a call that may raise: `Ok` carries the value,
      `Raised` the text of the exception. */
  datatype Result<+T> = Ok(value: T) | Raised(error: string)
}
