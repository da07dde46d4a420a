/** Optional values and results with an error message, used for the source's
    Optional outcomes and for the exceptions its operations throw. */
module Wrappers {

  datatype Option<+T> = None | Some(value: T) {
    /** The value, or a default when absent (Java's Optional.orElse). */
    function GetOr(default: T): T {
      match this
      case Some(v) => v
      case None => default
    }
  }

  datatype Result<+T> = Ok(value: T) | Err(error: string)
}
