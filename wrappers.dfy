/** Optional values and error returns shared by the modules of the model. */
module Wrappers {

  /** A value that may be absent, as a key missing from a Python dict. */
  datatype Option<+T> = None | Some(value: T) {
    function GetOr(default: T): T {
      match this
      case Some(v) => v
      case None => default
    }
  }

  /** The outcome of an operation whose Python original can raise. */
  datatype Result<+T> = Ok(value: T) | Err(error: string)
}
