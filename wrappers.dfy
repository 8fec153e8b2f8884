/** Optional values and failures, for the source's `undefined`/`null` and its caught errors. */
module Wrappers {

  datatype Option<+T> = None | Some(value: T) {
    /** The value, or `default` when absent (the `??` of the source). */
    function GetOr(default: T): T {
      match this
      case Some(v) => v
      case None => default
    }
  }

  /** The outcome of a call that either yields a value or reports an error message. */
  datatype Result<+T> = Ok(value: T) | Err(error: string)
}
