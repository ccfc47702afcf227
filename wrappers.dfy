/** Optional values and error-or-value results, used wherever the source returns
    `undefined`/`null` or stops with an alert. */
module Wrappers {

  datatype Option<T> = None | Some(value: T) {
    /** The `x || fallback` idiom for a value that may be absent. */
    function GetOr(default: T): T {
      match this
      case Some(v) => v
      case None => default
    }
  }

  datatype Result<T, E> = Ok(value: T) | Err(error: E)
}
