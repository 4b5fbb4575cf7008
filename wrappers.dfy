/** Option and Result, the two failure-carrying shapes the rest of the model uses. */
module Wrappers {

  /** An optional value: JavaScript's `undefined`/`null` become None. */
  datatype Option<+T> = None | Some(value: T) {
    function GetOr(default: T): T {
      match this
      case Some(v) => v
      case None => default
    }
  }

  /** The outcome of a request handler: a value, or an error response. */
  datatype Result<+T, +E> = Ok(value: T) | Err(error: E)
}
