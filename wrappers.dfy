/** Optional values and success-or-exception results shared by the modules of the model. */
module Wrappers {

  /** A value that may be absent: JavaScript's `undefined`/`null` versus a present value. */
  datatype Option<+T> = None | Some(value: T) {
    function GetOr(default: T): T {
      match this
      case Some(v) => v
      case None => default
    }
  }

  /** The outcome of an asynchronous call: it resolves with a value or rejects with a thrown value. */
  datatype Result<+T, +E> = Ok(value: T) | Err(error: E)
}
