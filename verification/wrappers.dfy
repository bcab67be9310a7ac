/** Optional values and results, shared by every module of the model.
    `None` doubles as JavaScript's `undefined`/`null` wherever a field may be missing. */
module Wrappers {

  datatype Option<+T> = None | Some(value: T) {

    /** The wrapped value, or `default` when there is none. */
    function GetOr(default: T): T {
      match this
      case Some(v) => v
      case None => default
    }
  }

  /** The settled outcome of a promise: resolved with a value or rejected with a reason. */
  datatype Result<+T, +E> = Ok(value: T) | Err(error: E)
}
