/** Optional values and results shared by every module of the model. */
module Wrappers {

  /** A value that may be missing: JavaScript's `undefined`/`null`, or NaN after a failed parse. */
  datatype Option<+T> = None | Some(value: T) {

    /** The value, or `default` when missing (the `x || default` idiom of the screens). */
    function GetOr(default: T): T {
      match this
      case Some(v) => v
      case None => default
    }
  }

  /** Either an accepted value or the reason it was refused. */
  datatype Result<+T, +E> = Ok(value: T) | Err(error: E)
}
