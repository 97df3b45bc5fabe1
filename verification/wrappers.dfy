/** Optional values and results with an error case, used throughout the model. */
module Wrappers {

  /** `None` stands for JavaScript's `undefined` wherever a property may be missing. */
  datatype Option<+T> = None | Some(value: T) {

    /** The value, or `default` when None (a destructuring default). */
    function GetOr(default: T): T {
      match this
      case Some(v) => v
      case None => default
    }
  }

  /** A computation that either yields a value or throws an error. */
  datatype Result<+R, +E> = Success(value: R) | Failure(error: E)
}
