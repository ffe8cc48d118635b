/** Optional values and results with an error, as used throughout the model. */
module Wrappers {

  /** `None` stands for a key that is absent (or `null`) in a decoded payload. */
  datatype Option<+T> = None | Some(value: T) {
    function GetOr(default: T): T {
      match this
      case Some(v) => v
      case None => default
    }
  }

  /** A value or the error that replaced it (a `WP_Error` in the plugin). */
  datatype Result<+R, +E> = Success(value: R) | Failure(error: E)
}
