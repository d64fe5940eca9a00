/** Optional values and throwing results, as the Swift code uses `T?` and `throws`. */
module Wrappers {

  datatype Option<+T> = None | Some(value: T) {
    /** The wrapped value, or `default` when absent (Swift's `??`). */
    function GetOr(default: T): T {
      match this
      case Some(v) => v
      case None => default
    }
  }

  /** The outcome of a Swift function marked `throws`. */
  datatype Result<+T, +E> = Success(value: T) | Failure(error: E)
}
