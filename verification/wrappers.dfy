/** Optional values and throwing outcomes, the two shapes the Swift code uses for absence and errors. */
module Wrappers {

  /** Swift's `T?`. */
  datatype Option<+T> = None | Some(value: T) {

    /** The wrapped value, or `default` when there is none (Swift's `??`). */
    function GetOr(default: T): T {
      match this
      case Some(v) => v
      case None => default
    }
  }

  /** The result of a Swift function that `throws` and returns nothing. */
  datatype Outcome<+E> = Pass | Fail(error: E)
}
