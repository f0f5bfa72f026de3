/** Option and Outcome: Kotlin's nullable values and operations that may throw. */
module Wrappers {

  /** A Kotlin `T?`: `None` is `null`. */
  datatype Option<+T> = None | Some(value: T) {

    /** Kotlin's elvis operator `this ?: default`. */
    function GetOr(default: T): T
    {
      match this
      case Some(v) => v
      case None => default
    }
  }

  /** The result of a `suspend fun` that returns normally or throws. */
  datatype Outcome<+E> = Pass | Fail(error: E)
}
