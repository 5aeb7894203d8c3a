/** Kotlin's nullable values (`T?`) and Python's `Optional`, as a datatype. */
module Wrappers {

  datatype Option<+T> = None | Some(value: T) {

    /** Kotlin's elvis operator `x ?: default`. */
    function OrElse(default: T): T {
      match this
      case Some(v) => v
      case None => default
    }
  }
}
