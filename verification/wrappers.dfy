/** Swift's optional values, written out as a datatype. */
module Wrappers {

  /** `T?` in Swift: either `nil` (None) or a wrapped value. */
  datatype Option<+T> = None | Some(value: T) {

    /** The nil-coalescing operator `self ?? default`. */
    function GetOr(default: T): T {
      match this
      case Some(v) => v
      case None => default
    }
  }
}
