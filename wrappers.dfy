/** Swift's `Optional`, used wherever the source returns `T?`. */
module Wrappers {
  datatype Option<+T> = None | Some(value: T) {
    /** The `??` operator: the wrapped value, or `default` for `nil`. */
    function GetOr(default: T): T {
      match this
      case Some(v) => v
      case None => default
    }
  }
}
