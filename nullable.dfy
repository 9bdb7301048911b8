/** Java's nullable references: `None` stands for `null`. */
module Nullable {

  datatype Option<+T> = None | Some(value: T)
  {
    /** The stored value, or `default` for `null` (the `x != null ? x : default` idiom). */
    function GetOr(default: T): (r: T)
      ensures Some? ==> r == value
      ensures None? ==> r == default
    {
      match this
      case Some(v) => v
      case None => default
    }
  }
}
