/** The optional-value datatype used wherever the program returns `None`. */
module Wrappers {

  datatype Option<+T> = None | Some(value: T) {

    /** `d.get(k, default)`: the value when the key is there (even a falsy one), else the default. */
    function GetOr(default: T): (r: T)
      ensures Some? ==> r == value
      ensures None? ==> r == default
    {
      match this
      case Some(v) => v
      case None => default
    }
  }
}
