/** The optional-value datatype used for caller options that may be left unset. */
module Wrappers {

  /** `None` stands for a key the caller did not supply. */
  datatype Option<+T> = None | Some(value: T) {

    /** The supplied value, or `default` when none was supplied. */
    function GetOr(default: T): (r: T)
      ensures Some? ==> r == value
      ensures None? ==> r == default
    {
      match this
      case Some(v) => v
      case None => default
    }
  }
}
