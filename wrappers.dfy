// Small stock helper shared by every module.
module Wrappers {
  datatype Option<T> = None | Some(value: T)
  {
    /** The carried value, or `dflt` when there is none. */
    function GetOr(dflt: T): (r: T)
      ensures Some? ==> r == value
      ensures None? ==> r == dflt
    {
      match this
      case Some(v) => v
      case None => dflt
    }
  }
}
