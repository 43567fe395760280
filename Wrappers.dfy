/** The optional value used for the fields the TypeScript interfaces mark with `?`. */
module Wrappers {

  datatype Option<+T> = None | Some(value: T)
  {
    /** `o ?? d`: the value when present, otherwise the default. */
    function GetOr(default: T): T
    {
      match this
      case Some(v) => v
      case None => default
    }
  }
}
