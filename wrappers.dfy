/** Values the Python source gets from its language: an optional value
    (`None`), the two exceptions the core can raise, and a result that is
    either a value or a raised exception. */
module Wrappers {

  datatype Option<+T> = None | Some(value: T) {
    /** `d.get(key, default)` once the lookup has been done. */
    function GetOr(default: T): T {
      match this
      case Some(v) => v
      case None => default
    }
  }

  /** The exceptions the modelled code can raise. */
  datatype Exception =
    | KeyError(key: string)   // a dictionary subscript with a missing key
    | ValueError              // dict.update given a sequence that is not of pairs

  /** A Python call that either returns a value or raises. */
  datatype Result<+T> = Ok(value: T) | Raised(exc: Exception)
}
