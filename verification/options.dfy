/** Optional values: a threshold left unset or explicitly null, a missing `pop`,
    a missing key of the historical record. */
module Options {
  datatype Option<+T> = None | Some(value: T) {
    function GetOr(default: T): (r: T)
      ensures Some? ==> r == value
      ensures None? ==> r == default
    {
      match this
      case Some(v) => v
      case None => default
    }
  }
}
