/** The `Optional` values the game's parsers and helpers return. */
module Wrappers {

  datatype Option<+T> = None | Some(value: T) {

    /** `Optional.orElse`: the wrapped value, or `default` when there is none. */
    function GetOr(default: T): (r: T)
      ensures Some? ==> r == value
      ensures None? ==> r == default
    {
      match this
      case Some(v) => v
      case None => default
    }
  }
}
