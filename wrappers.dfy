/** Kotlin's nullable types (`T?`), modelled as an option. */
module Wrappers {

  datatype Option<+T> = None | Some(value: T)

  /** Kotlin's elvis operator `x ?: default`. */
  function GetOrElse<T>(x: Option<T>, default: T): (r: T)
    ensures x.Some? ==> r == x.value
    ensures x.None? ==> r == default
  {
    match x
    case Some(v) => v
    case None => default
  }
}
