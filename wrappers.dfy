/** The optional values that Kotlin writes as nullable types (`T?`). */
module Wrappers {

  datatype Option<+T> = None | Some(value: T)

  /** Kotlin's elvis operator `x ?: fallback`. */
  function OrElse<T>(x: Option<T>, fallback: T): (r: T)
    ensures x.Some? ==> r == x.value
    ensures x.None? ==> r == fallback
  {
    match x
    case Some(v) => v
    case None => fallback
  }
}
