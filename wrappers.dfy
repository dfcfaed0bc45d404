/** Small value wrappers shared by the pages. */
module Wrappers {

  /** A value that may be missing (`undefined`, an empty form field, an absent key). */
  datatype Option<+T> = None | Some(value: T)

  /**
   * A field read from untrusted storage through a `typeof` check: `Typed` when it
   * holds a value of the expected type, `Untyped` when it holds anything else
   * (a string where a number was expected, `undefined`, `null`, ...).
   */
  datatype Dyn<+T> = Typed(value: T) | Untyped

  /** The number a `typeof x === 'number' ? x : 0` guard yields. */
  function NumberOr0(x: Dyn<real>): (r: real)
    ensures x.Untyped? ==> r == 0.0
    ensures x.Typed? ==> r == x.value
  {
    match x
    case Typed(v) => v
    case Untyped => 0.0
  }

  function Max(a: real, b: real): (r: real)
    ensures r >= a && r >= b
    ensures r == a || r == b
  {
    if a >= b then a else b
  }
}
