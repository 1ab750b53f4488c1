/** Optional values, and the two ways the source falls back to a default with
    JavaScript's `||`. */
module Options {

  datatype Option<T> = None | Some(value: T)
  {
    /** `o || d` for a value that is truthy whenever it is present (an array,
        an object, a non-empty string). */
    function Or(d: T): (r: T)
      ensures this.Some? ==> r == this.value
      ensures this.None? ==> r == d
    {
      match this
      case None => d
      case Some(v) => v
    }
  }

  /** `n || d` for a number: `0` and a missing value are both falsy. */
  function NumberOr(n: Option<real>, d: real): (r: real)
    ensures n.Some? && n.value != 0 as real ==> r == n.value
    ensures n.None? || n.value == 0 as real ==> r == d
    ensures d != 0 as real ==> r != 0 as real
  {
    if n.Some? && n.value != 0 as real then n.value else d
  }

  /** `n && n > 0`: present and positive. */
  predicate PositiveNumber(n: Option<real>) {
    n.Some? && n.value > 0 as real
  }
}
