/** Lookups over an ordered table of rows. */
module Lookup {
  import opened Wrappers

  /**
   * The index of the first element of `s` that satisfies `p`, or None when
   * there is none: the row a `query(...).filter(p).first()` returns, with the
   * table's row order taken as the order of `s`.
   */
  function FirstWhere<T>(s: seq<T>, p: T -> bool): (r: Option<nat>)
    ensures r.Some? ==> r.value < |s| && p(s[r.value])
    ensures r.Some? ==> forall j | 0 <= j < r.value :: !p(s[j])
    ensures r.None? ==> forall j | 0 <= j < |s| :: !p(s[j])
    decreases |s|
  {
    if |s| == 0 then None
    else if p(s[0]) then Some(0)
    else
      match FirstWhere(s[1..], p)
      case None => None
      case Some(i) => Some(i + 1)
  }
}
