/**
 * First-match search in stored order: what every `for ... : if ...: return`
 * loop of `get_tz` computes, whether over a polygon tier or over the band table.
 */
module Scan {
  import opened Options

  /** The index of the first element of `s` that satisfies `p`, or None when no element does. */
  function FirstIndex<T>(s: seq<T>, p: T -> bool): (r: Option<nat>)
    ensures r.Some? ==> r.value < |s| && p(s[r.value])
    ensures r.Some? ==> forall j :: 0 <= j < r.value ==> !p(s[j])
    ensures r.None? <==> forall j :: 0 <= j < |s| ==> !p(s[j])
  {
    if |s| == 0 then None
    else if p(s[0]) then Some(0)
    else match FirstIndex(s[1..], p)
      case None => None
      case Some(k) => Some(k + 1)
  }

  /** The index one further along, as seen from the whole sequence when the search started at its tail. */
  function Shift(r: Option<nat>): Option<nat> {
    match r
    case None => None
    case Some(k) => Some(k + 1)
  }

  /** An element that does not match is skipped. */
  lemma FirstIndexSkip<T>(s: seq<T>, p: T -> bool)
    requires |s| > 0 && !p(s[0])
    ensures FirstIndex(s, p) == Shift(FirstIndex(s[1..], p))
  {
  }

  /** The first hit found by a loop that has checked every earlier element. */
  lemma FirstIndexAt<T>(s: seq<T>, p: T -> bool, i: nat)
    requires i < |s| && p(s[i])
    requires forall j :: 0 <= j < i ==> !p(s[j])
    ensures FirstIndex(s, p) == Some(i)
  {
  }
}
