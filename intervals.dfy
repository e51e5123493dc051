/**
 * Tables of half-open longitude bands `(minl, maxl]`, read the way the band
 * loops of both versions read them: `lon > minl and lon <= maxl`.
 */
module Intervals {

  /** `x` lies in the band `(s.0, s.1]`. */
  predicate InSpan(s: (real, real), x: real) {
    s.0 < x <= s.1
  }

  /** Every band is non-empty and each band starts where the previous one ends. */
  ghost predicate Contiguous(ss: seq<(real, real)>) {
    && (forall i :: 0 <= i < |ss| ==> ss[i].0 < ss[i].1)
    && (forall i :: 0 < i < |ss| ==> ss[i - 1].1 == ss[i].0)
  }

  /** The band of a contiguous table that holds `x`, for any `x` between its outer bounds. */
  ghost function SpanIndex(ss: seq<(real, real)>, x: real): (i: nat)
    requires Contiguous(ss) && |ss| > 0
    requires ss[0].0 < x <= ss[|ss| - 1].1
    ensures i < |ss| && InSpan(ss[i], x)
    decreases |ss|
  {
    if x <= ss[0].1 then 0 else 1 + SpanIndex(ss[1..], x)
  }

  /** In a contiguous table a later band starts no earlier than an earlier one ends. */
  lemma {:induction false} ContiguousOrdered(ss: seq<(real, real)>, i: nat, j: nat)
    requires Contiguous(ss) && i < j < |ss|
    ensures ss[i].1 <= ss[j].0
    decreases j - i
  {
    if i + 1 < j {
      ContiguousOrdered(ss, i + 1, j);
    }
  }

  /** No point lies in two bands of a contiguous table. */
  lemma SpanUnique(ss: seq<(real, real)>, x: real, i: nat, j: nat)
    requires Contiguous(ss) && i < |ss| && j < |ss|
    requires InSpan(ss[i], x) && InSpan(ss[j], x)
    ensures i == j
  {
    if i < j {
      ContiguousOrdered(ss, i, j);
    } else if j < i {
      ContiguousOrdered(ss, j, i);
    }
  }

  /** A point in some band of a contiguous table lies between its outer bounds. */
  lemma SpanWithin(ss: seq<(real, real)>, x: real, i: nat)
    requires Contiguous(ss) && i < |ss| && InSpan(ss[i], x)
    ensures ss[0].0 < x <= ss[|ss| - 1].1
  {
    if 0 < i {
      ContiguousOrdered(ss, 0, i);
    }
    if i < |ss| - 1 {
      ContiguousOrdered(ss, i, |ss| - 1);
    }
  }
}
