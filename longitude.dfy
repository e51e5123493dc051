/**
 * Longitude normalisation of the newer `get_tz`: Python's float `lon % 360.`
 * followed by a shift of the upper half-turn down by 360, on exact reals.
 */
module Longitude {

  /** `x` is a whole number. */
  predicate IsInt(x: real) {
    x.Floor as real == x
  }

  /** `a` and `b` name the same meridian: they differ by a whole number of turns. */
  predicate SameMeridian(a: real, b: real) {
    IsInt((a - b) / 360.0)
  }

  lemma FloorIs(x: real, n: int)
    requires n as real <= x < n as real + 1.0
    ensures x.Floor == n
  {
  }

  /** Python's `lon % 360.`: a floored modulo, so the result takes the sign of the divisor. */
  function PyMod360(lon: real): (r: real)
    ensures 0.0 <= r < 360.0
    ensures SameMeridian(lon, r)
  {
    var q := (lon / 360.0).Floor;
    assert (lon - (lon - 360.0 * q as real)) / 360.0 == q as real;
    FloorIs(q as real, q);
    lon - 360.0 * q as real
  }

  /** The two assignments to `lon` before the range guard of `get_tz`. */
  function NormalizeLon(lon: real): (r: real)
    ensures -180.0 < r <= 180.0
    ensures SameMeridian(lon, r)
  {
    var m := PyMod360(lon);
    var q := ((lon - m) / 360.0).Floor;
    assert (lon - (m - 360.0)) / 360.0 == q as real + 1.0;
    FloorIs(q as real + 1.0, q + 1);
    if m > 180.0 then m - 360.0 else m
  }

  lemma SameMeridianSym(a: real, b: real)
    requires SameMeridian(a, b)
    ensures SameMeridian(b, a)
  {
    var p := ((a - b) / 360.0).Floor;
    assert (b - a) / 360.0 == (-p) as real;
    FloorIs((-p) as real, -p);
  }

  lemma SameMeridianTrans(a: real, b: real, c: real)
    requires SameMeridian(a, b) && SameMeridian(b, c)
    ensures SameMeridian(a, c)
  {
    var p := ((a - b) / 360.0).Floor;
    var q := ((b - c) / 360.0).Floor;
    assert (a - c) / 360.0 == (p + q) as real;
    FloorIs((p + q) as real, p + q);
  }

  /** Within one half-open turn (-180, 180] no two distinct values name the same meridian. */
  lemma SameMeridianUnique(a: real, b: real)
    requires -180.0 < a <= 180.0 && -180.0 < b <= 180.0
    requires SameMeridian(a, b)
    ensures a == b
  {
  }

  /** Every longitude names its own meridian. */
  lemma SameMeridianRefl(a: real)
    ensures SameMeridian(a, a)
  {
    FloorIs(0.0, 0);
  }

  /**
   * Reference definition of the normalised longitude: the one value in
   * (-180, 180] on the meridian of `lon`.
   */
  lemma NormalizeLonUnique(lon: real, y: real)
    requires -180.0 < y <= 180.0 && SameMeridian(lon, y)
    ensures NormalizeLon(lon) == y
  {
    SameMeridianSym(lon, NormalizeLon(lon));
    SameMeridianTrans(NormalizeLon(lon), lon, y);
    SameMeridianUnique(NormalizeLon(lon), y);
  }

  /** Adding or removing whole turns does not change the normalised longitude. */
  lemma NormalizeLonPeriodic(lon: real, k: int)
    ensures NormalizeLon(lon + 360.0 * k as real) == NormalizeLon(lon)
  {
    var x := lon + 360.0 * k as real;
    assert (x - lon) / 360.0 == k as real;
    FloorIs(k as real, k);
    SameMeridianTrans(x, lon, NormalizeLon(lon));
    NormalizeLonUnique(x, NormalizeLon(lon));
  }

  /** A longitude already in (-180, 180] is left as it is. */
  lemma NormalizeLonIdentity(lon: real)
    requires -180.0 < lon <= 180.0
    ensures NormalizeLon(lon) == lon
  {
    SameMeridianRefl(lon);
    NormalizeLonUnique(lon, lon);
  }

  /** Normalising twice is normalising once. */
  lemma NormalizeLonIdempotent(lon: real)
    ensures NormalizeLon(NormalizeLon(lon)) == NormalizeLon(lon)
  {
    NormalizeLonIdentity(NormalizeLon(lon));
  }

  /** The one longitude of [-180, 180] that moves: -180 becomes 180. */
  lemma NormalizeLonMinus180()
    ensures NormalizeLon(-180.0) == 180.0
  {
    FloorIs(-1.0, -1);
    NormalizeLonUnique(-180.0, 180.0);
  }
}
