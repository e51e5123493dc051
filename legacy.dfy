/**
 * The older `get_tz` at the repository root: no normalisation, a hard error
 * outside [-180, 180], one tier of national polygons, then a 25-band table
 * kept as two parallel lists, `lon_bounds` and `lon_offsets`.
 */
module LegacyGeoTz {
  import opened Options
  import opened Scan
  import opened Intervals
  import opened Tiers
  import GeoTz

  /** `lon_offsets`: the offset of band `idx` is `lon_offsets[idx]`. */
  const LonOffsets: seq<real> := [
    -11.0, -10.0, -9.0, -8.0, -7.0, -6.0, -5.0, -4.0, -3.0, -2.0, -1.0,
      0.0,   1.0,  2.0,  3.0,  4.0,  5.0,  6.0,  7.0,  8.0,  9.0, 10.0,
     11.0,  12.0, -12.0]

  /** `lon_bounds`: band `idx` is `(minl, maxl]`. */
  const LonBounds: seq<(real, real)> := [
    (-172.5, -157.5),
    (-157.5, -142.5),
    (-142.5, -127.5),
    (-127.5, -112.5),
    (-112.5,  -97.5),
    ( -97.5,  -82.5),
    ( -82.5,  -67.5),
    ( -67.5,  -52.5),
    ( -52.5,  -37.5),
    ( -37.5,  -22.5),
    ( -22.5,   -7.5),
    (  -7.5,    7.5),
    (   7.5,   22.5),
    (  22.5,   37.5),
    (  37.5,   52.5),
    (  52.5,   67.5),
    (  67.5,   82.5),
    (  82.5,   97.5),
    (  97.5,  112.5),
    ( 112.5,  127.5),
    ( 127.5,  142.5),
    ( 142.5,  157.5),
    ( 157.5,  172.5),
    ( 172.5,  180.0),
    ( 180.0,  187.5)]

  function SpanHit(lon: real): ((real, real)) -> bool {
    (s: (real, real)) => InSpan(s, lon)
  }

  /**
   * The band that holds a longitude of (-172.5, 187.5]: the bands follow one
   * another without gaps, and there is an offset for each of them.
   */
  ghost function BandIndex(x: real): (i: nat)
    requires -172.5 < x <= 187.5
    ensures i < |LonBounds| && i < |LonOffsets| && InSpan(LonBounds[i], x)
  {
    assert Contiguous(LonBounds);
    SpanIndex(LonBounds, x)
  }

  /** No longitude lies in two bands. */
  lemma BandUnique(x: real, i: nat, j: nat)
    requires i < |LonBounds| && j < |LonBounds|
    requires InSpan(LonBounds[i], x) && InSpan(LonBounds[j], x)
    ensures i == j
  {
    assert Contiguous(LonBounds);
    SpanUnique(LonBounds, x, i, j);
  }

  /** Only longitudes of (-172.5, 187.5] lie in a band: [-180, -172.5] lies in none. */
  lemma BandCoverage(x: real, i: nat)
    requires i < |LonBounds| && InSpan(LonBounds[i], x)
    ensures -172.5 < x <= 187.5
  {
    assert Contiguous(LonBounds);
    SpanWithin(LonBounds, x, i);
  }

  /** Bands 0 to 23 are 15 degrees to the hour: the offset is the hour of the band's centre. */
  lemma FifteenDegreesPerHour()
    ensures forall i :: 0 <= i < 24 ==> LonOffsets[i] == (LonBounds[i].0 + 7.5) / 15.0
  {
  }

  /**
   * The newer single table is this version's two lists zipped row by row,
   * plus one more row, (-180, -172.5] at -12 hours, that closes the gap.
   */
  lemma NewerTableExtendsThis()
    ensures |GeoTz.LonBounds| == |LonBounds| + 1
    ensures forall i :: 0 <= i < |LonBounds| ==>
      GeoTz.LonBounds[i] == GeoTz.Band(LonBounds[i].0, LonBounds[i].1, LonOffsets[i])
    ensures GeoTz.LonBounds[|LonBounds|] == GeoTz.Band(-180.0, -172.5, -12.0)
  {
  }

  /** One offset record of `tzdict`, keyed as this version keys it. */
  datatype Offsets = Offsets(lst: real, ldt: real, gmt: real)

  /** `dict([(n, dict(lst = g, ldt = d, gmt = r)) for n, g, d, r in rows])`: a record for exactly the names of the table. */
  function TzDict(rows: seq<TzRow>): (d: map<string, Offsets>)
    ensures forall i :: 0 <= i < |rows| ==> rows[i].name in d
    ensures forall k :: k in d ==> exists i :: 0 <= i < |rows| && rows[i].name == k
  {
    var ps := seq(|rows|, i requires 0 <= i < |rows| =>
      (rows[i].name, Offsets(lst := rows[i].janOffset, ldt := rows[i].julOffset, gmt := rows[i].rawOffset)));
    assert forall i :: 0 <= i < |rows| ==> ps[i].0 == rows[i].name;
    FromPairs(ps)
  }

  /** The record of a name comes from its last row: lst from the second column, ldt from the third, gmt from the fourth. */
  lemma TzDictRecord(rows: seq<TzRow>, i: nat)
    requires i < |rows|
    requires forall j :: i < j < |rows| ==> rows[j].name != rows[i].name
    ensures rows[i].name in TzDict(rows)
    ensures TzDict(rows)[rows[i].name] == Offsets(lst := rows[i].janOffset, ldt := rows[i].julOffset, gmt := rows[i].rawOffset)
  {
    var ps := seq(|rows|, j requires 0 <= j < |rows| =>
      (rows[j].name, Offsets(lst := rows[j].janOffset, ldt := rows[j].julOffset, gmt := rows[j].rawOffset)));
    FromPairsLastWins(ps, i);
  }

  /** Everything `get_tz` reads but never writes. */
  datatype Tables<G> = Tables(feats: seq<Entry<string, G>>, tzdict: map<string, Offsets>)

  /**
   * The module-level loading of lines 16 and 86, from already-parsed inputs:
   * every tier entry comes from a raw pair with a geometry, and `tzdict` has a
   * record for exactly the names of the table.
   */
  function Load<G>(raw: seq<RawEntry<string, G>>, rows: seq<TzRow>): (t: Tables<G>)
    ensures forall i :: 0 <= i < |t.feats| ==> Kept(raw, t.feats[i])
    ensures forall i :: 0 <= i < |rows| ==> rows[i].name in t.tzdict
    ensures forall k :: k in t.tzdict ==> exists i :: 0 <= i < |rows| && rows[i].name == k
  {
    BuildTierKept(raw);
    Tables(BuildTier(raw), TzDict(rows))
  }

  /** Where a result came from: a national key or `lonbound(minl,maxl)`. */
  datatype Source = National(key: string) | LonBound(minl: real, maxl: real)

  datatype Error =
    | KeyError(key: string)  // a key with no row in `tzdict`
    | LonRangeError          // the `raise` of the range guard

  /** What a call does: return a pair, fall off the end (Python's None), or raise. */
  datatype Outcome = Tz(source: Source, offsets: Offsets) | NoResult | Raised(error: Error)

  /**
   * The older `get_tz` as one expression, branch for branch. Every answer comes
   * from the tables: a key is returned with its own `tzdict` record, a KeyError
   * names a key that has none, and a band result is the band holding `lon`
   * itself with its `lon_offsets` entry under all three keys.
   */
  function Resolve<G>(t: Tables<G>, contains: (G, Point) -> bool, lon: real, lat: real): (r: Outcome)
    ensures r.Tz? && r.source.National? ==>
      r.source.key in t.tzdict && r.offsets == t.tzdict[r.source.key] &&
      exists i :: 0 <= i < |t.feats| && t.feats[i].key == r.source.key
    ensures r.Raised? && r.error.KeyError? ==>
      r.error.key !in t.tzdict && exists i :: 0 <= i < |t.feats| && t.feats[i].key == r.error.key
    ensures r.Tz? && r.source.LonBound? ==>
      exists i :: 0 <= i < |LonBounds| && InSpan(LonBounds[i], lon) &&
        r.source == LonBound(LonBounds[i].0, LonBounds[i].1) &&
        r.offsets == Offsets(LonOffsets[i], LonOffsets[i], LonOffsets[i])
  {
    if lon > 180.0 || lon < -180.0 then Raised(LonRangeError)
    else
      var pt := Point(lon, lat);
      match FirstIndex(t.feats, EntryHit(At(contains, pt)))
      case Some(i) =>
        var key := t.feats[i].key;
        if key in t.tzdict then Tz(National(key), t.tzdict[key]) else Raised(KeyError(key))
      case None =>
        match FirstIndex(LonBounds, SpanHit(lon))
        case Some(idx) => Tz(LonBound(LonBounds[idx].0, LonBounds[idx].1), Offsets(LonOffsets[idx], LonOffsets[idx], LonOffsets[idx]))
        case None => NoResult
  }

  /** The range guard raises exactly for longitudes outside [-180, 180], before any lookup. */
  lemma RangeErrorIff<G>(t: Tables<G>, contains: (G, Point) -> bool, lon: real, lat: real)
    ensures Resolve(t, contains, lon, lat) == Raised(LonRangeError) <==> lon > 180.0 || lon < -180.0
  {
  }

  /** The second and third script checks: 360-79.92 and -181.92 are refused. */
  lemma OutOfRangeChecks<G>(t: Tables<G>, contains: (G, Point) -> bool)
    ensures Resolve(t, contains, 360.0 - 79.92, 37.75) == Raised(LonRangeError)
    ensures Resolve(t, contains, -181.92, 37.75) == Raised(LonRangeError)
  {
  }

  /**
   * For a longitude in range, the first polygon holding `(lon, lat)`, the point
   * as given, decides: its key and its `tzdict` record, or a KeyError.
   */
  lemma NationalWins<G>(t: Tables<G>, contains: (G, Point) -> bool, lon: real, lat: real, i: nat)
    requires -180.0 <= lon <= 180.0
    requires i < |t.feats| && contains(t.feats[i].geom, Point(lon, lat))
    requires forall j :: 0 <= j < i ==> !contains(t.feats[j].geom, Point(lon, lat))
    ensures var key := t.feats[i].key;
      Resolve(t, contains, lon, lat) ==
        if key in t.tzdict then Tz(National(key), t.tzdict[key]) else Raised(KeyError(key))
  {
    FirstIndexAt(t.feats, EntryHit(At(contains, Point(lon, lat))), i);
  }

  /**
   * With no polygon holding the point, the band holding `lon` itself decides,
   * with `lon_offsets` of that band under all three keys.
   */
  lemma BandFallback<G>(t: Tables<G>, contains: (G, Point) -> bool, lon: real, lat: real, i: nat)
    requires -180.0 <= lon <= 180.0
    requires forall j :: 0 <= j < |t.feats| ==> !contains(t.feats[j].geom, Point(lon, lat))
    requires i < |LonBounds| && InSpan(LonBounds[i], lon)
    ensures Resolve(t, contains, lon, lat) ==
      Tz(LonBound(LonBounds[i].0, LonBounds[i].1), Offsets(LonOffsets[i], LonOffsets[i], LonOffsets[i]))
  {
    var pt := Point(lon, lat);
    assert forall j :: 0 <= j < |t.feats| ==> !EntryHit(At(contains, pt))(t.feats[j]);
    assert FirstIndex(t.feats, EntryHit(At(contains, pt))) == None;
    assert SpanHit(lon)(LonBounds[i]);
    var k := FirstIndex(LonBounds, SpanHit(lon));
    assert k.Some?;
    BandUnique(lon, i, k.value);
  }

  /**
   * The coverage gap: the call returns nothing exactly when `lon` lies in
   * [-180, -172.5] and no polygon holds the point.
   */
  lemma NoResultIff<G>(t: Tables<G>, contains: (G, Point) -> bool, lon: real, lat: real)
    ensures Resolve(t, contains, lon, lat) == NoResult <==>
      -180.0 <= lon <= -172.5 && forall j :: 0 <= j < |t.feats| ==> !contains(t.feats[j].geom, Point(lon, lat))
  {
    var pt := Point(lon, lat);
    if -180.0 <= lon <= 180.0 {
      var hit := EntryHit(At(contains, pt));
      if FirstIndex(t.feats, hit).None? {
        assert forall j :: 0 <= j < |t.feats| ==> !contains(t.feats[j].geom, pt) by {
          forall j | 0 <= j < |t.feats| ensures !contains(t.feats[j].geom, pt) {
            assert !hit(t.feats[j]);
          }
        }
        var k := FirstIndex(LonBounds, SpanHit(lon));
        if lon > -172.5 {
          var i := BandIndex(lon);
          assert SpanHit(lon)(LonBounds[i]);
          assert k.Some?;
        } else if k.Some? {
          BandCoverage(lon, k.value);
        }
      } else {
        var i := FirstIndex(t.feats, hit).value;
        assert contains(t.feats[i].geom, pt);
      }
    }
  }

  /** A point of the gap that no polygon holds, such as (-175, 0) in open ocean, gets no answer at all. */
  lemma CoverageGapExample<G>(tzdict: map<string, Offsets>, contains: (G, Point) -> bool)
    ensures Resolve(Tables([], tzdict), contains, -175.0, 0.0) == NoResult
  {
    NoResultIff(Tables([], tzdict), contains, -175.0, 0.0);
  }

  /** Off the US coast with no polygon hit, -130 falls in band (-142.5, -127.5] at -9 hours. */
  lemma OffUsCoastBand<G>(t: Tables<G>, contains: (G, Point) -> bool)
    requires forall j :: 0 <= j < |t.feats| ==> !contains(t.feats[j].geom, Point(-130.0, 26.27))
    ensures Resolve(t, contains, -130.0, 26.27) == Tz(LonBound(-142.5, -127.5), Offsets(-9.0, -9.0, -9.0))
  {
    BandFallback(t, contains, -130.0, 26.27, 2);
  }

  /**
   * On loaded tables a dropped pair never wins: the answer for an in-range
   * longitude is decided by the first raw pair whose geometry holds the point,
   * and when there is none the polygon tier has no say at all.
   */
  lemma LoadWinner<G>(raw: seq<RawEntry<string, G>>, rows: seq<TzRow>,
                      contains: (G, Point) -> bool, lon: real, lat: real)
    requires -180.0 <= lon <= 180.0
    ensures var t := Load(raw, rows);
      match FirstIndex(raw, RawHit(At(contains, Point(lon, lat))))
      case Some(j) =>
        var key := raw[j].key;
        Resolve(t, contains, lon, lat) ==
          if key in t.tzdict then Tz(National(key), t.tzdict[key]) else Raised(KeyError(key))
      case None =>
        Resolve(t, contains, lon, lat) == Resolve(Tables([], t.tzdict), contains, lon, lat)
  {
    BuildTierFirstHit(raw, At(contains, Point(lon, lat)));
  }

  /** The band loop `for idx, (minl, maxl) in enumerate(lon_bounds)`: the index it returns at. */
  method ScanBands(bounds: seq<(real, real)>, lon: real) returns (r: Option<nat>)
    ensures r == FirstIndex(bounds, SpanHit(lon))
  {
    var idx := 0;
    while idx < |bounds|
      invariant 0 <= idx <= |bounds|
      invariant forall j :: 0 <= j < idx ==> !InSpan(bounds[j], lon)
    {
      var minl, maxl := bounds[idx].0, bounds[idx].1;
      if lon > minl && lon <= maxl {
        FirstIndexAt(bounds, SpanHit(lon), idx);
        return Some(idx);
      }
      idx := idx + 1;
    }
    return None;
  }

  /** The older `get_tz`: range guard, national scan, band scan, first hit wins. */
  method GetTz<G>(t: Tables<G>, contains: (G, Point) -> bool, lon: real, lat: real) returns (r: Outcome)
    ensures r == Resolve(t, contains, lon, lat)
  {
    if lon > 180.0 || lon < -180.0 {
      return Raised(LonRangeError);
    }
    var pt := Point(lon, lat);
    var hit := ScanTier(t.feats, contains, pt);
    if hit.Some? {
      var key := t.feats[hit.value].key;
      if key !in t.tzdict {
        return Raised(KeyError(key));
      }
      return Tz(National(key), t.tzdict[key]);
    }
    var idx := ScanBands(LonBounds, lon);
    if idx.Some? {
      var off := LonOffsets[idx.value];
      return Tz(LonBound(LonBounds[idx.value].0, LonBounds[idx.value].1), Offsets(lst := off, ldt := off, gmt := off));
    }
    return NoResult;
  }
}
