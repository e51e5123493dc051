/**
 * The newer `get_tz` (package `geotz`): normalise the longitude, then look the
 * point up in the national polygons, then in the global polygons, then in the
 * longitude-band table, returning on the first hit.
 */
module GeoTz {
  import opened Options
  import opened Scan
  import opened Longitude
  import opened Intervals
  import opened Tiers

  /** A row `[minl, maxl, off]` of `lon_bounds`: the band `(minl, maxl]` and its one offset. */
  datatype Band = Band(minl: real, maxl: real, off: real)

  /** `lon_bounds`, row for row. */
  const LonBounds: seq<Band> := [
    Band(-172.5, -157.5, -11.0),
    Band(-157.5, -142.5, -10.0),
    Band(-142.5, -127.5,  -9.0),
    Band(-127.5, -112.5,  -8.0),
    Band(-112.5,  -97.5,  -7.0),
    Band( -97.5,  -82.5,  -6.0),
    Band( -82.5,  -67.5,  -5.0),
    Band( -67.5,  -52.5,  -4.0),
    Band( -52.5,  -37.5,  -3.0),
    Band( -37.5,  -22.5,  -2.0),
    Band( -22.5,   -7.5,  -1.0),
    Band(  -7.5,    7.5,   0.0),
    Band(   7.5,   22.5,   1.0),
    Band(  22.5,   37.5,   2.0),
    Band(  37.5,   52.5,   3.0),
    Band(  52.5,   67.5,   4.0),
    Band(  67.5,   82.5,   5.0),
    Band(  82.5,   97.5,   6.0),
    Band(  97.5,  112.5,   7.0),
    Band( 112.5,  127.5,   8.0),
    Band( 127.5,  142.5,   9.0),
    Band( 142.5,  157.5,  10.0),
    Band( 157.5,  172.5,  11.0),
    Band( 172.5,  180.0,  12.0),
    Band( 180.0,  187.5, -12.0),
    Band(-180.0, -172.5, -12.0)]

  /** The band test of the fallback loop: `lon > minl and lon <= maxl`. */
  predicate InBand(b: Band, lon: real) {
    InSpan((b.minl, b.maxl), lon)
  }

  function BandHit(lon: real): Band -> bool {
    (b: Band) => InBand(b, lon)
  }

  /**
   * The first 25 rows as bare `(minl, maxl)` bands: they follow one another
   * without gaps from -172.5 to 187.5, and each band holds exactly the points
   * its row's test accepts.
   */
  ghost function MainSpans(): (ss: seq<(real, real)>)
    ensures |ss| == 25 && Contiguous(ss)
    ensures ss[0].0 == -172.5 && ss[24].1 == 187.5
    ensures forall i, x :: 0 <= i < 25 ==> (InSpan(ss[i], x) <==> InBand(LonBounds[i], x))
  {
    seq(25, i requires 0 <= i < 25 => (LonBounds[i].minl, LonBounds[i].maxl))
  }

  /**
   * The band that holds a normalised longitude. Rows 0 to 24 follow one
   * another without gaps from -172.5 to 187.5 and the last row covers
   * (-180, -172.5], so every point of (-180, 180] has one; the wrap row
   * (180, 187.5] is never the one.
   */
  ghost function BandIndex(x: real): (i: nat)
    requires -180.0 < x <= 180.0
    ensures i < |LonBounds| && i != 24 && InBand(LonBounds[i], x)
  {
    var ss := MainSpans();
    if x <= -172.5 then 25 else SpanIndex(ss, x)
  }

  /** No longitude lies in two rows of `lon_bounds`. */
  lemma BandUnique(x: real, i: nat, j: nat)
    requires i < |LonBounds| && j < |LonBounds|
    requires InBand(LonBounds[i], x) && InBand(LonBounds[j], x)
    ensures i == j
  {
    var ss := MainSpans();
    if i < 25 && j < 25 {
      assert InSpan(ss[i], x) && InSpan(ss[j], x);
      SpanUnique(ss, x, i, j);
    } else if i < 25 {
      assert InSpan(ss[i], x);
      SpanWithin(ss, x, i);
    } else if j < 25 {
      assert InSpan(ss[j], x);
      SpanWithin(ss, x, j);
    }
  }

  /** Rows 0 to 23 are 15 degrees to the hour: the offset is the hour of the band's centre. */
  lemma FifteenDegreesPerHour()
    ensures forall i :: 0 <= i < 24 ==> LonBounds[i].off == (LonBounds[i].minl + 7.5) / 15.0
  {
  }

  /** One offset record of `tzdict`, keyed as the newer version keys it. */
  datatype Offsets = Offsets(jan: real, jul: real, gmt: real)

  /** The record the global tier and the band fallback build: one value under all three keys. */
  function Uniform(v: real): Offsets {
    Offsets(v, v, v)
  }

  /** `dict([(n, dict(jan = g, jul = d, gmt = r)) for n, g, d, r in rows])`: a record for exactly the names of the table. */
  function TzDict(rows: seq<TzRow>): (d: map<string, Offsets>)
    ensures forall i :: 0 <= i < |rows| ==> rows[i].name in d
    ensures forall k :: k in d ==> exists i :: 0 <= i < |rows| && rows[i].name == k
  {
    var ps := seq(|rows|, i requires 0 <= i < |rows| =>
      (rows[i].name, Offsets(jan := rows[i].janOffset, jul := rows[i].julOffset, gmt := rows[i].rawOffset)));
    assert forall i :: 0 <= i < |rows| ==> ps[i].0 == rows[i].name;
    FromPairs(ps)
  }

  /**
   * `tzdict` has a record for exactly the names of the table, and the record
   * of a name comes from the last row with that name: jan from the second
   * column, jul from the third, gmt from the fourth.
   */
  lemma TzDictRecord(rows: seq<TzRow>, i: nat)
    requires i < |rows|
    requires forall j :: i < j < |rows| ==> rows[j].name != rows[i].name
    ensures rows[i].name in TzDict(rows)
    ensures TzDict(rows)[rows[i].name] == Offsets(jan := rows[i].janOffset, jul := rows[i].julOffset, gmt := rows[i].rawOffset)
  {
    var ps := seq(|rows|, j requires 0 <= j < |rows| =>
      (rows[j].name, Offsets(jan := rows[j].janOffset, jul := rows[j].julOffset, gmt := rows[j].rawOffset)));
    FromPairsLastWins(ps, i);
  }

  /** A global-tier key: its display name and the offset that name spells. */
  datatype WorldKey = WorldKey(name: string, offset: real)

  /** Everything `get_tz` reads but never writes. */
  datatype Tables<G> = Tables(
    usfeats: seq<Entry<string, G>>,
    worldfeats: seq<Entry<WorldKey, G>>,
    tzdict: map<string, Offsets>)

  /**
   * The module-level loading of lines 17 and 103-104, from already-parsed
   * inputs: every tier entry comes from a raw pair with a geometry, and
   * `tzdict` has a record for exactly the names of the table.
   */
  function Load<G>(usRaw: seq<RawEntry<string, G>>, worldRaw: seq<RawEntry<WorldKey, G>>,
                   rows: seq<TzRow>): (t: Tables<G>)
    ensures forall i :: 0 <= i < |t.usfeats| ==> Kept(usRaw, t.usfeats[i])
    ensures forall i :: 0 <= i < |t.worldfeats| ==> Kept(worldRaw, t.worldfeats[i])
    ensures forall i :: 0 <= i < |rows| ==> rows[i].name in t.tzdict
    ensures forall k :: k in t.tzdict ==> exists i :: 0 <= i < |rows| && rows[i].name == k
  {
    BuildTierKept(usRaw);
    BuildTierKept(worldRaw);
    Tables(BuildTier(usRaw), BuildTier(worldRaw), TzDict(rows))
  }

  /** Where a result came from: a national key, a global name, or `lonbound(minl,maxl)`. */
  datatype Source = National(key: string) | Global(name: string) | LonBound(minl: real, maxl: real)

  datatype Error =
    | KeyError(key: string)  // a national key with no row in `tzdict`
    | LonRangeError          // the `raise` of the range guard

  /** What a call does: return a pair, fall off the end (Python's None), or raise. */
  datatype Outcome = Tz(source: Source, offsets: Offsets) | NoResult | Raised(error: Error)

  /**
   * `get_tz` as one expression, branch for branch. Every answer comes from the
   * tables: a national key is returned with its own `tzdict` record, a KeyError
   * names a national key that has none, a global name and a band come from
   * their tier or row, and only a national hit can give different values under
   * jan, jul and gmt.
   */
  function Resolve<G>(t: Tables<G>, contains: (G, Point) -> bool, lon: real, lat: real): (r: Outcome)
    ensures r.Tz? && r.source.National? ==>
      r.source.key in t.tzdict && r.offsets == t.tzdict[r.source.key] &&
      exists i :: 0 <= i < |t.usfeats| && t.usfeats[i].key == r.source.key
    ensures r.Raised? && r.error.KeyError? ==>
      r.error.key !in t.tzdict && exists i :: 0 <= i < |t.usfeats| && t.usfeats[i].key == r.error.key
    ensures r.Tz? && r.source.Global? ==>
      exists i :: 0 <= i < |t.worldfeats| && t.worldfeats[i].key.name == r.source.name &&
        r.offsets == Uniform(t.worldfeats[i].key.offset)
    ensures r.Tz? && r.source.LonBound? ==>
      exists i :: 0 <= i < |LonBounds| && InBand(LonBounds[i], NormalizeLon(lon)) &&
        r.source == LonBound(LonBounds[i].minl, LonBounds[i].maxl) && r.offsets == Uniform(LonBounds[i].off)
    ensures r.Tz? && !r.source.National? ==> r.offsets.jan == r.offsets.jul == r.offsets.gmt
  {
    var x := NormalizeLon(lon);
    if x > 180.0 || x < -180.0 then Raised(LonRangeError)
    else
      var pt := Point(x, lat);
      match FirstIndex(t.usfeats, EntryHit(At(contains, pt)))
      case Some(i) =>
        var key := t.usfeats[i].key;
        if key in t.tzdict then Tz(National(key), t.tzdict[key]) else Raised(KeyError(key))
      case None =>
        match FirstIndex(t.worldfeats, EntryHit(At(contains, pt)))
        case Some(i) => Tz(Global(t.worldfeats[i].key.name), Uniform(t.worldfeats[i].key.offset))
        case None =>
          match FirstIndex(LonBounds, BandHit(x))
          case Some(i) => Tz(LonBound(LonBounds[i].minl, LonBounds[i].maxl), Uniform(LonBounds[i].off))
          case None => NoResult
  }

  /** The range guard never raises and the band loop never falls off its end. */
  lemma ResolveNeverFallsThrough<G>(t: Tables<G>, contains: (G, Point) -> bool, lon: real, lat: real)
    ensures Resolve(t, contains, lon, lat) != NoResult
    ensures Resolve(t, contains, lon, lat) != Raised(LonRangeError)
  {
    var x := NormalizeLon(lon);
    var i := BandIndex(x);
    assert BandHit(x)(LonBounds[i]);
  }

  /** With a `tzdict` row for every national key, every call returns a pair. */
  lemma ResolveTotal<G>(t: Tables<G>, contains: (G, Point) -> bool, lon: real, lat: real)
    requires forall i :: 0 <= i < |t.usfeats| ==> t.usfeats[i].key in t.tzdict
    ensures Resolve(t, contains, lon, lat).Tz?
  {
    ResolveNeverFallsThrough(t, contains, lon, lat);
  }

  /**
   * The first national polygon holding the normalised point decides: its key and
   * its `tzdict` record, or a KeyError when the record is missing.
   */
  lemma NationalWins<G>(t: Tables<G>, contains: (G, Point) -> bool, lon: real, lat: real, i: nat)
    requires i < |t.usfeats|
    requires contains(t.usfeats[i].geom, Point(NormalizeLon(lon), lat))
    requires forall j :: 0 <= j < i ==> !contains(t.usfeats[j].geom, Point(NormalizeLon(lon), lat))
    ensures var key := t.usfeats[i].key;
      Resolve(t, contains, lon, lat) ==
        if key in t.tzdict then Tz(National(key), t.tzdict[key]) else Raised(KeyError(key))
  {
    var pt := Point(NormalizeLon(lon), lat);
    FirstIndexAt(t.usfeats, EntryHit(At(contains, pt)), i);
  }

  /**
   * The global tier is reached only when no national polygon holds the point;
   * then its first polygon holding the point decides, with its offset under all three keys.
   */
  lemma GlobalWins<G>(t: Tables<G>, contains: (G, Point) -> bool, lon: real, lat: real, i: nat)
    requires forall j :: 0 <= j < |t.usfeats| ==> !contains(t.usfeats[j].geom, Point(NormalizeLon(lon), lat))
    requires i < |t.worldfeats|
    requires contains(t.worldfeats[i].geom, Point(NormalizeLon(lon), lat))
    requires forall j :: 0 <= j < i ==> !contains(t.worldfeats[j].geom, Point(NormalizeLon(lon), lat))
    ensures Resolve(t, contains, lon, lat) ==
      Tz(Global(t.worldfeats[i].key.name), Offsets(t.worldfeats[i].key.offset, t.worldfeats[i].key.offset, t.worldfeats[i].key.offset))
  {
    var pt := Point(NormalizeLon(lon), lat);
    assert forall j :: 0 <= j < |t.usfeats| ==> !EntryHit(At(contains, pt))(t.usfeats[j]);
    FirstIndexAt(t.worldfeats, EntryHit(At(contains, pt)), i);
  }

  /**
   * When no polygon of either tier holds the point, the answer is the band that
   * holds the normalised longitude, whichever row of the table it is.
   */
  lemma BandFallback<G>(t: Tables<G>, contains: (G, Point) -> bool, lon: real, lat: real, i: nat)
    requires forall j :: 0 <= j < |t.usfeats| ==> !contains(t.usfeats[j].geom, Point(NormalizeLon(lon), lat))
    requires forall j :: 0 <= j < |t.worldfeats| ==> !contains(t.worldfeats[j].geom, Point(NormalizeLon(lon), lat))
    requires i < |LonBounds| && InBand(LonBounds[i], NormalizeLon(lon))
    ensures Resolve(t, contains, lon, lat) ==
      Tz(LonBound(LonBounds[i].minl, LonBounds[i].maxl), Offsets(LonBounds[i].off, LonBounds[i].off, LonBounds[i].off))
  {
    var x := NormalizeLon(lon);
    var pt := Point(x, lat);
    assert forall j :: 0 <= j < |t.usfeats| ==> !EntryHit(At(contains, pt))(t.usfeats[j]);
    assert forall j :: 0 <= j < |t.worldfeats| ==> !EntryHit(At(contains, pt))(t.worldfeats[j]);
    assert FirstIndex(t.usfeats, EntryHit(At(contains, pt))) == None;
    assert FirstIndex(t.worldfeats, EntryHit(At(contains, pt))) == None;
    assert BandHit(x)(LonBounds[i]);
    var k := FirstIndex(LonBounds, BandHit(x));
    assert k.Some?;
    BandUnique(x, i, k.value);
    assert k == Some(i);
  }

  /** `lon` and `lon` plus any number of whole turns resolve alike. */
  lemma ResolvePeriodic<G>(t: Tables<G>, contains: (G, Point) -> bool, lon: real, lat: real, k: int)
    ensures Resolve(t, contains, lon + 360.0 * k as real, lat) == Resolve(t, contains, lon, lat)
  {
    NormalizeLonPeriodic(lon, k);
  }

  /** The New York cases: -74.0064, 360-74.0064 and -360-74.0064 give one answer. */
  lemma NewYorkWraparound<G>(t: Tables<G>, contains: (G, Point) -> bool)
    ensures Resolve(t, contains, 360.0 - 74.0064, 40.7142) == Resolve(t, contains, -74.0064, 40.7142)
    ensures Resolve(t, contains, -360.0 - 74.0064, 40.7142) == Resolve(t, contains, -74.0064, 40.7142)
  {
    ResolvePeriodic(t, contains, -74.0064, 40.7142, 1);
    ResolvePeriodic(t, contains, -74.0064, 40.7142, -1);
  }

  /**
   * The off-US-coast case: with no national polygon holding (-130, 26.27) and
   * the global polygon named `-9` the first to hold it, the answer is `-9` with
   * -9 hours under all three keys.
   */
  lemma OffUsCoastGlobal<G>(t: Tables<G>, contains: (G, Point) -> bool, i: nat)
    requires forall j :: 0 <= j < |t.usfeats| ==> !contains(t.usfeats[j].geom, Point(-130.0, 26.27))
    requires i < |t.worldfeats| && t.worldfeats[i].key == WorldKey("-9", -9.0)
    requires contains(t.worldfeats[i].geom, Point(-130.0, 26.27))
    requires forall j :: 0 <= j < i ==> !contains(t.worldfeats[j].geom, Point(-130.0, 26.27))
    ensures Resolve(t, contains, -130.0, 26.27) == Tz(Global("-9"), Uniform(-9.0))
  {
    NormalizeLonIdentity(-130.0);
    GlobalWins(t, contains, -130.0, 26.27, i);
  }

  /** Off the US coast with no polygon hit, (-130, 26.27) falls in band (-142.5, -127.5] at -9 hours. */
  lemma OffUsCoastBand<G>(t: Tables<G>, contains: (G, Point) -> bool)
    requires forall j :: 0 <= j < |t.usfeats| ==> !contains(t.usfeats[j].geom, Point(-130.0, 26.27))
    requires forall j :: 0 <= j < |t.worldfeats| ==> !contains(t.worldfeats[j].geom, Point(-130.0, 26.27))
    ensures Resolve(t, contains, -130.0, 26.27) == Tz(LonBound(-142.5, -127.5), Offsets(-9.0, -9.0, -9.0))
  {
    NormalizeLonIdentity(-130.0);
    BandFallback(t, contains, -130.0, 26.27, 2);
  }

  /**
   * On loaded tables a dropped pair never wins: the national answer is decided
   * by the first raw pair whose geometry holds the normalised point, and when
   * there is none the national tier has no say at all.
   */
  lemma LoadNationalWinner<G>(usRaw: seq<RawEntry<string, G>>, worldRaw: seq<RawEntry<WorldKey, G>>,
                              rows: seq<TzRow>, contains: (G, Point) -> bool, lon: real, lat: real)
    ensures var t := Load(usRaw, worldRaw, rows);
      match FirstIndex(usRaw, RawHit(At(contains, Point(NormalizeLon(lon), lat))))
      case Some(j) =>
        var key := usRaw[j].key;
        Resolve(t, contains, lon, lat) ==
          if key in t.tzdict then Tz(National(key), t.tzdict[key]) else Raised(KeyError(key))
      case None =>
        Resolve(t, contains, lon, lat) == Resolve(Tables([], t.worldfeats, t.tzdict), contains, lon, lat)
  {
    var pt := Point(NormalizeLon(lon), lat);
    BuildTierFirstHit(usRaw, At(contains, pt));
  }

  /** The band loop `for idx, (minl, maxl, off) in enumerate(lon_bounds)`: the row it returns at. */
  method ScanBands(bands: seq<Band>, x: real) returns (r: Option<nat>)
    ensures r == FirstIndex(bands, BandHit(x))
  {
    var i := 0;
    while i < |bands|
      invariant 0 <= i <= |bands|
      invariant forall j :: 0 <= j < i ==> !InBand(bands[j], x)
    {
      var minl, maxl := bands[i].minl, bands[i].maxl;
      if x > minl && x <= maxl {
        FirstIndexAt(bands, BandHit(x), i);
        return Some(i);
      }
      i := i + 1;
    }
    return None;
  }

  /** `get_tz`: normalise, then the national scan, the global scan and the band scan, first hit wins. */
  method GetTz<G>(t: Tables<G>, contains: (G, Point) -> bool, lon: real, lat: real) returns (r: Outcome)
    ensures r == Resolve(t, contains, lon, lat)
  {
    var x := PyMod360(lon);
    x := if x > 180.0 then x - 360.0 else x;
    if x > 180.0 || x < -180.0 {
      assert false;  // the guard cannot fire once the longitude is normalised
    }
    assert x == NormalizeLon(lon);
    var pt := Point(x, lat);
    var us := ScanTier(t.usfeats, contains, pt);
    if us.Some? {
      var key := t.usfeats[us.value].key;
      if key !in t.tzdict {
        return Raised(KeyError(key));
      }
      return Tz(National(key), t.tzdict[key]);
    }
    var world := ScanTier(t.worldfeats, contains, pt);
    if world.Some? {
      var v := t.worldfeats[world.value].key.offset;
      return Tz(Global(t.worldfeats[world.value].key.name), Offsets(jan := v, jul := v, gmt := v));
    }
    var band := ScanBands(LonBounds, x);
    if band.Some? {
      var b := LonBounds[band.value];
      return Tz(LonBound(b.minl, b.maxl), Offsets(jan := b.off, jul := b.off, gmt := b.off));
    }
    return NoResult;
  }
}
