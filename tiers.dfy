/**
 * The data that both versions of `get_tz` load once and then only read:
 * polygon tiers built from a pickled list of (key, geometry-or-None) pairs,
 * and the offset dictionary built from the rows of a tab-separated table.
 */
module Tiers {
  import opened Options
  import opened Scan

  /** The query point `POINT(lon lat)` handed to the geometry library. */
  datatype Point = Point(lon: real, lat: real)

  /** A pickled pair as loaded from disk: the geometry may be None. */
  datatype RawEntry<K, G> = RawEntry(key: K, geom: Option<G>)

  /** A tier entry: a key with a (prepared) geometry. */
  datatype Entry<K, G> = Entry(key: K, geom: G)

  /**
   * One row of the offset table, already split into its four columns: the zone
   * name, its offset on 1 January, its offset on 1 July, and its raw offset
   * ignoring daylight saving time.
   */
  datatype TzRow = TzRow(name: string, janOffset: real, julOffset: real, rawOffset: real)

  /** The tier comprehension `[(k, prep(loads(v))) for k, v in raw if v is not None]`. */
  function BuildTier<K, G>(raw: seq<RawEntry<K, G>>): (t: seq<Entry<K, G>>)
    ensures |t| <= |raw|
    ensures (forall j :: 0 <= j < |raw| ==> raw[j].geom.None?) ==> t == []
    ensures (forall j :: 0 <= j < |raw| ==> raw[j].geom.Some?) ==>
      |t| == |raw| && forall j :: 0 <= j < |raw| ==> t[j] == Entry(raw[j].key, raw[j].geom.value)
  {
    if raw == [] then []
    else
      var head := match raw[0].geom
        case None => []
        case Some(g) => [Entry(raw[0].key, g)];
      head + BuildTier(raw[1..])
  }

  /** A tier entry comes from a raw entry with that key and that geometry. */
  ghost predicate Kept<K, G>(raw: seq<RawEntry<K, G>>, e: Entry<K, G>) {
    exists j :: 0 <= j < |raw| && raw[j].key == e.key && raw[j].geom == Some(e.geom)
  }

  /** Filtering keeps the order: building a tier from two lists is building each and concatenating. */
  lemma {:induction false} BuildTierAppend<K, G>(a: seq<RawEntry<K, G>>, b: seq<RawEntry<K, G>>)
    ensures BuildTier(a + b) == BuildTier(a) + BuildTier(b)
  {
    if a != [] {
      assert (a + b)[0] == a[0];
      assert (a + b)[1..] == a[1..] + b;
      BuildTierAppend(a[1..], b);
      var head := BuildTier([a[0]]);
      assert BuildTier(a) == head + BuildTier(a[1..]);
      assert BuildTier(a + b) == head + (BuildTier(a[1..]) + BuildTier(b));
    } else {
      assert a + b == b;
    }
  }

  /** Every entry of the built tier comes from a raw pair that has that key and that geometry. */
  lemma {:induction false} BuildTierKept<K, G>(raw: seq<RawEntry<K, G>>)
    ensures forall i :: 0 <= i < |BuildTier(raw)| ==> Kept(raw, BuildTier(raw)[i])
  {
    if raw != [] {
      BuildTierKept(raw[1..]);
      var t := BuildTier(raw);
      var rest := BuildTier(raw[1..]);
      forall i | 0 <= i < |t|
        ensures Kept(raw, t[i])
      {
        if raw[0].geom.Some? && i == 0 {
          assert raw[0].key == t[0].key && raw[0].geom == Some(t[0].geom);
        } else {
          var k := if raw[0].geom.Some? then i - 1 else i;
          assert t[i] == rest[k];
          var j :| 0 <= j < |raw[1..]| && raw[1..][j].key == rest[k].key && raw[1..][j].geom == Some(rest[k].geom);
          assert raw[j + 1] == raw[1..][j];
        }
      }
    }
  }

  /** A tier entry hit by `hit`, the test `feat.contains(point)`. */
  function EntryHit<K, G>(hit: G -> bool): Entry<K, G> -> bool {
    (e: Entry<K, G>) => hit(e.geom)
  }

  /** A raw entry hit by `hit`: it has a geometry and that geometry is hit. */
  function RawHit<K, G>(hit: G -> bool): RawEntry<K, G> -> bool {
    (e: RawEntry<K, G>) => e.geom.Some? && hit(e.geom.value)
  }

  /** The built tier and the raw list, each scanned in order, stop at the same entry or both find nothing. */
  ghost predicate SameWinner<K, G>(raw: seq<RawEntry<K, G>>, hit: G -> bool) {
    var t := BuildTier(raw);
    var i := FirstIndex(t, EntryHit(hit));
    var j := FirstIndex(raw, RawHit(hit));
    i.Some? == j.Some? &&
    (i.Some? ==> t[i.value] == Entry(raw[j.value].key, raw[j.value].geom.value))
  }

  /**
   * A dropped entry can never win: scanning the built tier finds the same
   * entry as scanning the raw list while skipping the None geometries.
   */
  lemma {:induction false} BuildTierFirstHit<K, G>(raw: seq<RawEntry<K, G>>, hit: G -> bool)
    ensures SameWinner(raw, hit)
  {
    if raw != [] {
      BuildTierFirstHit(raw[1..], hit);
      match raw[0].geom
      case None => DroppedHead(raw, hit);
      case Some(g) => KeptHead(raw, hit, g);
    }
  }

  /** Step of BuildTierFirstHit: a head entry without geometry is dropped and never hit. */
  lemma DroppedHead<K, G>(raw: seq<RawEntry<K, G>>, hit: G -> bool)
    requires raw != [] && raw[0].geom.None? && SameWinner(raw[1..], hit)
    ensures SameWinner(raw, hit)
  {
    assert BuildTier(raw) == BuildTier(raw[1..]);
    assert !RawHit(hit)(raw[0]);
    FirstIndexSkip(raw, RawHit(hit));
  }

  /** Step of BuildTierFirstHit: a head entry with geometry is kept first, and is hit in both or in neither. */
  lemma KeptHead<K, G>(raw: seq<RawEntry<K, G>>, hit: G -> bool, g: G)
    requires raw != [] && raw[0].geom == Some(g) && SameWinner(raw[1..], hit)
    ensures SameWinner(raw, hit)
  {
    var t := BuildTier(raw);
    assert t == [Entry(raw[0].key, g)] + BuildTier(raw[1..]);
    assert t[1..] == BuildTier(raw[1..]);
    if hit(g) {
      assert EntryHit(hit)(t[0]);
      assert RawHit(hit)(raw[0]);
    } else {
      assert !EntryHit(hit)(t[0]);
      assert !RawHit(hit)(raw[0]);
      FirstIndexSkip(t, EntryHit(hit));
      FirstIndexSkip(raw, RawHit(hit));
    }
  }

  /** The geometry test `feat.contains(point)` for one point. */
  function At<G>(contains: (G, Point) -> bool, pt: Point): G -> bool {
    (g: G) => contains(g, pt)
  }

  /** One `for tz_key, feat in tier: if feat.contains(point): return ...` loop: the index it returns at. */
  method ScanTier<K, G>(tier: seq<Entry<K, G>>, contains: (G, Point) -> bool, pt: Point) returns (r: Option<nat>)
    ensures r == FirstIndex(tier, EntryHit(At(contains, pt)))
  {
    ghost var hit := EntryHit(At(contains, pt));
    var i := 0;
    while i < |tier|
      invariant 0 <= i <= |tier|
      invariant forall j :: 0 <= j < i ==> !hit(tier[j])
    {
      if contains(tier[i].geom, pt) {
        FirstIndexAt(tier, hit, i);
        return Some(i);
      }
      i := i + 1;
    }
    return None;
  }

  /** `dict(pairs)`: a key bound twice keeps the value of its last pair. */
  function FromPairs<K, V>(ps: seq<(K, V)>): (d: map<K, V>)
    ensures forall i :: 0 <= i < |ps| ==> ps[i].0 in d
    ensures forall k :: k in d ==> exists i :: 0 <= i < |ps| && ps[i].0 == k
  {
    if ps == [] then map[]
    else FromPairs(ps[..|ps| - 1])[ps[|ps| - 1].0 := ps[|ps| - 1].1]
  }

  /** The value stored under a key is the one from the last pair with that key. */
  lemma {:induction false} FromPairsLastWins<K, V>(ps: seq<(K, V)>, i: nat)
    requires i < |ps|
    requires forall j :: i < j < |ps| ==> ps[j].0 != ps[i].0
    ensures ps[i].0 in FromPairs(ps) && FromPairs(ps)[ps[i].0] == ps[i].1
  {
    if i < |ps| - 1 {
      FromPairsLastWins(ps[..|ps| - 1], i);
    }
  }
}
