# geotz resolution core in Dafny

geotz maps a point (longitude, latitude) to a timezone source string and a
record of UTC offsets in hours. This project models the lookup `get_tz` in
the two versions the repository holds:

- `src/geotz/__init__.py` (module `GeoTz`). It normalises the longitude with
  Python's float `%` into (-180, 180]. It then scans the national polygon tier
  (`usfeats`), then the global tier (`worldfeats`), then the 26-row band table
  `lon_bounds`. Each scan keeps the stored order and returns on its first hit.
- `__init__.py` at the repository root (module `LegacyGeoTz`). This is the
  older variant. It raises for a longitude outside [-180, 180]. It scans one
  tier (`feats`) and then a 25-band table kept as two parallel lists,
  `lon_bounds` and `lon_offsets`.

Shared modules:
- `Scan`: first match in stored order (`FirstIndex`).
- `Tiers`: the query point, tier entries, the None-filter that builds a tier,
  the tier scan loop, and Python's `dict(pairs)`.
- `Intervals`: tables of half-open bands `(minl, maxl]`.
- `Longitude`: Python's `lon % 360.` on exact reals, and the normalisation.

How the model is built:
- Geometry is a type parameter `G`. Containment `feat.contains(point)` is a
  caller-supplied total function `contains: (G, Point) -> bool`.
- The loaded data (tiers and `tzdict`) is an immutable `Tables` value passed to
  every call.
- Each version's `get_tz` appears twice. `Resolve` is a function that follows
  the code branch for branch. `GetTz` is a method that uses the source's loops,
  and its `ensures` ties it to `Resolve`.
- Results are an `Outcome`: `Tz(source, offsets)`, `NoResult` (Python's
  implicit `return None` when every loop falls through), or `Raised(error)`.
  The errors are `KeyError` for a national key with no `tzdict` row, and
  `LonRangeError` for the range guard.

Facts about the source that shape the model:
- Neither version validates the latitude, and neither checks for NaN.
- The newer band table has 26 rows. The row on line 46, (-180, -172.5] at -12
  hours, closes the gap that the older 25-band table leaves.
- In the newer version the range guard of line 142 is dead code. It is kept in
  `GeoTz.Resolve`, and `GeoTz.ResolveNeverFallsThrough` proves it never fires.

## Model

| member | source | states |
|---|---|---|
| `Scan.FirstIndex` | src/geotz/__init__.py:158-159 | the result is the lowest index whose element matches, and nothing before it matches; None exactly when no element matches |
| `Tiers.BuildTier` | src/geotz/__init__.py:103-104 | the tier is never longer than the raw list; it is empty when every geometry is None; it keeps every entry, key and geometry, in place, when none is None |
| `Tiers.BuildTierKept` | src/geotz/__init__.py:103-104 | every entry of a built tier comes from a raw pair with that key whose geometry is not None |
| `Tiers.BuildTierAppend` | src/geotz/__init__.py:103-104 | filtering keeps the order: the tier built from a concatenation is the concatenation of the tiers |
| `Tiers.BuildTierFirstHit` | __init__.py:86 | a dropped entry never wins: the first hit in the built tier is the first raw entry that has a geometry containing the point, or neither exists |
| `Tiers.ScanTier` | src/geotz/__init__.py:158-159 | the polygon loop returns at the index `FirstIndex` names, the first entry whose geometry contains the point |
| `Tiers.FromPairs` | src/geotz/__init__.py:17 | `dict(pairs)` has a key for every pair, and every key comes from some pair |
| `Tiers.FromPairsLastWins` | src/geotz/__init__.py:17 | a key listed more than once keeps the value of its last pair |
| `Intervals.SpanIndex` | src/geotz/__init__.py:167-168 | in a contiguous band table every point between the outer bounds lies in some band `(minl, maxl]` |
| `Intervals.ContiguousOrdered` | src/geotz/__init__.py:21-45 | in a contiguous band table a later band starts no earlier than an earlier band ends |
| `Intervals.SpanUnique` | src/geotz/__init__.py:167-168 | no point lies in two bands of a contiguous table |
| `Intervals.SpanWithin` | __init__.py:132-133 | a point in some band of a contiguous table lies between the table's outer bounds |
| `Longitude.PyMod360` | src/geotz/__init__.py:140 | Python's `lon % 360.` lies in [0, 360) and differs from `lon` by whole turns |
| `Longitude.NormalizeLon` | src/geotz/__init__.py:140-141 | the normalised longitude lies in (-180, 180], so the guard of line 142 cannot raise, and it names the same meridian as the input |
| `Longitude.SameMeridianSym` | src/geotz/__init__.py:140-141 | differing by whole turns is symmetric |
| `Longitude.SameMeridianTrans` | src/geotz/__init__.py:140-141 | differing by whole turns is transitive |
| `Longitude.SameMeridianUnique` | src/geotz/__init__.py:140-141 | two values of (-180, 180] on the same meridian are equal |
| `Longitude.SameMeridianRefl` | src/geotz/__init__.py:140-141 | every longitude names its own meridian |
| `Longitude.NormalizeLonUnique` | src/geotz/__init__.py:140-141 | reference definition: the normalised longitude is the one value of (-180, 180] on the meridian of the input |
| `Longitude.NormalizeLonPeriodic` | src/geotz/__init__.py:140-141 | `lon + 360*k` normalises to the same value as `lon` for every integer `k` |
| `Longitude.NormalizeLonIdentity` | src/geotz/__init__.py:140-141 | a longitude already in (-180, 180] is unchanged |
| `Longitude.NormalizeLonIdempotent` | src/geotz/__init__.py:140-141 | normalising twice is normalising once |
| `Longitude.NormalizeLonMinus180` | src/geotz/__init__.py:140-141 | -180 is mapped to 180 |
| `GeoTz.BandIndex` | src/geotz/__init__.py:21-46 | every longitude of (-180, 180] lies in some row of `lon_bounds`, and that row is never the wrap row (180, 187.5] |
| `GeoTz.BandUnique` | src/geotz/__init__.py:21-46 | no longitude lies in two rows of `lon_bounds` |
| `GeoTz.FifteenDegreesPerHour` | src/geotz/__init__.py:21-44 | for the rows on lines 21-44 the offset is `(minl + 7.5) / 15`, 15 degrees to the hour |
| `GeoTz.TzDictRecord` | src/geotz/__init__.py:17 | a name's `tzdict` record comes from its last row: jan from column 2, jul from column 3, gmt from column 4 |
| `GeoTz.TzDict` | src/geotz/__init__.py:17 | `tzdict` has a record for every row's name and no other key |
| `GeoTz.Load` | src/geotz/__init__.py:103-104 | every entry of both tiers comes from a raw pair with a geometry, and `tzdict` holds exactly the names of the table |
| `GeoTz.Resolve` | src/geotz/__init__.py:140-169 | every answer comes from the tables: a national key with its own `tzdict` record; a KeyError only for a national key with no record; a global name and offset from the global tier; a band that holds the normalised longitude; one value under jan, jul and gmt unless the hit is national |
| `GeoTz.LoadNationalWinner` | src/geotz/__init__.py:158-160 | on loaded tables, the first raw pair whose geometry holds the normalised point decides the national answer; with none, the national tier has no say |
| `GeoTz.ResolveNeverFallsThrough` | src/geotz/__init__.py:140-169 | for every finite longitude, `get_tz` never raises the range error and never falls through to None |
| `GeoTz.ResolveTotal` | src/geotz/__init__.py:158-169 | when every national key has a `tzdict` row, every call returns a (source, offsets) pair |
| `GeoTz.NationalWins` | src/geotz/__init__.py:158-160 | the lowest-index national polygon holding the normalised point decides: its key with `tzdict[key]`, or a KeyError when the key is missing |
| `GeoTz.GlobalWins` | src/geotz/__init__.py:161-164 | when no national polygon holds the point, the lowest-index global polygon holding it decides, with its offset under jan, jul and gmt |
| `GeoTz.BandFallback` | src/geotz/__init__.py:165-169 | when no polygon of either tier holds the point, the row holding the normalised longitude decides, with its offset under all three keys |
| `GeoTz.ResolvePeriodic` | src/geotz/__init__.py:140-141 | `get_tz(lon + 360*k, lat)` equals `get_tz(lon, lat)` for every integer `k` |
| `GeoTz.NewYorkWraparound` | src/geotz/__init__.py:172-187 | -74.0064, 360-74.0064 and -360-74.0064 give the same result |
| `GeoTz.OffUsCoastGlobal` | src/geotz/__init__.py:195-199 | with no national polygon holding (-130, 26.27) and the global polygon named `-9` the first to hold it, the result is `-9` with -9 under all three keys |
| `GeoTz.OffUsCoastBand` | src/geotz/__init__.py:165-169 | with no polygon of either tier holding (-130, 26.27), the band fallback gives (-142.5, -127.5] at -9 under all three keys |
| `GeoTz.ScanBands` | src/geotz/__init__.py:167-169 | the band loop returns at the index `FirstIndex` names, the first row with `minl < lon <= maxl` |
| `GeoTz.GetTz` | src/geotz/__init__.py:140-169 | the statement-level `get_tz` (two assignments to `lon`, guard, three early-return loops) computes exactly `Resolve` |
| `LegacyGeoTz.BandIndex` | __init__.py:23-47 | every longitude of (-172.5, 187.5] lies in some band, and there is a `lon_offsets` entry for that band |
| `LegacyGeoTz.BandUnique` | __init__.py:23-47 | no longitude lies in two bands |
| `LegacyGeoTz.BandCoverage` | __init__.py:23-47 | a longitude in some band lies in (-172.5, 187.5], so [-180, -172.5] lies in none |
| `LegacyGeoTz.FifteenDegreesPerHour` | __init__.py:20-46 | for bands 0 to 23 the parallel offset is `(minl + 7.5) / 15` |
| `LegacyGeoTz.NewerTableExtendsThis` | __init__.py:20-47 | the newer `lon_bounds` is this version's two lists zipped row by row, plus the row (-180, -172.5] at -12 |
| `LegacyGeoTz.TzDict` | __init__.py:16 | `tzdict` has a record for every row's name and no other key |
| `LegacyGeoTz.Load` | __init__.py:86 | every tier entry comes from a raw pair with a geometry, and `tzdict` holds exactly the names of the table |
| `LegacyGeoTz.Resolve` | __init__.py:111-134 | every answer comes from the tables: a key with its own `tzdict` record; a KeyError only for a key with no record; a band holding `lon` itself, with its `lon_offsets` entry under ldt, lst and gmt |
| `LegacyGeoTz.LoadWinner` | __init__.py:127-129 | on loaded tables, for an in-range longitude, the first raw pair whose geometry holds the point decides; with none, the polygon tier has no say |
| `LegacyGeoTz.TzDictRecord` | __init__.py:16 | a name's `tzdict` record comes from its last row: lst from column 2, ldt from column 3, gmt from column 4 |
| `LegacyGeoTz.RangeErrorIff` | __init__.py:111-112 | the range error is raised exactly when `lon > 180` or `lon < -180`, before any lookup |
| `LegacyGeoTz.OutOfRangeChecks` | __init__.py:145-158 | 360-79.92 and -181.92 raise the range error |
| `LegacyGeoTz.NationalWins` | __init__.py:127-129 | for an in-range longitude, the lowest-index polygon holding the unchanged point decides: its key with `tzdict[key]`, or a KeyError |
| `LegacyGeoTz.BandFallback` | __init__.py:130-134 | with no polygon holding the point, the band holding the unchanged longitude decides, with `lon_offsets[idx]` under ldt, lst and gmt |
| `LegacyGeoTz.NoResultIff` | __init__.py:130-134 | for a finite `lon`, the call returns None exactly when `lon` is in [-180, -172.5] and no polygon holds the point |
| `LegacyGeoTz.CoverageGapExample` | __init__.py:23 | with an empty tier, (-175, 0) returns None |
| `LegacyGeoTz.OffUsCoastBand` | __init__.py:160-163 | with no polygon holding the point, -130 gives band (-142.5, -127.5] at -9 under all three keys |
| `LegacyGeoTz.ScanBands` | __init__.py:132-134 | the band loop returns at the index `FirstIndex` names, the first band with `minl < lon <= maxl` |
| `LegacyGeoTz.GetTz` | __init__.py:111-134 | the statement-level older `get_tz` (guard, polygon loop, band loop indexing `lon_offsets`, always in bounds) computes exactly `Resolve` |

## Left out

- Creating pickles with `makepkl` (osgeo/ogr reads the KML files) is not modelled. It is file I/O through a foreign library.
- Reading `timeZones.txt` with `csv` is not modelled: skipping the header, parsing with `float()`, and loading the pickles. `TzDict` and `Load` start from rows already split into a name and three offsets and from the raw `(key, geometry-or-None)` lists.
- Shapely's `loads`, `prep` and `contains`, and the `"POINT(%f %f)"` text round trip, are not modelled. They are foreign geometry code. Containment is a caller-supplied predicate, so the six-decimal rounding of the query point is not modelled either.
- `float(tz_key)` for a global hit is not modelled, and neither are its possible ValueError and the `str(tz_key)` conversion. A global key carries its name and its numeric offset as two fields (`WorldKey`).
- The band label `'lonbound(%.1f,%.1f)'` is not formatted. The model's `LonBound(minl, maxl)` records the pair instead.
- NaN and infinite longitudes are not modelled, because longitudes are reals here. In Python, `nan % 360.` and `inf % 360.` are both NaN. The newer version's guard on line 142 and every band test on line 168 are then False, so, provided shapely's `loads` accepts the point text `"POINT(nan ...)"` (lines 144 and 153), when no polygon holds the point `get_tz` reaches the end of the function and returns None. The older version raises for +inf and -inf on line 111; for NaN its guard and every band test on line 133 are False, so, provided `loads` accepts the point text (lines 113 and 122), it returns None unless a polygon holds the point. `GeoTz.ResolveNeverFallsThrough` and `LegacyGeoTz.NoResultIff` speak about finite longitudes only.
- IEEE float rounding is not modelled. Longitudes are exact reals, so Python's `%` is `lon - 360 * floor(lon / 360)`. Rounding cases such as a tiny negative `lon % 360.` giving `360.0` are not captured.
- `raise NotImplemented(...)` is one error outcome, `LonRangeError`. Python would actually raise a TypeError there.
- The `unittest` and `__main__` test scripts, `setup.py`, and the build copy `build/lib/geotz/__init__.py` are not modelled. The build copy is byte-for-byte the same as the modelled `src/geotz/__init__.py`.
- Concurrency and lazy initialisation are not modelled. The tables are an immutable value built before any call.

## Findings

| source | as written | input that shows it | evidently intended | confidence | as-written member | corrected member |
|---|---|---|---|---|---|---|
| __init__.py:23-47 | the bands cover only (-172.5, 187.5], yet the guard admits [-180, 180] | lon = -175 with no polygon holding the point: `get_tz` returns None, and unpacking `tsrc, tz = get_tz(...)` then fails | every admitted longitude gets a band; the newer version adds the row (-180, -172.5] at -12 hours | not executed | `LegacyGeoTz.CoverageGapExample` | `GeoTz.ResolveNeverFallsThrough` |
