/**
 * The monitored circle, the filter that keeps the observations inside it, and
 * the rectangular query region sent to the data source.
 */
module Geofence {
  import opened Wrappers
  import opened Flights

  /** Great-circle distance in km between (lat1, lon1) and (lat2, lon2); the haversine formula is not modelled. */
  type Distance = (real, real, real, real) -> real

  /** Radius of the monitored circle in km. */
  const RADIUS_KM: real := 15.0

  datatype Circle = Circle(centerLat: real, centerLon: real, radiusKm: real)

  /** A point is inside when its distance to the centre is at most the radius: the boundary counts as inside. */
  predicate IsInsideCircle(haversine: Distance, c: Circle, lat: real, lon: real) {
    haversine(lat, lon, c.centerLat, c.centerLon) <= c.radiusKm
  }

  lemma BoundaryIsInside(haversine: Distance, c: Circle, lat: real, lon: real)
    requires haversine(lat, lon, c.centerLat, c.centerLon) == c.radiusKm
    ensures IsInsideCircle(haversine, c, lat, lon)
  {
  }

  /** A point farther than the radius is outside. */
  lemma BeyondRadiusIsOutside(haversine: Distance, c: Circle, lat: real, lon: real)
    requires haversine(lat, lon, c.centerLat, c.centerLon) > c.radiusKm
    ensures !IsInsideCircle(haversine, c, lat, lon)
  {
  }

  /** Widening the circle about the same centre keeps every inside point inside. */
  lemma InsideGrowsWithRadius(haversine: Distance, c: Circle, radiusKm: real, lat: real, lon: real)
    requires c.radiusKm <= radiusKm && IsInsideCircle(haversine, c, lat, lon)
    ensures IsInsideCircle(haversine, Circle(c.centerLat, c.centerLon, radiusKm), lat, lon)
  {
  }

  /** The circle test as the two-argument predicate the filter takes. */
  function InsideTest(haversine: Distance, c: Circle): (real, real) -> bool
  {
    (lat: real, lon: real) => IsInsideCircle(haversine, c, lat, lon)
  }

  /** An observation survives the filter when both coordinates are present and inside. */
  predicate Keep(f: Flight, inside: (real, real) -> bool) {
    f.lat.Some? && f.lon.Some? && inside(f.lat.value, f.lon.value)
  }

  /** The loop of the filter: the kept observations of `fs`, in order. */
  function FilterInside(fs: seq<Flight>, inside: (real, real) -> bool): (r: seq<Flight>)
    ensures |r| <= |fs|
    ensures forall k :: 0 <= k < |r| ==> r[k] in fs && Keep(r[k], inside)
  {
    if fs == [] then []
    else (if Keep(fs[0], inside) then [fs[0]] else []) + FilterInside(fs[1..], inside)
  }

  /**
   * The observations of a possibly absent payload that are inside the
   * circle; an absent or empty payload gives nothing.
   */
  function FlightsInCircle(flights: Option<seq<Flight>>, inside: (real, real) -> bool): (r: seq<Flight>)
    ensures flights.None? || flights == Some([]) ==> r == []
  {
    match flights
    case None => []
    case Some(fs) => if |fs| == 0 then [] else FilterInside(fs, inside)
  }

  /** A present payload is filtered in full: the early return for an empty one changes nothing. */
  lemma FlightsInCirclePresent(fs: seq<Flight>, inside: (real, real) -> bool)
    ensures FlightsInCircle(Some(fs), inside) == FilterInside(fs, inside)
  {
  }

  /** An observation is in the result exactly when it is in the input and kept. */
  lemma {:induction false} FilterMembership(fs: seq<Flight>, inside: (real, real) -> bool, x: Flight)
    ensures x in FilterInside(fs, inside) <==> x in fs && Keep(x, inside)
  {
    if fs != [] {
      FilterMembership(fs[1..], inside, x);
      assert fs == [fs[0]] + fs[1..];
    }
  }

  /** Filtering distributes over concatenation: the relative order of the input is kept. */
  lemma {:induction false} FilterAppend(a: seq<Flight>, b: seq<Flight>, inside: (real, real) -> bool)
    ensures FilterInside(a + b, inside) == FilterInside(a, inside) + FilterInside(b, inside)
  {
    if a == [] {
      assert a + b == b;
    } else {
      assert (a + b)[1..] == a[1..] + b;
      FilterAppend(a[1..], b, inside);
    }
  }

  /** Each observation occurs in the result as often as in the input if kept, and never otherwise. */
  lemma {:induction false} FilterCount(fs: seq<Flight>, inside: (real, real) -> bool, x: Flight)
    ensures multiset(FilterInside(fs, inside))[x] == if Keep(x, inside) then multiset(fs)[x] else 0
  {
    if fs != [] {
      var head := if Keep(fs[0], inside) then [fs[0]] else [];
      FilterCount(fs[1..], inside, x);
      calc {
        multiset(FilterInside(fs, inside))[x];
        multiset(head + FilterInside(fs[1..], inside))[x];
        multiset(head)[x] + multiset(FilterInside(fs[1..], inside))[x];
      }
      assert fs == [fs[0]] + fs[1..];
      assert multiset(fs)[x] == multiset([fs[0]])[x] + multiset(fs[1..])[x];
    }
  }

  /** A list whose every observation is kept passes unchanged; in particular filtering is idempotent. */
  lemma {:induction false} FilterKeepsAllKept(fs: seq<Flight>, inside: (real, real) -> bool)
    requires forall k :: 0 <= k < |fs| ==> Keep(fs[k], inside)
    ensures FilterInside(fs, inside) == fs
  {
    if fs != [] {
      FilterKeepsAllKept(fs[1..], inside);
    }
  }

  lemma FilterIdempotent(fs: seq<Flight>, inside: (real, real) -> bool)
    ensures FilterInside(FilterInside(fs, inside), inside) == FilterInside(fs, inside)
  {
    FilterKeepsAllKept(FilterInside(fs, inside), inside);
  }

  /** The query rectangle, in degrees. */
  datatype Bounds = Bounds(north: real, south: real, west: real, east: real)

  /** Half-widths used when none are given. */
  const DEFAULT_DELTA: real := 1.0

  /**
   * The rectangle spanning `latDelta` degrees either side of the centre's
   * latitude and `lonDelta` either side of its longitude (plain degree
   * arithmetic, no geodesic correction).
   */
  function MakeBounds(centerLat: real, centerLon: real, latDelta: real, lonDelta: real): (b: Bounds)
    ensures b.north - b.south == 2.0 * latDelta && b.east - b.west == 2.0 * lonDelta
    ensures (b.north + b.south) / 2.0 == centerLat && (b.west + b.east) / 2.0 == centerLon
  {
    Bounds(centerLat + latDelta, centerLat - latDelta, centerLon - lonDelta, centerLon + lonDelta)
  }

  function DefaultBounds(centerLat: real, centerLon: real): (b: Bounds)
    ensures b.north == centerLat + 1.0 && b.south == centerLat - 1.0
    ensures b.west == centerLon - 1.0 && b.east == centerLon + 1.0
  {
    MakeBounds(centerLat, centerLon, DEFAULT_DELTA, DEFAULT_DELTA)
  }

  /** The four values in the order the query string lists them: north, south, west, east. */
  function BoundsFields(b: Bounds): (fields: seq<real>)
    ensures |fields| == 4
  {
    [b.north, b.south, b.west, b.east]
  }

  predicate StrictlyInside(b: Bounds, lat: real, lon: real) {
    b.south < lat < b.north && b.west < lon < b.east
  }

  /** With positive half-widths the rectangle is proper and holds its centre strictly inside. */
  lemma BoundsContainCenter(centerLat: real, centerLon: real, latDelta: real, lonDelta: real)
    requires latDelta > 0.0 && lonDelta > 0.0
    ensures var b := MakeBounds(centerLat, centerLon, latDelta, lonDelta);
      b.north > b.south && b.east > b.west && StrictlyInside(b, centerLat, centerLon)
  {
  }

  /**
   * With a negative half-width the sides swap (north below south, or east
   * west of west) and the centre is no longer strictly inside.
   */
  lemma NegativeDeltaInverts(centerLat: real, centerLon: real, latDelta: real, lonDelta: real)
    requires latDelta < 0.0 || lonDelta < 0.0
    ensures var b := MakeBounds(centerLat, centerLon, latDelta, lonDelta);
      && (latDelta < 0.0 ==> b.north < b.south)
      && (lonDelta < 0.0 ==> b.east < b.west)
      && !StrictlyInside(b, centerLat, centerLon)
  {
  }

  /** Centre and half-widths recovered from a rectangle. */
  function CenterOf(b: Bounds): (real, real) {
    ((b.north + b.south) / 2.0, (b.west + b.east) / 2.0)
  }

  function DeltasOf(b: Bounds): (real, real) {
    ((b.north - b.south) / 2.0, (b.east - b.west) / 2.0)
  }

  /** Every rectangle is the one built from its own centre and half-widths. */
  lemma BoundsRoundTrip(b: Bounds)
    ensures MakeBounds(CenterOf(b).0, CenterOf(b).1, DeltasOf(b).0, DeltasOf(b).1) == b
  {
  }
}
