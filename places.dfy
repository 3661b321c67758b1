/** The records the itinerary engine passes around. A place is a Python
    dict whose keys are added as it moves through the pipeline; here it is
    one record with a field per key the engine reads or writes. A key that
    is only ever read with `.get(key, default)` is held with its default
    standing for "absent"; a key that some operation indexes directly
    (`place[key]`, raising KeyError when absent) is held as an `Option`. */
module Places {
  import opened Common

  /** Latitude and longitude of a located point. The numbers only reach the
      geometry oracle, so their precision does not matter to the model. */
  datatype Coord = Coord(lat: real, lon: real)

  /** The `point` dict: each of 'lat' and 'lon' may be missing. A missing
      `point` key and an empty `{}` point behave alike everywhere in the
      engine, so both are `Point(None, None)`. */
  datatype Point = Point(lat: Option<real>, lon: Option<real>)

  const NoPoint := Point(None, None)

  /** `'lat' in point and 'lon' in point` */
  predicate Located(p: Point) { p.lat.Some? && p.lon.Some? }

  function CoordOf(p: Point): Coord
    requires Located(p)
  {
    Coord(p.lat.value, p.lon.value)
  }

  type Km = r: real | r >= 0.0

  /** The planar distance formula `sqrt(dlat^2 + dlon^2) * 111` as an exact,
      non-negative number of kilometres, or `None` where evaluating it
      raises (non-numeric coordinates). Floating point is left to it. */
  type Metric = (Coord, Coord) -> Option<Km>

  /** The straight-line estimate `calculate_distance_between_places`
      returns: the distance rounded to 0.1 km (held in tenths), the rounded
      travel minutes and their text. */
  datatype DistanceInfo = DistanceInfo(distanceTenths: int, travelTimeMinutes: int, travelTimeFormatted: string)

  /** `route_info`, written by the nearest-neighbour sequencer. */
  datatype RouteInfo = RouteInfo(distanceFromPreviousTenths: int, travelTimeMinutes: real, travelTimeFormatted: string)

  /** `route_to_next`, written by the route annotator. An absent key and an
      empty `{}` behave alike, so both are `None` in `Place.routeToNext`. */
  datatype RouteToNext = RouteToNext(
    distanceKm: real,
    travelTimeMinutes: real,
    travelTimeFormatted: string,
    routeSteps: seq<string>,
    nextPlace: string)

  /** One place dict. Defaults for absent keys: `kinds` "", `distance_from_center`,
      `rate` and `rating` 0, `is_popular` False; `special_requirements` and
      `estimated_cost` are only written. */
  datatype Place = Place(
    name: string,
    point: Point,
    kinds: string,
    visitDuration: Option<string>,
    bestTime: Option<string>,
    distanceFromCenterTenths: int,
    rate: int,
    xid: Option<string>,
    rating: int,
    description: Option<string>,
    isPopular: bool,
    specialRequirements: Option<string>,
    estimatedCost: Option<string>,
    routeInfo: Option<RouteInfo>,
    routeToNext: Option<RouteToNext>,
    distanceToNext: Option<DistanceInfo>)

  /** A dict holding only `name` and `point`. */
  function BarePlace(name: string, point: Point): Place {
    Place(name, point, "", None, None, 0, 0, None, 0, None, false, None, None, None, None, None)
  }

  /** A dict object the sequencer annotates in place; every list holding
      it sees the change. */
  class PlaceObject {
    var data: Place

    constructor (d: Place)
      ensures data == d
    {
      data := d;
    }
  }

  /** The current contents of a list of dict objects. */
  function Values(objs: seq<PlaceObject>): (vs: seq<Place>)
    reads objs
    ensures |vs| == |objs|
    ensures forall i :: 0 <= i < |objs| ==> vs[i] == objs[i].data
  {
    seq(|objs|, i reads objs requires 0 <= i < |objs| => objs[i].data)
  }

  predicate Distinct<T(==)>(s: seq<T>) {
    forall i, j :: 0 <= i < j < |s| ==> s[i] != s[j]
  }

  /** `[0, 1, ..., n - 1]` */
  function Range(n: nat): (r: seq<nat>)
    ensures |r| == n && forall i :: 0 <= i < n ==> r[i] == i
  {
    seq(n, i => i)
  }
}
