/** tools/routes.py: the straight-line distance estimate between two
    coordinates and the pass that copies a list of places, adding to each
    the estimate to its successor. The HTTP calls of this file (geocoding,
    routing) enter the model only as oracles of the operations that use
    them. */
module Routes {
  import opened Common
  import opened Places

  /** `calculate_distance_between_places`: the planar estimate rounded to
      0.1 km, travel time at five minutes per km rounded to the minute with
      its text truncated, and `{0, 0, "Unknown"}` when the arithmetic
      raises. */
  function DistanceBetween(metric: Metric, a: Coord, b: Coord): (r: DistanceInfo)
    ensures r.distanceTenths >= 0 && r.travelTimeMinutes >= 0
    ensures metric(a, b).None? ==> r == DistanceInfo(0, 0, "Unknown")
    ensures metric(a, b).Some? ==>
      var km := metric(a, b).value;
      && (r.distanceTenths as real) - 0.5 <= 10.0 * km <= (r.distanceTenths as real) + 0.5
      && (r.travelTimeMinutes as real) - 0.5 <= 5.0 * km <= (r.travelTimeMinutes as real) + 0.5
      && r.travelTimeFormatted == NatToString((5.0 * km).Floor) + " min"
  {
    match metric(a, b)
    case None => DistanceInfo(0, 0, "Unknown")
    case Some(km) =>
      var minutes := 5.0 * km;
      DistanceInfo(RoundHalfEven(10.0 * km), RoundHalfEven(minutes), NatToString(minutes.Floor) + " min")
  }

  /** Both estimates come from the same exact distance: the rounded minutes
      are within a minute of half the rounded tenths, i.e. of five minutes
      per rounded kilometre. */
  lemma MinutesTrackDistance(metric: Metric, a: Coord, b: Coord)
    requires metric(a, b).Some?
    ensures var r := DistanceBetween(metric, a, b);
      -2 <= 2 * r.travelTimeMinutes - r.distanceTenths <= 2
  {
  }

  /** Element `i` of `get_places_with_distances`: a copy of `places[i]`,
      with `distance_to_next` added when it is not the last element and
      both it and its successor have a non-empty point holding 'lat'. Only
      'lat' is checked but 'lon' is then read, so a point holding 'lat' and
      no 'lon' raises KeyError. */
  function WithDistanceToNext(places: seq<Place>, i: nat, metric: Metric): Outcome<Place>
    requires i < |places|
  {
    var here := places[i].point;
    if i + 1 < |places| && here.lat.Some? && places[i + 1].point.lat.Some? then
      var next := places[i + 1].point;
      if here.lon.None? || next.lon.None? then Raised(KeyError)
      else Ok(places[i].(distanceToNext := Some(DistanceBetween(metric, CoordOf(here), CoordOf(next)))))
    else Ok(places[i])
  }

  /** `get_places_with_distances` (tools/routes.py:76-96): the input list is
      left alone; the result has the same length and order, element `i`
      being `WithDistanceToNext(places, i)`, unless some element raises. */
  method PlacesWithDistances(places: seq<Place>, metric: Metric) returns (r: Outcome<seq<Place>>)
    ensures r.Ok? <==> forall i :: 0 <= i < |places| ==> WithDistanceToNext(places, i, metric).Ok?
    ensures r.Ok? ==> |r.value| == |places|
    ensures r.Ok? ==> forall i :: 0 <= i < |places| ==> r.value[i] == WithDistanceToNext(places, i, metric).value
    ensures r.Raised? ==> r.exc == KeyError
  {
    var enhanced: seq<Place> := [];
    for i := 0 to |places|
      invariant |enhanced| == i
      invariant forall k :: 0 <= k < i ==> WithDistanceToNext(places, k, metric) == Ok(enhanced[k])
    {
      var enhancedPlace := places[i];
      if i < |places| - 1 {
        var current := places[i].point;
        var next := places[i + 1].point;
        if current.lat.Some? && next.lat.Some? {
          if current.lon.None? || next.lon.None? {
            assert WithDistanceToNext(places, i, metric).Raised?;
            return Raised(KeyError);
          }
          var info := DistanceBetween(metric, CoordOf(current), CoordOf(next));
          enhancedPlace := enhancedPlace.(distanceToNext := Some(info));
        }
      }
      enhanced := enhanced + [enhancedPlace];
    }
    return Ok(enhanced);
  }

  /** The last place is copied as it is: it never gains `distance_to_next`. */
  lemma LastKeepsItsFields(places: seq<Place>, metric: Metric)
    requires |places| > 0
    ensures WithDistanceToNext(places, |places| - 1, metric) == Ok(places[|places| - 1])
  {
  }

  /** An element gains `distance_to_next` exactly when it has a successor
      and both points hold 'lat' (both then hold 'lon' too, or the call
      raises); every other field is copied unchanged. */
  lemma GainsDistanceIff(places: seq<Place>, i: nat, metric: Metric)
    requires i < |places| && WithDistanceToNext(places, i, metric).Ok?
    ensures var p := WithDistanceToNext(places, i, metric).value;
      && p == places[i].(distanceToNext := p.distanceToNext)
      && (i + 1 < |places| && places[i].point.lat.Some? && places[i + 1].point.lat.Some? ==>
            && Located(places[i].point) && Located(places[i + 1].point)
            && p.distanceToNext == Some(DistanceBetween(metric, CoordOf(places[i].point), CoordOf(places[i + 1].point))))
      && (!(i + 1 < |places| && places[i].point.lat.Some? && places[i + 1].point.lat.Some?) ==> p == places[i])
  {
  }

  /** The pass raises exactly when some neighbouring pair both hold 'lat'
      and one of them lacks 'lon'. */
  lemma RaisesIff(places: seq<Place>, metric: Metric)
    ensures (exists i :: 0 <= i < |places| && WithDistanceToNext(places, i, metric).Raised?) <==>
      (exists i :: 0 <= i < |places| - 1 && places[i].point.lat.Some? && places[i + 1].point.lat.Some?
                   && !(Located(places[i].point) && Located(places[i + 1].point)))
  {
    if i :| 0 <= i < |places| - 1 && places[i].point.lat.Some? && places[i + 1].point.lat.Some?
            && !(Located(places[i].point) && Located(places[i + 1].point)) {
      assert WithDistanceToNext(places, i, metric).Raised?;
    }
  }
}
