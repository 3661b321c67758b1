/** The aggregates of tools/trip_mapper.py over an ordered list of places:
    the total straight-line distance, the trip summary, the map data and
    the route-efficiency analysis. */
module TripStats {
  import opened Common
  import opened Places
  import opened Routes

  // ---------------------------------------------------------------------
  // calculate_total_distance (tools/trip_mapper.py:12-31)
  // ---------------------------------------------------------------------

  /** The number of consecutive pairs, `len(places) - 1` clamped at 0
      (`range` of a negative bound is empty). */
  function Pairs(places: seq<Place>): nat {
    if |places| == 0 then 0 else |places| - 1
  }

  /** The pair `(i, i + 1)` enters the total: both have coordinates. */
  predicate Measured(places: seq<Place>, i: nat)
    requires i + 1 < |places|
  {
    Located(places[i].point) && Located(places[i + 1].point)
  }

  function PairInfo(places: seq<Place>, metric: Metric, i: nat): DistanceInfo
    requires i + 1 < |places| && Measured(places, i)
  {
    DistanceBetween(metric, CoordOf(places[i].point), CoordOf(places[i + 1].point))
  }

  /** The running `total_distance`: its value in tenths of a km, and
      whether it has become a Python float. It starts as the int 0 and
      stays an int while only the int 0 of the fallback record is added. */
  datatype Total = Total(tenths: nat, isFloat: bool)

  /** The accumulator after the first `k` pairs. */
  function TotalUpTo(places: seq<Place>, metric: Metric, k: nat): Total
    requires k <= Pairs(places)
  {
    if k == 0 then Total(0, false)
    else
      var t := TotalUpTo(places, metric, k - 1);
      var i := k - 1;
      if Measured(places, i) then
        var info := PairInfo(places, metric, i);
        var m := metric(CoordOf(places[i].point), CoordOf(places[i + 1].point));
        Total(t.tenths + info.distanceTenths, t.isFloat || m.Some?)
      else t
  }

  function TotalOf(places: seq<Place>, metric: Metric): Total {
    TotalUpTo(places, metric, Pairs(places))
  }

  /** `calculate_total_distance`. Each term is already a multiple of 0.1,
      so the final `round(total, 1)` keeps the sum of the tenths. */
  method TotalDistance(places: seq<Place>, metric: Metric) returns (total: Total)
    ensures total == TotalOf(places, metric)
  {
    total := Total(0, false);
    for i := 0 to Pairs(places)
      invariant total == TotalUpTo(places, metric, i)
    {
      var current := places[i].point;
      var next := places[i + 1].point;
      if Located(current) && Located(next) {
        var info := DistanceBetween(metric, CoordOf(current), CoordOf(next));
        var m := metric(CoordOf(current), CoordOf(next));
        total := Total(total.tenths + info.distanceTenths, total.isFloat || m.Some?);
      }
    }
  }

  /** The exact length of the measured pairs the metric could evaluate. */
  function ExactKmUpTo(places: seq<Place>, metric: Metric, k: nat): real
    requires k <= Pairs(places)
  {
    if k == 0 then 0.0
    else
      var i := k - 1;
      ExactKmUpTo(places, metric, k - 1)
        + if Measured(places, i) && metric(CoordOf(places[i].point), CoordOf(places[i + 1].point)).Some? then
            metric(CoordOf(places[i].point), CoordOf(places[i + 1].point)).value
          else 0.0
  }

  /** The number of measured pairs among the first `k`. */
  function MeasuredUpTo(places: seq<Place>, k: nat): nat
    requires k <= Pairs(places)
  {
    if k == 0 then 0 else MeasuredUpTo(places, k - 1) + if Measured(places, k - 1) then 1 else 0
  }

  /** Rounding every term to 0.1 km keeps the total within 0.05 km per
      measured pair of the exact sum; a pair without coordinates on either
      side contributes nothing. */
  lemma {:induction false} TotalNearExact(places: seq<Place>, metric: Metric, k: nat)
    requires k <= Pairs(places)
    ensures var t, e, m := TotalUpTo(places, metric, k).tenths as real, 10.0 * ExactKmUpTo(places, metric, k), MeasuredUpTo(places, k) as real;
      t - 0.5 * m <= e <= t + 0.5 * m
  {
    if k > 0 {
      TotalNearExact(places, metric, k - 1);
    }
  }

  /** While no term came from an evaluated distance the total is the int
      0: it is printed as "0", not "0.0". */
  lemma {:induction false} IntTotalIsZero(places: seq<Place>, metric: Metric, k: nat)
    requires k <= Pairs(places)
    ensures !TotalUpTo(places, metric, k).isFloat ==> TotalUpTo(places, metric, k).tenths == 0
  {
    if k > 0 {
      IntTotalIsZero(places, metric, k - 1);
    }
  }

  /** No pair with coordinates on both sides: the total is the int 0. */
  lemma {:induction false} NoMeasuredPairNoDistance(places: seq<Place>, metric: Metric, k: nat)
    requires k <= Pairs(places)
    requires forall i :: 0 <= i < k ==> !Measured(places, i)
    ensures TotalUpTo(places, metric, k) == Total(0, false)
  {
    if k > 0 {
      NoMeasuredPairNoDistance(places, metric, k - 1);
    }
  }

  /** `str(total)`: one decimal once it is a float, else the int. */
  function TotalText(t: Total): string {
    if t.isFloat then FormatTenths(t.tenths) else NatToString(t.tenths / 10)
  }

  // ---------------------------------------------------------------------
  // create_trip_summary (tools/trip_mapper.py:161-192)
  // ---------------------------------------------------------------------

  /** The minutes a place contributes to `total_travel_time`: from
      `route_to_next` when present, else from `distance_to_next`. */
  function LegMinutes(p: Place): real {
    if p.routeToNext.Some? then p.routeToNext.value.travelTimeMinutes
    else if p.distanceToNext.Some? then p.distanceToNext.value.travelTimeMinutes as real
    else 0.0
  }

  function MinutesUpTo(places: seq<Place>, k: nat): real
    requires k <= |places|
  {
    if k == 0 then 0.0 else MinutesUpTo(places, k - 1) + LegMinutes(places[k - 1])
  }

  datatype TripSummary = TripSummary(
    totalDistance: Total,
    totalTravelMinutes: real,
    totalTravelFormatted: string,
    totalPlaces: nat,
    startLocation: string,
    endLocation: string,
    averageDistanceTenths: int,
    routeEfficiency: string)

  /** `s` is the summary of `places`: `None` (the `{}`) exactly for an empty
      list; otherwise the total distance, the travel minutes, the count,
      the first and last names, the average distance per leg rounded to a
      tenth, and "Optimized" exactly for more than one place. */
  predicate SummaryOf(places: seq<Place>, metric: Metric, s: Option<TripSummary>) {
    && (s.None? <==> places == [])
    && (s.Some? ==>
      var v, n := s.value, |places|;
      var gaps := if n - 1 > 1 then n - 1 else 1;
      && v.totalDistance == TotalOf(places, metric)
      && v.totalTravelMinutes == MinutesUpTo(places, n)
      && v.totalTravelFormatted == IntToString(Truncate(v.totalTravelMinutes)) + " min"
      && v.totalPlaces == n
      && v.startLocation == places[0].name && v.endLocation == places[n - 1].name
      && (v.averageDistanceTenths as real) - 0.5 <= (v.totalDistance.tenths as real) / (gaps as real) <= (v.averageDistanceTenths as real) + 0.5
      && (v.routeEfficiency == "Optimized" <==> n > 1)
      && (n <= 1 ==> v.routeEfficiency == "Single Destination"))
  }

  /** `create_trip_summary`: `None` stands for the `{}` of an empty list. */
  method CreateTripSummary(places: seq<Place>, metric: Metric) returns (s: Option<TripSummary>)
    ensures SummaryOf(places, metric, s)
  {
    if places == [] {
      return None;
    }
    var totalDistance := TotalDistance(places, metric);
    var totalPlaces := |places|;
    var totalTravelTime := 0.0;
    for i := 0 to |places|
      invariant totalTravelTime == MinutesUpTo(places, i)
    {
      var place := places[i];
      if place.routeToNext.Some? {
        totalTravelTime := totalTravelTime + place.routeToNext.value.travelTimeMinutes;
      } else if place.distanceToNext.Some? {
        totalTravelTime := totalTravelTime + place.distanceToNext.value.travelTimeMinutes as real;
      }
    }
    var gaps := if totalPlaces - 1 > 1 then totalPlaces - 1 else 1;
    var average := RoundHalfEven((totalDistance.tenths as real) / (gaps as real));
    var efficiency := if totalPlaces > 1 then "Optimized" else "Single Destination";
    return Some(TripSummary(totalDistance, totalTravelTime, IntToString(Truncate(totalTravelTime)) + " min",
      totalPlaces, places[0].name, places[totalPlaces - 1].name, average, efficiency));
  }

  // ---------------------------------------------------------------------
  // generate_route_map_data (tools/trip_mapper.py:194-221)
  // ---------------------------------------------------------------------

  datatype Marker = Marker(name: string, lat: real, lon: real, order: nat, visitDuration: string, bestTime: string)

  datatype MapData = MapData(
    routePoints: seq<Coord>,
    placeMarkers: seq<Marker>,
    totalDistance: Total,
    startLocation: string,
    endLocation: string)

  /** The marker of `p`, the `i`-th place of the list. */
  function MarkerOf(p: Place, i: nat): Marker
    requires Located(p.point)
  {
    Marker(p.name, p.point.lat.value, p.point.lon.value, i + 1, p.visitDuration.GetOr("N/A"), p.bestTime.GetOr("N/A"))
  }

  /** The markers of the located places among the first `k`. */
  function MarkersUpTo(places: seq<Place>, k: nat): seq<Marker>
    requires k <= |places|
  {
    if k == 0 then []
    else MarkersUpTo(places, k - 1) + if Located(places[k - 1].point) then [MarkerOf(places[k - 1], k - 1)] else []
  }

  /** `generate_route_map_data`: `None` stands for the `{}` of an empty
      list; the route points are the markers' coordinates, in order. */
  method RouteMapData(places: seq<Place>, metric: Metric) returns (m: Option<MapData>)
    ensures m.None? <==> places == []
    ensures m.Some? ==>
      var v := m.value;
      && v.placeMarkers == MarkersUpTo(places, |places|)
      && |v.routePoints| == |v.placeMarkers|
      && (forall j :: 0 <= j < |v.routePoints| ==> v.routePoints[j] == Coord(v.placeMarkers[j].lat, v.placeMarkers[j].lon))
      && v.totalDistance == TotalOf(places, metric)
      && v.startLocation == places[0].name && v.endLocation == places[|places| - 1].name
  {
    if places == [] {
      return None;
    }
    var routePoints: seq<Coord> := [];
    var placeMarkers: seq<Marker> := [];
    for i := 0 to |places|
      invariant placeMarkers == MarkersUpTo(places, i)
      invariant |routePoints| == |placeMarkers|
      invariant forall j :: 0 <= j < |routePoints| ==> routePoints[j] == Coord(placeMarkers[j].lat, placeMarkers[j].lon)
    {
      var place := places[i];
      var coords := place.point;
      if Located(coords) {
        placeMarkers := placeMarkers + [MarkerOf(place, i)];
        routePoints := routePoints + [Coord(coords.lat.value, coords.lon.value)];
      }
    }
    var total := TotalDistance(places, metric);
    return Some(MapData(routePoints, placeMarkers, total, places[0].name, places[|places| - 1].name));
  }

  /** `m` is the marker of the place at position `m.order - 1`, which has
      coordinates. */
  predicate MarksPlace(places: seq<Place>, m: Marker) {
    1 <= m.order <= |places| && Located(places[m.order - 1].point) && m == MarkerOf(places[m.order - 1], m.order - 1)
  }

  /** Each marker describes a located place among the first `k`, and the
      markers follow the list order. */
  lemma {:induction false} MarkersAreLocatedPlaces(places: seq<Place>, k: nat)
    requires k <= |places|
    ensures forall j :: 0 <= j < |MarkersUpTo(places, k)| ==>
      MarksPlace(places, MarkersUpTo(places, k)[j]) && MarkersUpTo(places, k)[j].order <= k
    ensures forall j, l :: 0 <= j < l < |MarkersUpTo(places, k)| ==> MarkersUpTo(places, k)[j].order < MarkersUpTo(places, k)[l].order
  {
    if k > 0 {
      MarkersAreLocatedPlaces(places, k - 1);
      var prev := MarkersUpTo(places, k - 1);
      var ms := MarkersUpTo(places, k);
      assert ms[..|prev|] == prev;
      forall j | 0 <= j < |ms| ensures MarksPlace(places, ms[j]) && ms[j].order <= k {
        if j < |prev| {
          assert ms[j] == prev[j];
        } else {
          assert ms[j] == MarkerOf(places[k - 1], k - 1);
        }
      }
      forall j, l | 0 <= j < l < |ms| ensures ms[j].order < ms[l].order {
        assert ms[j] == prev[j];
        if l < |prev| {
          assert ms[l] == prev[l];
        } else {
          assert ms[l].order == k;
        }
      }
    }
  }

  /** Every located place among the first `k` has its marker. */
  lemma {:induction false} LocatedPlacesHaveMarkers(places: seq<Place>, k: nat)
    requires k <= |places|
    ensures forall i :: 0 <= i < k && Located(places[i].point) ==> MarkerOf(places[i], i) in MarkersUpTo(places, k)
  {
    if k > 0 {
      LocatedPlacesHaveMarkers(places, k - 1);
      assert forall i :: 0 <= i < k - 1 && Located(places[i].point) ==> MarkerOf(places[i], i) in MarkersUpTo(places, k - 1);
    }
  }

  // ---------------------------------------------------------------------
  // analyze_route_efficiency (tools/trip_mapper.py:223-275)
  // ---------------------------------------------------------------------

  /** `other` counts towards the `nearby_count` of `i`: a different place,
      both located, less than 2 km apart by the rounded estimate. */
  predicate Near(places: seq<Place>, metric: Metric, i: nat, other: nat)
    requires i < |places| && other < |places|
  {
    && i != other && Located(places[i].point) && Located(places[other].point)
    && DistanceBetween(metric, CoordOf(places[i].point), CoordOf(places[other].point)).distanceTenths < 20
  }

  function NearbyUpTo(places: seq<Place>, metric: Metric, i: nat, k: nat): nat
    requires i < |places| && k <= |places|
  {
    if k == 0 then 0 else NearbyUpTo(places, metric, i, k - 1) + if Near(places, metric, i, k - 1) then 1 else 0
  }

  function NearSet(places: seq<Place>, metric: Metric, i: nat, k: nat): set<nat>
    requires i < |places| && k <= |places|
  {
    set other | 0 <= other < k && Near(places, metric, i, other)
  }

  /** The count is the number of places near `i`. */
  lemma {:induction false} NearbyCountIsSize(places: seq<Place>, metric: Metric, i: nat, k: nat)
    requires i < |places| && k <= |places|
    ensures NearbyUpTo(places, metric, i, k) == |NearSet(places, metric, i, k)|
  {
    if k > 0 {
      NearbyCountIsSize(places, metric, i, k - 1);
      if Near(places, metric, i, k - 1) {
        assert NearSet(places, metric, i, k) == NearSet(places, metric, i, k - 1) + {k - 1};
      } else {
        assert NearSet(places, metric, i, k) == NearSet(places, metric, i, k - 1);
      }
    }
  }

  /** The inner loop: `nearby_count` of place `i`. */
  method NearbyCount(places: seq<Place>, metric: Metric, i: nat) returns (count: nat)
    requires i < |places| && Located(places[i].point)
    ensures count == |NearSet(places, metric, i, |places|)|
  {
    var placeCoords := CoordOf(places[i].point);
    count := 0;
    for j := 0 to |places|
      invariant count == NearbyUpTo(places, metric, i, j)
    {
      if i != j {
        var other := places[j];
        if !Located(other.point) {
          continue;
        }
        var distance := DistanceBetween(metric, placeCoords, CoordOf(other.point)).distanceTenths;
        if distance < 20 {
          count := count + 1;
        }
      }
    }
    NearbyCountIsSize(places, metric, i, |places|);
  }

  /** A place heads a cluster: it is located and at least two others are
      near it. */
  predicate Clustered(places: seq<Place>, metric: Metric, i: nat)
    requires i < |places|
  {
    Located(places[i].point) && |NearSet(places, metric, i, |places|)| >= 2
  }

  function GroupsUpTo(places: seq<Place>, metric: Metric, k: nat): seq<string>
    requires k <= |places|
  {
    if k == 0 then [] else GroupsUpTo(places, metric, k - 1) + if Clustered(places, metric, k - 1) then [places[k - 1].name] else []
  }

  /** A name is in `nearby_groups` exactly when it is the name of a place
      heading a cluster. */
  lemma {:induction false} GroupsAreClusters(places: seq<Place>, metric: Metric, k: nat)
    requires k <= |places|
    ensures forall name :: name in GroupsUpTo(places, metric, k) <==>
      exists i :: 0 <= i < k && Clustered(places, metric, i) && places[i].name == name
  {
    if k > 0 {
      GroupsAreClusters(places, metric, k - 1);
    }
  }

  /** The outer loop of the analysis: the names of the places heading a
      cluster, in list order. */
  method NearbyGroups(places: seq<Place>, metric: Metric) returns (nearbyGroups: seq<string>)
    ensures nearbyGroups == GroupsUpTo(places, metric, |places|)
  {
    nearbyGroups := [];
    for i := 0 to |places|
      invariant nearbyGroups == GroupsUpTo(places, metric, i)
    {
      var place := places[i];
      if !Located(place.point) {
        continue;
      }
      var nearbyCount := NearbyCount(places, metric, i);
      if nearbyCount >= 2 {
        nearbyGroups := nearbyGroups + [place.name];
      }
    }
  }

  const SpreadOutTip := "Consider grouping nearby attractions together"
  const LongTripTip := "This is a long-distance trip - consider transportation options"
  const ManyStopsTip := "Many destinations - consider splitting into multiple days"
  const ClusterTip := "Consider visiting these places together: "

  /** The analysis dict; the short-list form has only `efficiency` and
      `suggestions`. */
  datatype Report = Report(efficiency: string, averageDistance: Option<string>, suggestions: seq<string>, nearbyGroups: Option<seq<string>>)

  /** `f"{avg:.1f}km between places"` for `avg = tenths / 10 / gaps`. */
  function AverageText(tenths: nat, gaps: nat): string
    requires gaps > 0
  {
    FormatTenths(RoundHalfEven((tenths as real) / (gaps as real))) + "km between places"
  }

  /** The suggestions, in the order the source appends them. */
  function Tips(tenths: nat, n: nat, groups: seq<string>): seq<string>
    requires n >= 2
  {
      (if tenths > 200 * (n - 1) then [SpreadOutTip] else [])
    + (if tenths > 1000 then [LongTripTip] else [])
    + (if n > 8 then [ManyStopsTip] else [])
    + (if groups != [] then [ClusterTip + Join(Take(groups, 3), ", ")] else [])
  }

  /** Each fixed tip is given exactly when its threshold is passed, at most
      once, and the cluster tip, naming at most three groups, comes last. */
  lemma TipsRules(tenths: nat, n: nat, groups: seq<string>)
    requires n >= 2
    ensures var t := Tips(tenths, n, groups);
      && |t| <= 4
      && (t == [] <==> tenths <= 200 * (n - 1) && tenths <= 1000 && n <= 8 && groups == [])
      && (SpreadOutTip in t <==> tenths > 200 * (n - 1))
      && (LongTripTip in t <==> tenths > 1000)
      && (ManyStopsTip in t <==> n > 8)
      && (groups != [] ==> t[|t| - 1] == ClusterTip + Join(Take(groups, 3), ", ") && |Take(groups, 3)| <= 3)
  {
    var cluster := ClusterTip + Join(Take(groups, 3), ", ");
    assert cluster[39] == ':' && SpreadOutTip[39] == 'g' && LongTripTip[39] == ' ' && ManyStopsTip[39] == 'i';
  }

  /** `r` is the analysis of `places`: "Single destination" with no
      suggestions below two places; otherwise the nearby groups, the tips
      for the total and its average per leg, and the two texts. */
  predicate ReportOf(places: seq<Place>, metric: Metric, r: Report) {
    && (|places| < 2 ==> r == Report("Single destination", None, [], None))
    && (|places| >= 2 ==>
      var n, t := |places|, TotalOf(places, metric);
      var groups := GroupsUpTo(places, metric, n);
      && r.nearbyGroups == Some(groups)
      && r.suggestions == Tips(t.tenths, n, groups)
      && r.efficiency == "Route covers " + TotalText(t) + "km across " + NatToString(n) + " places"
      && r.averageDistance == Some(AverageText(t.tenths, n - 1)))
  }

  /** `analyze_route_efficiency`. The average is `total / (n - 1)` km; it is
      more than 20 km exactly when the total in tenths exceeds `200 (n - 1)`,
      and the total is more than 100 km when it exceeds 1000 tenths. */
  method AnalyzeRouteEfficiency(places: seq<Place>, metric: Metric) returns (r: Report)
    ensures ReportOf(places, metric, r)
  {
    if |places| < 2 {
      return Report("Single destination", None, [], None);
    }
    var totalDistance := TotalDistance(places, metric);
    var totalPlaces := |places|;
    var suggestions: seq<string> := [];
    if totalDistance.tenths > 200 * (totalPlaces - 1) {
      suggestions := suggestions + [SpreadOutTip];
    }
    if totalDistance.tenths > 1000 {
      suggestions := suggestions + [LongTripTip];
    }
    if totalPlaces > 8 {
      suggestions := suggestions + [ManyStopsTip];
    }
    var nearbyGroups := NearbyGroups(places, metric);
    if nearbyGroups != [] {
      suggestions := suggestions + [ClusterTip + Join(Take(nearbyGroups, 3), ", ")];
    }
    assert suggestions == Tips(totalDistance.tenths, totalPlaces, nearbyGroups);
    var average := AverageText(totalDistance.tenths, totalPlaces - 1);
    return Report("Route covers " + TotalText(totalDistance) + "km across " + NatToString(totalPlaces) + " places",
      Some(average), suggestions, Some(nearbyGroups));
  }
}
