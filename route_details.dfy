/** `get_detailed_route_info` (tools/trip_mapper.py:74-125): each place is
    copied with a `route_to_next` record towards its successor, taken from
    the routing service when it answers and from the straight-line
    estimate otherwise. The routing call is an oracle. */
module RouteDetails {
  import opened Common
  import opened Places
  import opened Routes

  /** What `get_route` returns: `None` (no features, or the request
      failed, which it catches), or the first segment's distance in km,
      duration in minutes and its steps (each step is carried as opaque
      text). */
  datatype RouteLookup = NoRoute | Route(distanceKm: real, durationMinutes: real, steps: seq<string>)

  type Routing = (Coord, Coord) -> RouteLookup

  /** The `route_to_next` record from `a` to `b`, whose place is called
      `next`. A routing answer is taken as it is, its minutes written
      truncated; without one, the record carries the straight-line
      estimate and no steps. */
  function RouteToNextFor(routing: Routing, metric: Metric, a: Coord, b: Coord, next: string): (r: RouteToNext)
    ensures r.nextPlace == next
    ensures routing(a, b).Route? ==>
      && r.distanceKm == routing(a, b).distanceKm && r.travelTimeMinutes == routing(a, b).durationMinutes
      && r.routeSteps == routing(a, b).steps
      && r.travelTimeFormatted == IntToString(Truncate(r.travelTimeMinutes)) + " min"
    ensures routing(a, b).NoRoute? ==> r.routeSteps == [] && r.distanceKm >= 0.0 && r.travelTimeMinutes >= 0.0
    ensures routing(a, b).NoRoute? && metric(a, b).None? ==>
      r.distanceKm == 0.0 && r.travelTimeMinutes == 0.0 && r.travelTimeFormatted == "Unknown"
    ensures routing(a, b).NoRoute? && metric(a, b).Some? ==>
      var km := metric(a, b).value;
      && r.distanceKm - 0.05 <= km <= r.distanceKm + 0.05
      && r.travelTimeMinutes - 0.5 <= 5.0 * km <= r.travelTimeMinutes + 0.5
      && r.travelTimeFormatted == NatToString((5.0 * km).Floor) + " min"
  {
    match routing(a, b)
    case Route(km, minutes, steps) => RouteToNext(km, minutes, IntToString(Truncate(minutes)) + " min", steps, next)
    case NoRoute =>
      var d := DistanceBetween(metric, a, b);
      RouteToNext(d.distanceTenths as real / 10.0, d.travelTimeMinutes as real, d.travelTimeFormatted, [], next)
  }

  /** Position `i` is kept: it is the last place, or it and its successor
      both have coordinates. */
  predicate Kept(places: seq<Place>, i: nat)
    requires i < |places|
  {
    i == |places| - 1 || (Located(places[i].point) && Located(places[i + 1].point))
  }

  /** The copy of `places[i]` the loop appends: with its `route_to_next`
      unless it is the last one. */
  function Enhanced(places: seq<Place>, routing: Routing, metric: Metric, i: nat): Place
    requires i < |places| && Kept(places, i)
  {
    if i == |places| - 1 then places[i]
    else
      var next := places[i + 1];
      places[i].(routeToNext := Some(RouteToNextFor(routing, metric, CoordOf(places[i].point), CoordOf(next.point), next.name)))
  }

  /** The list the loop has built after the first `k` places. */
  function DetailedUpTo(places: seq<Place>, routing: Routing, metric: Metric, k: nat): seq<Place>
    requires k <= |places|
  {
    if k == 0 then []
    else
      DetailedUpTo(places, routing, metric, k - 1)
        + (if Kept(places, k - 1) then [Enhanced(places, routing, metric, k - 1)] else [])
  }

  function DetailedRoute(places: seq<Place>, routing: Routing, metric: Metric): seq<Place> {
    if |places| < 2 then places else DetailedUpTo(places, routing, metric, |places|)
  }

  /** `get_detailed_route_info`. The input list is left alone (every
      element appended is a copy). */
  method DetailedRouteInfo(places: seq<Place>, routing: Routing, metric: Metric) returns (enhanced: seq<Place>)
    ensures enhanced == DetailedRoute(places, routing, metric)
  {
    if |places| < 2 {
      return places;
    }
    enhanced := [];
    for i := 0 to |places|
      invariant enhanced == DetailedUpTo(places, routing, metric, i)
    {
      var place := places[i];
      var enhancedPlace := place;
      if i < |places| - 1 {
        var next := places[i + 1];
        if !Located(place.point) || !Located(next.point) {
          assert !Kept(places, i);
          continue;
        }
        var info := RouteToNextFor(routing, metric, CoordOf(place.point), CoordOf(next.point), next.name);
        enhancedPlace := enhancedPlace.(routeToNext := Some(info));
      }
      enhanced := enhanced + [enhancedPlace];
    }
  }

  /** The positions of the first `k` places that are kept, in order. */
  function KeptBelow(places: seq<Place>, k: nat): (r: seq<nat>)
    requires k <= |places|
    ensures forall j :: 0 <= j < |r| ==> r[j] < k
  {
    if k == 0 then [] else KeptBelow(places, k - 1) + (if Kept(places, k - 1) then [k - 1] else [])
  }

  /** The output lists the kept positions, in input order, each as its
      enhanced copy; a position is listed exactly when it is kept. */
  lemma DetailedIsKept(places: seq<Place>, routing: Routing, metric: Metric, k: nat)
    requires k <= |places|
    ensures var d, ks := DetailedUpTo(places, routing, metric, k), KeptBelow(places, k);
      && |d| == |ks|
      && (forall j :: 0 <= j < |ks| ==> Kept(places, ks[j]) && d[j] == Enhanced(places, routing, metric, ks[j]))
      && (forall j, l :: 0 <= j < l < |ks| ==> ks[j] < ks[l])
      && (forall i :: 0 <= i < k ==> (Kept(places, i) <==> i in ks))
  {
    DetailedFollowsKept(places, routing, metric, k);
    KeptBelowIsKept(places, k);
  }

  lemma {:induction false} DetailedFollowsKept(places: seq<Place>, routing: Routing, metric: Metric, k: nat)
    requires k <= |places|
    ensures var d, ks := DetailedUpTo(places, routing, metric, k), KeptBelow(places, k);
      && |d| == |ks|
      && (forall j :: 0 <= j < |ks| ==> Kept(places, ks[j]) && d[j] == Enhanced(places, routing, metric, ks[j]))
  {
    if k > 0 {
      DetailedFollowsKept(places, routing, metric, k - 1);
    }
  }

  /** The kept positions below `k`, increasing, and no other. */
  lemma {:induction false} KeptBelowIsKept(places: seq<Place>, k: nat)
    requires k <= |places|
    ensures var ks := KeptBelow(places, k);
      && (forall j, l :: 0 <= j < l < |ks| ==> ks[j] < ks[l])
      && (forall i :: 0 <= i < k ==> (Kept(places, i) <==> i in ks))
  {
    if k > 0 {
      KeptBelowIsKept(places, k - 1);
      var ks := KeptBelow(places, k - 1);
      var ks' := KeptBelow(places, k);
      forall i | 0 <= i < k - 1 ensures (Kept(places, i) <==> i in ks') {
        assert i in ks ==> i in ks';
        if i in ks' {
          var j :| 0 <= j < |ks'| && ks'[j] == i;
          if j < |ks| {
            assert ks'[j] == ks[j];
          }
        }
      }
      if Kept(places, k - 1) {
        assert ks'[|ks|] == k - 1;
      } else {
        assert k - 1 !in ks';
      }
    }
  }

  /** With every place located nothing is dropped: each place but the
      last gains a route to its successor, and the last is copied as it
      is. */
  lemma AllLocatedKeepsAll(places: seq<Place>, routing: Routing, metric: Metric)
    requires forall i :: 0 <= i < |places| ==> Located(places[i].point)
    ensures var d := DetailedRoute(places, routing, metric);
      && |d| == |places|
      && (|places| >= 2 ==> forall i :: 0 <= i < |places| ==> Kept(places, i) && d[i] == Enhanced(places, routing, metric, i))
  {
    if |places| >= 2 {
      AllLocatedUpTo(places, routing, metric, |places|);
    }
  }

  lemma AllLocatedUpTo(places: seq<Place>, routing: Routing, metric: Metric, k: nat)
    requires k <= |places| && forall i :: 0 <= i < |places| ==> Located(places[i].point)
    ensures var d := DetailedUpTo(places, routing, metric, k);
      |d| == k && forall i :: 0 <= i < k ==> Kept(places, i) && d[i] == Enhanced(places, routing, metric, i)
  {
    DetailedFollowsKept(places, routing, metric, k);
    AllKeptBelow(places, k);
  }

  /** With every place located, every position below `k` is kept. */
  lemma {:induction false} AllKeptBelow(places: seq<Place>, k: nat)
    requires k <= |places| && forall i :: 0 <= i < |places| ==> Located(places[i].point)
    ensures var ks := KeptBelow(places, k);
      |ks| == k && forall i :: 0 <= i < k ==> ks[i] == i
  {
    if k > 0 {
      AllKeptBelow(places, k - 1);
      assert Kept(places, k - 1);
    }
  }

  /** The last place is always in the output, last, unchanged: it never
      gains a `route_to_next`. */
  lemma LastIsKept(places: seq<Place>, routing: Routing, metric: Metric)
    requires |places| > 0
    ensures var d := DetailedRoute(places, routing, metric);
      d != [] && d[|d| - 1] == places[|places| - 1]
  {
  }

  /** A place whose successor lacks coordinates is dropped although it has
      its own: from `[a, b, c]` with only `c` unlocated, `b` disappears and
      `a`'s route leads to `b` while the list goes on with `c`. */
  lemma DropsStopBeforeUnlocated(a: Place, b: Place, c: Place, routing: Routing, metric: Metric)
    requires Located(a.point) && Located(b.point) && !Located(c.point)
    ensures DetailedRoute([a, b, c], routing, metric) ==
      [a.(routeToNext := Some(RouteToNextFor(routing, metric, CoordOf(a.point), CoordOf(b.point), b.name))), c]
  {
    var ps := [a, b, c];
    assert DetailedUpTo(ps, routing, metric, 1) == [Enhanced(ps, routing, metric, 0)];
    assert !Kept(ps, 1) && Kept(ps, 2) && Enhanced(ps, routing, metric, 2) == c;
    assert DetailedUpTo(ps, routing, metric, 2) == DetailedUpTo(ps, routing, metric, 1);
  }
}
