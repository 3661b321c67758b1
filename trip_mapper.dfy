/** tools/trip_mapper.py, the sequencer: the nearest-neighbour ordering of
    a list of places, which annotates the caller's dicts in place. The pass
    attaching to each place the route to its successor is in module
    RouteDetails, the statistics over a route in module TripStats. */
module TripMapper {
  import opened Common
  import opened Places
  import opened Routes

  // ---------------------------------------------------------------------
  // optimize_route: the specification
  // ---------------------------------------------------------------------

  /** The leg the sequencer compares: the straight-line estimate from `from`
      to the place, in tenths of a km. */
  function Leg(metric: Metric, from: Coord, p: Place): nat
    requires Located(p.point)
  {
    DistanceBetween(metric, from, CoordOf(p.point)).distanceTenths
  }

  /** `min_distance`: `float('inf')` until a located place is seen. */
  datatype Extended = Infinite | Finite(tenths: nat)

  predicate Below(d: nat, best: Extended) {
    best.Infinite? || d < best.tenths
  }

  /** `nearest_idx` and `min_distance`. */
  datatype Choice = Choice(pos: nat, best: Extended)

  /** The inner scan of one round (tools/trip_mapper.py:47-61) after the
      first `k` entries of the unvisited pool: the position and distance
      of the place chosen so far. Places without coordinates are passed
      over; a place replaces the current choice only when strictly
      closer. */
  function Scan(pool: seq<Place>, metric: Metric, cur: Coord, k: nat): (r: Choice)
    requires k <= |pool|
    ensures r.best.Infinite? ==> r.pos == 0
    ensures r.best.Finite? ==> r.pos < k && Located(pool[r.pos].point) && r.best.tenths == Leg(metric, cur, pool[r.pos])
  {
    if k == 0 then Choice(0, Infinite)
    else
      var c := Scan(pool, metric, cur, k - 1);
      var p := pool[k - 1];
      if Located(p.point) && Below(Leg(metric, cur, p), c.best) then Choice(k - 1, Finite(Leg(metric, cur, p)))
      else c
  }

  /** The scan finds the strict minimum over the located places of the
      pool, the earliest one among equals, and reports infinity exactly when
      no place of the pool is located. */
  lemma {:induction false} ScanNearest(pool: seq<Place>, metric: Metric, cur: Coord, k: nat)
    requires k <= |pool|
    ensures var c := Scan(pool, metric, cur, k);
      && (c.best.Infinite? <==> forall m :: 0 <= m < k ==> !Located(pool[m].point))
      && (c.best.Finite? ==> forall m :: 0 <= m < k && Located(pool[m].point) ==> c.best.tenths <= Leg(metric, cur, pool[m]))
      && (c.best.Finite? ==> forall m :: 0 <= m < c.pos && Located(pool[m].point) ==> c.best.tenths < Leg(metric, cur, pool[m]))
  {
    if k > 0 {
      ScanNearest(pool, metric, cur, k - 1);
    }
  }

  predicate IndicesIn(unv: seq<nat>, n: nat) {
    forall j :: 0 <= j < |unv| ==> unv[j] < n
  }

  predicate Increasing(unv: seq<nat>) {
    forall j, k :: 0 <= j < k < |unv| ==> unv[j] < unv[k]
  }

  /** The places the unvisited list holds, given by their positions in the
      input list. */
  function Pool(vals: seq<Place>, unv: seq<nat>): (pool: seq<Place>)
    requires IndicesIn(unv, |vals|)
    ensures |pool| == |unv|
    ensures forall j :: 0 <= j < |unv| ==> pool[j] == vals[unv[j]]
  {
    seq(|unv|, j requires 0 <= j < |unv| => vals[unv[j]])
  }

  /** `list.pop(j)`: the list without its `j`-th element. */
  function Remove<T>(s: seq<T>, j: nat): (r: seq<T>)
    requires j < |s|
    ensures |r| == |s| - 1
    ensures forall k :: 0 <= k < |r| ==> r[k] == if k < j then s[k] else s[k + 1]
  {
    s[..j] + s[j + 1..]
  }

  /** The positions a list of positions holds. */
  function Elems(unv: seq<nat>): set<nat> {
    set x | x in unv
  }

  lemma RemoveIncreasing(unv: seq<nat>, j: nat, n: nat)
    requires j < |unv| && Increasing(unv) && IndicesIn(unv, n)
    ensures Increasing(Remove(unv, j)) && IndicesIn(Remove(unv, j), n)
    ensures Elems(Remove(unv, j)) == Elems(unv) - {unv[j]}
  {
    var r := Remove(unv, j);
    forall x | x in Elems(unv) - {unv[j]} ensures x in Elems(r) {
      var m :| 0 <= m < |unv| && unv[m] == x;
      if m < j { assert r[m] == x; } else { assert r[m - 1] == x; }
    }
  }

  /** One visit: the position in the input list of the place popped, and the
      minimum distance it was chosen at. */
  datatype Step = Step(index: nat, distanceTenths: nat)

  /** The visits made, and the exception that ended the loop, if any. */
  datatype Tour = Tour(steps: seq<Step>, raised: Option<Exception>)

  /** The `while unvisited` loop (tools/trip_mapper.py:46-70) from the
      unvisited positions `unv` and the current location `cur`. When no
      place of the pool is located, place 0 is popped at infinite distance
      and building its `route_info` evaluates `int(inf)`, which raises
      OverflowError. */
  function TourFrom(vals: seq<Place>, metric: Metric, unv: seq<nat>, cur: Coord): Tour
    requires IndicesIn(unv, |vals|)
    decreases |unv|
  {
    if unv == [] then Tour([], None)
    else
      var c := Scan(Pool(vals, unv), metric, cur, |unv|);
      if c.best.Infinite? then Tour([], Some(OverflowError))
      else
        var rest := TourFrom(vals, metric, Remove(unv, c.pos), CoordOf(vals[unv[c.pos]].point));
        Tour([Step(unv[c.pos], c.best.tenths)] + rest.steps, rest.raised)
  }

  /** `optimize_route(places, start_location)` on the values of the places:
      empty input is returned as it is; with no start the first place's
      coordinates are read, raising KeyError when it has none. */
  function Optimize(vals: seq<Place>, metric: Metric, start: Option<Coord>): Tour {
    if vals == [] then Tour([], None)
    else if start.None? && !Located(vals[0].point) then Tour([], Some(KeyError))
    else TourFrom(vals, metric, Range(|vals|), StartOf(vals, start))
  }

  function StartOf(vals: seq<Place>, start: Option<Coord>): Coord
    requires vals != [] && (start.Some? || Located(vals[0].point))
  {
    if start.Some? then start.value else CoordOf(vals[0].point)
  }

  function Visited(steps: seq<Step>): set<nat> {
    set k | 0 <= k < |steps| :: steps[k].index
  }

  predicate DistinctSteps(steps: seq<Step>) {
    forall k, l :: 0 <= k < l < |steps| ==> steps[k].index != steps[l].index
  }

  /** The location the `k`-th visit is measured from: the start, then the
      place visited before it. */
  function From(vals: seq<Place>, steps: seq<Step>, cur: Coord, k: nat): Coord {
    if k == 0 || k > |steps| || steps[k - 1].index >= |vals| || !Located(vals[steps[k - 1].index].point) then cur
    else CoordOf(vals[steps[k - 1].index].point)
  }

  /** One round of the loop, taken apart. */
  lemma TourStep(vals: seq<Place>, metric: Metric, unv: seq<nat>, cur: Coord)
    requires IndicesIn(unv, |vals|) && Increasing(unv) && unv != []
    ensures var c := Scan(Pool(vals, unv), metric, cur, |unv|);
      var t := TourFrom(vals, metric, unv, cur);
      && (c.best.Infinite? ==> t == Tour([], Some(OverflowError)) && !Located(vals[unv[0]].point))
      && (c.best.Finite? ==>
            && Increasing(Remove(unv, c.pos)) && IndicesIn(Remove(unv, c.pos), |vals|)
            && Located(vals[unv[c.pos]].point)
            && var rest := TourFrom(vals, metric, Remove(unv, c.pos), CoordOf(vals[unv[c.pos]].point));
               t == Tour([Step(unv[c.pos], c.best.tenths)] + rest.steps, rest.raised))
  {
    var pool := Pool(vals, unv);
    var c := Scan(pool, metric, cur, |unv|);
    ScanNearest(pool, metric, cur, |unv|);
    if c.best.Infinite? {
      assert pool[0] == vals[unv[0]];
    } else {
      RemoveIncreasing(unv, c.pos, |vals|);
    }
  }

  lemma VisitedCons(s: Step, steps: seq<Step>)
    ensures Visited([s] + steps) == {s.index} + Visited(steps)
  {
    var t := [s] + steps;
    assert t[0].index == s.index;
    forall x | x in Visited(t) ensures x in {s.index} + Visited(steps) {
      var k :| 0 <= k < |t| && t[k].index == x;
      if k > 0 { assert steps[k - 1].index == x; }
    }
    forall x | x in Visited(steps) ensures x in Visited(t) {
      var k :| 0 <= k < |steps| && steps[k].index == x;
      assert t[k + 1].index == x;
    }
  }

  /** The positions among `e` of places with coordinates. */
  function LocatedOf(vals: seq<Place>, e: set<nat>): set<nat> {
    set x | x in e && x < |vals| && Located(vals[x].point)
  }

  lemma LocatedOfRemove(vals: seq<Place>, e: set<nat>, i: nat)
    requires i in e && i < |vals| && Located(vals[i].point)
    ensures LocatedOf(vals, e) == {i} + LocatedOf(vals, e - {i})
  {
  }

  lemma DistinctCons(s: Step, steps: seq<Step>)
    requires DistinctSteps(steps) && s.index !in Visited(steps)
    ensures DistinctSteps([s] + steps)
  {
    var t := [s] + steps;
    forall k, l | 0 <= k < l < |t| ensures t[k].index != t[l].index {
      assert t[l] == steps[l - 1];
      if k == 0 { assert steps[l - 1].index in Visited(steps); }
      else { assert t[k] == steps[k - 1]; }
    }
  }

  /** The visits are distinct, and they are exactly the positions of the
      pool whose places have coordinates. */
  lemma {:induction false} TourVisits(vals: seq<Place>, metric: Metric, unv: seq<nat>, cur: Coord)
    requires IndicesIn(unv, |vals|) && Increasing(unv)
    ensures var t := TourFrom(vals, metric, unv, cur);
      && Visited(t.steps) == LocatedOf(vals, Elems(unv))
      && DistinctSteps(t.steps)
    decreases |unv|
  {
    if unv != [] {
      TourStep(vals, metric, unv, cur);
      var c := Scan(Pool(vals, unv), metric, cur, |unv|);
      if c.best.Finite? {
        var i := unv[c.pos];
        var unv' := Remove(unv, c.pos);
        var c' := CoordOf(vals[i].point);
        TourVisits(vals, metric, unv', c');
        var rest := TourFrom(vals, metric, unv', c');
        var t := TourFrom(vals, metric, unv, cur);
        assert t.steps == [Step(i, c.best.tenths)] + rest.steps;
        RemoveIncreasing(unv, c.pos, |vals|);
        assert i in Elems(unv);
        VisitedCons(Step(i, c.best.tenths), rest.steps);
        assert i !in Visited(rest.steps);
        DistinctCons(Step(i, c.best.tenths), rest.steps);
        LocatedOfRemove(vals, Elems(unv), i);
      } else {
        ScanNearest(Pool(vals, unv), metric, cur, |unv|);
        forall x | x in Elems(unv) ensures !Located(vals[x].point) {
          var m :| 0 <= m < |unv| && unv[m] == x;
          assert Pool(vals, unv)[m] == vals[x];
        }
        assert LocatedOf(vals, Elems(unv)) == {};
      }
    }
  }

  /** Every visited position is a place with coordinates. */
  lemma StepsLocated(vals: seq<Place>, steps: seq<Step>, e: set<nat>)
    requires Visited(steps) == LocatedOf(vals, e)
    ensures forall k :: 0 <= k < |steps| ==> steps[k].index < |vals| && Located(vals[steps[k].index].point)
  {
    forall k | 0 <= k < |steps| ensures steps[k].index < |vals| && Located(vals[steps[k].index].point) {
      assert steps[k].index in Visited(steps);
    }
  }

  /** The loop raises exactly when the pool holds a place without
      coordinates, and only after every located one has been visited;
      otherwise every place of the pool is visited. */
  lemma {:induction false} TourRaises(vals: seq<Place>, metric: Metric, unv: seq<nat>, cur: Coord)
    requires IndicesIn(unv, |vals|) && Increasing(unv)
    ensures var t := TourFrom(vals, metric, unv, cur);
      && (t.raised.None? <==> forall x :: x in unv ==> Located(vals[x].point))
      && (t.raised.Some? ==> t.raised == Some(OverflowError))
      && (t.raised.None? ==> |t.steps| == |unv|)
    decreases |unv|
  {
    if unv != [] {
      TourStep(vals, metric, unv, cur);
      var c := Scan(Pool(vals, unv), metric, cur, |unv|);
      if c.best.Finite? {
        var i := unv[c.pos];
        var unv' := Remove(unv, c.pos);
        RemoveIncreasing(unv, c.pos, |vals|);
        TourRaises(vals, metric, unv', CoordOf(vals[i].point));
        forall x | x in unv' ensures x in unv {
          assert x in Elems(unv');
        }
        forall x | x in unv && x != i ensures x in unv' {
          assert x in Elems(unv) && x in Elems(unv');
        }
      } else {
        assert unv[0] in unv;
      }
    }
  }

  /** The round's choice against every located place of the pool, named by
      its position in the input list: none is strictly closer, and one at
      the same distance comes later in the list. */
  lemma ChoiceNearest(vals: seq<Place>, metric: Metric, unv: seq<nat>, cur: Coord)
    requires IndicesIn(unv, |vals|) && Increasing(unv)
    ensures var c := Scan(Pool(vals, unv), metric, cur, |unv|);
      c.best.Finite? ==> forall x :: x in LocatedOf(vals, Elems(unv)) ==>
        && c.best.tenths <= Leg(metric, cur, vals[x])
        && (c.best.tenths == Leg(metric, cur, vals[x]) && x != unv[c.pos] ==> unv[c.pos] < x)
  {
    var pool := Pool(vals, unv);
    var c := Scan(pool, metric, cur, |unv|);
    ScanNearest(pool, metric, cur, |unv|);
    if c.best.Finite? {
      forall x | x in LocatedOf(vals, Elems(unv))
        ensures c.best.tenths <= Leg(metric, cur, vals[x])
        ensures c.best.tenths == Leg(metric, cur, vals[x]) && x != unv[c.pos] ==> unv[c.pos] < x
      {
        var m :| 0 <= m < |unv| && unv[m] == x;
        assert pool[m] == vals[x];
      }
    }
  }

  lemma FromCons(vals: seq<Place>, s: Step, steps: seq<Step>, cur: Coord, k: nat)
    requires s.index < |vals| && Located(vals[s.index].point) && 1 <= k <= |steps| + 1
    requires 1 < k ==> steps[k - 2].index < |vals| && Located(vals[steps[k - 2].index].point)
    ensures From(vals, [s] + steps, cur, k) == From(vals, steps, CoordOf(vals[s.index].point), k - 1)
  {
    if 1 < k {
      assert ([s] + steps)[k - 1] == steps[k - 2];
    }
  }

  /** Visit `l` seen from the location before visit `k` (for `k <= l`, a
      place that was still unvisited when visit `k` was chosen): it is no
      closer than the place chosen at `k`, it is exactly as far as that
      choice when it is that choice, and if it is equally close it comes
      later in the input list. */
  predicate GreedyAt(vals: seq<Place>, metric: Metric, steps: seq<Step>, cur: Coord, k: nat, l: nat) {
    && k <= l < |steps|
    && steps[l].index < |vals| && Located(vals[steps[l].index].point)
    && var d := Leg(metric, From(vals, steps, cur, k), vals[steps[l].index]);
       && steps[k].distanceTenths <= d
       && (k == l ==> steps[k].distanceTenths == d)
       && (k < l && steps[k].distanceTenths == d ==> steps[k].index < steps[l].index)
  }

  /** Nearest-neighbour order of a whole list of visits from `cur`. */
  predicate Greedy(vals: seq<Place>, metric: Metric, steps: seq<Step>, cur: Coord) {
    forall k: nat, l: nat :: k <= l < |steps| ==> GreedyAt(vals, metric, steps, cur, k, l)
  }

  lemma GreedyShift(vals: seq<Place>, metric: Metric, s0: Step, rest: seq<Step>, cur: Coord, k: nat, l: nat)
    requires s0.index < |vals| && Located(vals[s0.index].point) && 1 <= k <= l <= |rest|
    requires forall m :: 0 <= m < |rest| ==> rest[m].index < |vals| && Located(vals[rest[m].index].point)
    requires GreedyAt(vals, metric, rest, CoordOf(vals[s0.index].point), k - 1, l - 1)
    ensures GreedyAt(vals, metric, [s0] + rest, cur, k, l)
  {
    FromCons(vals, s0, rest, cur, k);
    assert ([s0] + rest)[k] == rest[k - 1] && ([s0] + rest)[l] == rest[l - 1];
  }

  /** Greedy choice and tie-break: every visit is at the recorded distance
      from the location before it, no place still unvisited at that moment
      is strictly closer, and a later place at the same distance comes later
      in the input list. */
  lemma {:induction false} TourGreedy(vals: seq<Place>, metric: Metric, unv: seq<nat>, cur: Coord)
    requires IndicesIn(unv, |vals|) && Increasing(unv)
    ensures Greedy(vals, metric, TourFrom(vals, metric, unv, cur).steps, cur)
    decreases |unv|
  {
    var t := TourFrom(vals, metric, unv, cur);
    TourVisits(vals, metric, unv, cur);
    StepsLocated(vals, t.steps, Elems(unv));
    if unv != [] {
      TourStep(vals, metric, unv, cur);
      var c := Scan(Pool(vals, unv), metric, cur, |unv|);
      if c.best.Finite? {
        var i := unv[c.pos];
        var unv' := Remove(unv, c.pos);
        var c' := CoordOf(vals[i].point);
        TourGreedy(vals, metric, unv', c');
        var rest := TourFrom(vals, metric, unv', c');
        var s0 := Step(i, c.best.tenths);
        assert t.steps == [s0] + rest.steps;
        ChoiceNearest(vals, metric, unv, cur);
        TourVisits(vals, metric, unv', c');
        StepsLocated(vals, rest.steps, Elems(unv'));
        forall k, l | 0 <= k <= l < |t.steps| ensures GreedyAt(vals, metric, t.steps, cur, k, l) {
          if k == 0 {
            assert t.steps[l].index in Visited(t.steps);
          } else {
            GreedyShift(vals, metric, s0, rest.steps, cur, k, l);
          }
        }
      }
    }
  }

  lemma RangeIncreasing(n: nat)
    ensures Increasing(Range(n)) && IndicesIn(Range(n), n)
    ensures forall x: nat :: x in Range(n) <==> x < n
  {
    forall x: nat | x < n ensures x in Range(n) { assert Range(n)[x] == x; }
  }

  /** `optimize_route` raises exactly when some place lacks coordinates:
      KeyError when that is the first place and no start is given, else
      OverflowError once every located place has been visited. Without an
      exception the visits are a permutation of the input positions. */
  lemma OptimizePermutes(vals: seq<Place>, metric: Metric, start: Option<Coord>)
    ensures var t := Optimize(vals, metric, start);
      && (vals == [] ==> t == Tour([], None))
      && (t.raised.None? <==> forall i :: 0 <= i < |vals| ==> Located(vals[i].point))
      && (t.raised == Some(KeyError) <==> vals != [] && start.None? && !Located(vals[0].point))
      && (forall k :: 0 <= k < |t.steps| ==> t.steps[k].index < |vals|)
      && DistinctSteps(t.steps)
      && (t.raised.None? ==> |t.steps| == |vals| && forall i :: 0 <= i < |vals| ==> i in Visited(t.steps))
  {
    if vals != [] && (start.Some? || Located(vals[0].point)) {
      RangeTourRaises(vals, metric, StartOf(vals, start));
      RangeTourVisits(vals, metric, StartOf(vals, start));
    }
  }

  /** A tour over the whole input raises exactly when some place lacks
      coordinates, and it raises OverflowError. */
  lemma RangeTourRaises(vals: seq<Place>, metric: Metric, cur: Coord)
    ensures var t := TourFrom(vals, metric, Range(|vals|), cur);
      && (t.raised.None? <==> forall i :: 0 <= i < |vals| ==> Located(vals[i].point))
      && (t.raised.Some? ==> t.raised == Some(OverflowError))
      && (t.raised.None? ==> |t.steps| == |vals|)
  {
    var n := |vals|;
    RangeIncreasing(n);
    TourRaises(vals, metric, Range(n), cur);
    assert (forall x :: x in Range(n) ==> Located(vals[x].point)) <==> (forall i :: 0 <= i < n ==> Located(vals[i].point));
  }

  /** A tour over the whole input visits distinct input positions, and
      every position when it does not raise. */
  lemma RangeTourVisits(vals: seq<Place>, metric: Metric, cur: Coord)
    ensures var t := TourFrom(vals, metric, Range(|vals|), cur);
      && (forall k :: 0 <= k < |t.steps| ==> t.steps[k].index < |vals|)
      && DistinctSteps(t.steps)
      && (t.raised.None? ==> forall i :: 0 <= i < |vals| ==> i in Visited(t.steps))
  {
    var n := |vals|;
    var t := TourFrom(vals, metric, Range(n), cur);
    RangeIncreasing(n);
    var e := Elems(Range(n));
    assert forall x: nat :: x in e <==> x < n;
    TourVisits(vals, metric, Range(n), cur);
    StepsLocated(vals, t.steps, e);
    if t.raised.None? {
      RangeTourRaises(vals, metric, cur);
      forall i | 0 <= i < n ensures i in Visited(t.steps) {
        assert i in LocatedOf(vals, e);
      }
    }
  }

  /** Nearest-neighbour order: each visit is at minimal distance from the
      previous stop (from the start, or `places[0]`, for the first) among the
      places not yet visited, and among equals the one listed first wins. */
  lemma OptimizeGreedy(vals: seq<Place>, metric: Metric, start: Option<Coord>)
    requires vals != [] && (start.Some? || Located(vals[0].point))
    ensures Greedy(vals, metric, Optimize(vals, metric, start).steps, StartOf(vals, start))
  {
    RangeIncreasing(|vals|);
    var t := TourFrom(vals, metric, Range(|vals|), StartOf(vals, start));
    TourGreedy(vals, metric, Range(|vals|), StartOf(vals, start));
    assert Optimize(vals, metric, start) == t;
  }

  /** The `route_info` written for a visit at `d` tenths of a km: the
      distance, five minutes per km, and the minutes truncated as text. */
  function RouteInfoFor(d: nat): (r: RouteInfo)
    ensures r.distanceFromPreviousTenths == d
    ensures r.travelTimeMinutes == 5.0 * (d as real / 10.0)
    ensures r.travelTimeFormatted == NatToString(Truncate(r.travelTimeMinutes)) + " min"
  {
    HalfFloor(d);
    RouteInfo(d, d as real / 2.0, NatToString(d / 2) + " min")
  }

  lemma HalfFloor(d: nat)
    ensures (d as real / 2.0).Floor == d / 2
  {
    var h := d / 2;
    assert d == 2 * h || d == 2 * h + 1;
    assert h as real <= d as real / 2.0 < h as real + 1.0;
  }

  /** The visits done so far followed by the rest of the loop. */
  function Then(done: seq<Step>, t: Tour): Tour {
    Tour(done + t.steps, t.raised)
  }

  // ---------------------------------------------------------------------
  // optimize_route: the method
  // ---------------------------------------------------------------------

  /** The values of the input dicts once the visits `steps` have written
      their `route_info`, in order. */
  function Annotate(vals: seq<Place>, steps: seq<Step>): (r: seq<Place>)
    requires forall k :: 0 <= k < |steps| ==> steps[k].index < |vals|
    ensures |r| == |vals|
  {
    if steps == [] then vals
    else
      var prev := Annotate(vals, steps[..|steps| - 1]);
      var s := steps[|steps| - 1];
      prev[s.index := prev[s.index].(routeInfo := Some(RouteInfoFor(s.distanceTenths)))]
  }

  /** Each visited dict carries the `route_info` of its visit and is
      otherwise as it was; a dict never visited is unchanged. */
  lemma {:induction false} AnnotateEffect(vals: seq<Place>, steps: seq<Step>)
    requires forall k :: 0 <= k < |steps| ==> steps[k].index < |vals|
    requires DistinctSteps(steps)
    ensures forall k :: 0 <= k < |steps| ==>
      Annotate(vals, steps)[steps[k].index] == vals[steps[k].index].(routeInfo := Some(RouteInfoFor(steps[k].distanceTenths)))
    ensures forall i :: 0 <= i < |vals| && i !in Visited(steps) ==> Annotate(vals, steps)[i] == vals[i]
  {
    if steps != [] {
      var init := steps[..|steps| - 1];
      var s := steps[|steps| - 1];
      AnnotateEffect(vals, init);
      VisitedSnoc(init, s);
      assert steps == init + [s];
      forall k | 0 <= k < |init| ensures init[k].index != s.index {
        assert init[k] == steps[k];
      }
      assert s.index !in Visited(init);
    }
  }

  /** Where the objects of the sequencing loop sit: the unvisited list
      holds the dicts at positions `unv` of the input, in order, and the
      route holds, for each visit in `done`, the dict it visited, which is
      no longer unvisited. */
  predicate Positions(places: seq<PlaceObject>, unvisited: seq<PlaceObject>, unv: seq<nat>,
      done: seq<Step>, route: seq<PlaceObject>)
  {
    && |unvisited| == |unv| && IndicesIn(unv, |places|) && Increasing(unv)
    && (forall j :: 0 <= j < |unv| ==> unvisited[j] == places[unv[j]])
    && |route| == |done|
    && (forall k :: 0 <= k < |done| ==>
          done[k].index < |places| && done[k].index !in Elems(unv) && route[k] == places[done[k].index])
  }

  /** The visits `done` so far followed by the tour from `current` over
      the positions `unv` make up the whole tour `full`. */
  ghost predicate TourSoFar(vals: seq<Place>, metric: Metric, full: Tour, unv: seq<nat>, done: seq<Step>, current: Coord) {
    IndicesIn(unv, |vals|) && full == Then(done, TourFrom(vals, metric, unv, current))
  }

  /** What the sequencing loop of `optimize_route` keeps between rounds:
      the positions above, the tour so far, and the visited dicts carry
      their `route_info` while the others are untouched. */
  ghost predicate Sequencing(places: seq<PlaceObject>, vals: seq<Place>, metric: Metric, full: Tour,
      unvisited: seq<PlaceObject>, unv: seq<nat>, done: seq<Step>, route: seq<PlaceObject>, current: Coord)
    reads places
  {
    && |vals| == |places|
    && Positions(places, unvisited, unv, done, route)
    && TourSoFar(vals, metric, full, unv, done, current)
    && Values(places) == Annotate(vals, done)
  }

  /** Moving the `j`-th unvisited dict to the route keeps the positions. */
  lemma PositionsAfterVisit(places: seq<PlaceObject>, unvisited: seq<PlaceObject>, unv: seq<nat>,
      done: seq<Step>, route: seq<PlaceObject>, j: nat, step: Step)
    requires Positions(places, unvisited, unv, done, route)
    requires j < |unv| && step.index == unv[j]
    ensures Positions(places, Remove(unvisited, j), Remove(unv, j), done + [step], route + [unvisited[j]])
  {
    var unvisited1, unv1, done1, route1 := Remove(unvisited, j), Remove(unv, j), done + [step], route + [unvisited[j]];
    RemoveIncreasing(unv, j, |places|);
    forall i | 0 <= i < |unv1| ensures unvisited1[i] == places[unv1[i]] {
      if i < j {
        assert unvisited1[i] == unvisited[i] && unv1[i] == unv[i];
      } else {
        assert unvisited1[i] == unvisited[i + 1] && unv1[i] == unv[i + 1];
      }
    }
    forall k | 0 <= k < |done1|
      ensures done1[k].index < |places| && done1[k].index !in Elems(unv1) && route1[k] == places[done1[k].index]
    {
      if k < |done| {
        assert done1[k] == done[k] && route1[k] == route[k];
        assert done[k].index !in Elems(unv);
      } else {
        assert done1[k] == step && route1[k] == unvisited[j];
      }
    }
  }

  /** One round of the loop seen on the tour: a located nearest place
      extends the visits by one; none located ends the tour in
      OverflowError. */
  lemma TourAfterVisit(vals: seq<Place>, metric: Metric, full: Tour, unv: seq<nat>, done: seq<Step>, current: Coord, c: Choice)
    requires TourSoFar(vals, metric, full, unv, done, current)
    requires IndicesIn(unv, |vals|) && Increasing(unv) && unv != []
    requires c == Scan(Pool(vals, unv), metric, current, |unv|)
    ensures c.best.Infinite? ==> full == Tour(done, Some(OverflowError))
    ensures c.best.Finite? ==>
      && c.pos < |unv| && Located(vals[unv[c.pos]].point)
      && TourSoFar(vals, metric, full, Remove(unv, c.pos), done + [Step(unv[c.pos], c.best.tenths)],
                   CoordOf(vals[unv[c.pos]].point))
  {
    TourStep(vals, metric, unv, current);
    if c.best.Infinite? {
      assert done + [] == done;
    } else {
      var rest := TourFrom(vals, metric, Remove(unv, c.pos), CoordOf(vals[unv[c.pos]].point));
      ThenSnoc(done, Step(unv[c.pos], c.best.tenths), rest);
    }
  }

  /** `optimize_route` (tools/trip_mapper.py:33-72) on the caller's dict
      objects. The route holds the same objects as the input, in the order
      `Optimize` gives, and the dicts end up as `Annotate` says. When an
      exception ends the loop, the objects visited before it stay
      annotated and `route` is the part of the route built so far. */
  method OptimizeRoute(places: seq<PlaceObject>, metric: Metric, start: Option<Coord>)
      returns (route: seq<PlaceObject>, raised: Option<Exception>)
    requires Distinct(places)
    modifies set o | o in places
    ensures var t := Optimize(old(Values(places)), metric, start);
      && raised == t.raised
      && |route| == |t.steps|
      && (forall k :: 0 <= k < |t.steps| ==> t.steps[k].index < |places| && route[k] == places[t.steps[k].index])
      && Values(places) == Annotate(old(Values(places)), t.steps)
    ensures raised.None? ==> |route| == |places| && forall o :: o in places <==> o in route
  {
    ghost var vals := Values(places);
    ghost var full := Optimize(vals, metric, start);
    if |places| == 0 {
      return places, None;
    }
    var current: Coord;
    if start.Some? {
      current := start.value;
    } else {
      var first := places[0].data.point;
      if !Located(first) {
        return [], Some(KeyError);
      }
      current := CoordOf(first);
    }
    route, raised := SequenceFrom(places, vals, metric, start, full, current);
  }

  /** The sequencing loop of `optimize_route` (tools/trip_mapper.py:44-70),
      started from `current`. */
  method SequenceFrom(places: seq<PlaceObject>, ghost vals: seq<Place>, metric: Metric, ghost start: Option<Coord>,
      ghost full: Tour, current: Coord)
      returns (route: seq<PlaceObject>, raised: Option<Exception>)
    requires Distinct(places) && places != []
    requires vals == Values(places) && (start.Some? || Located(vals[0].point))
    requires full == Optimize(vals, metric, start) && current == StartOf(vals, start)
    modifies set o | o in places
    ensures
      && raised == full.raised
      && |route| == |full.steps|
      && (forall k :: 0 <= k < |full.steps| ==> full.steps[k].index < |places| && route[k] == places[full.steps[k].index])
      && Values(places) == Annotate(vals, full.steps)
    ensures raised.None? ==> |route| == |places| && forall o :: o in places <==> o in route
  {
    var unvisited := places;
    ghost var unv := Range(|places|);
    ghost var done: seq<Step> := [];
    route, raised := [], None;
    var here := current;
    SequencingStarts(places, vals, metric, start, full, current);
    while unvisited != []
      invariant Sequencing(places, vals, metric, full, unvisited, unv, done, route, here)
      invariant raised == None
      decreases |unvisited|
    {
      var visited;
      visited, unvisited, unv, done, route, here := VisitNearest(places, vals, metric, full, unvisited, unv, done, route, here);
      if !visited {
        raised := Some(OverflowError);
        break;
      }
    }
    RouteFinished(places, vals, metric, start, full, unv, done, route, here, raised, Values(places));
  }

  /** Before the first round nothing is visited and every position is
      unvisited. */
  lemma SequencingStarts(places: seq<PlaceObject>, vals: seq<Place>, metric: Metric, start: Option<Coord>,
      full: Tour, current: Coord)
    requires places != [] && vals == Values(places) && (start.Some? || Located(vals[0].point))
    requires full == Optimize(vals, metric, start) && current == StartOf(vals, start)
    ensures Sequencing(places, vals, metric, full, places, Range(|places|), [], [], current)
  {
    RangeIncreasing(|places|);
    assert [] + full.steps == full.steps;
  }

  /** One round of the sequencing loop (tools/trip_mapper.py:44-70): find
      the nearest unvisited place, write its `route_info`, move it from the
      unvisited list to the route and go on from it. When no unvisited
      place is located the round stops with nothing changed, and the tour
      ends here in OverflowError. */
  method VisitNearest(places: seq<PlaceObject>, ghost vals: seq<Place>, metric: Metric, ghost full: Tour,
      unvisited: seq<PlaceObject>, ghost unv: seq<nat>, ghost done: seq<Step>, route: seq<PlaceObject>, current: Coord)
      returns (visited: bool, unvisited1: seq<PlaceObject>, ghost unv1: seq<nat>, ghost done1: seq<Step>,
               route1: seq<PlaceObject>, current1: Coord)
    requires Distinct(places) && unvisited != []
    requires Sequencing(places, vals, metric, full, unvisited, unv, done, route, current)
    modifies set o | o in places
    ensures visited ==> Sequencing(places, vals, metric, full, unvisited1, unv1, done1, route1, current1)
    ensures visited ==> |unvisited1| < |unvisited|
    ensures !visited ==> full == Tour(done, Some(OverflowError)) && Values(places) == Annotate(vals, done)
    ensures !visited ==> done1 == done && route1 == route
  {
    AnnotateKeepsPool(vals, done, unv);
    assert Values(unvisited) == Pool(Values(places), unv);
    var choice := Nearest(unvisited, metric, current);
    var nearestIdx, minDistance := choice.pos, choice.best;
    TourAfterVisit(vals, metric, full, unv, done, current, choice);
    if minDistance.Infinite? {
      return false, unvisited, unv, done, route, current;
    }
    ghost var step := Step(unv[nearestIdx], minDistance.tenths);
    PositionsAfterVisit(places, unvisited, unv, done, route, nearestIdx, step);
    AnnotateSnoc(vals, done, step);
    var nearest := unvisited[nearestIdx];
    assert Values(places)[step.index] == Pool(Values(places), unv)[nearestIdx] == vals[step.index];
    unvisited1 := Remove(unvisited, nearestIdx);
    unv1 := Remove(unv, nearestIdx);
    SetRouteInfo(nearest, places, step.index, RouteInfoFor(minDistance.tenths));
    route1 := route + [nearest];
    done1 := done + [step];
    current1 := CoordOf(nearest.data.point);
    return true, unvisited1, unv1, done1, route1, current1;
  }

  /** `nearest['route_info'] = ...`: the one dict object is updated, and
      every list holding it sees the change. */
  method SetRouteInfo(nearest: PlaceObject, places: seq<PlaceObject>, ghost x: nat, info: RouteInfo)
    requires Distinct(places) && x < |places| && places[x] == nearest
    modifies nearest
    ensures var before := old(Values(places));
      Values(places) == before[x := before[x].(routeInfo := Some(info))]
  {
    nearest.data := nearest.data.(routeInfo := Some(info));
    forall j | 0 <= j < |places| && j != x ensures places[j].data == old(places[j].data) {
      assert places[j] != places[x];
    }
  }

  lemma ThenSnoc(done: seq<Step>, step: Step, rest: Tour)
    ensures Then(done, Tour([step] + rest.steps, rest.raised)) == Then(done + [step], rest)
  {
    assert done + ([step] + rest.steps) == (done + [step]) + rest.steps;
  }

  /** One more visit writes the `route_info` of one more dict. */
  lemma AnnotateSnoc(vals: seq<Place>, done: seq<Step>, step: Step)
    requires forall k :: 0 <= k < |done| ==> done[k].index < |vals|
    requires step.index < |vals|
    ensures var prev := Annotate(vals, done);
      Annotate(vals, done + [step]) == prev[step.index := prev[step.index].(routeInfo := Some(RouteInfoFor(step.distanceTenths)))]
  {
    assert (done + [step])[..|done|] == done;
  }

  /** A dict no step visits keeps its value. */
  lemma {:induction false} AnnotateOutside(vals: seq<Place>, steps: seq<Step>, i: nat)
    requires forall k :: 0 <= k < |steps| ==> steps[k].index < |vals|
    requires i < |vals| && forall k :: 0 <= k < |steps| ==> steps[k].index != i
    ensures Annotate(vals, steps)[i] == vals[i]
  {
    if steps != [] {
      AnnotateOutside(vals, steps[..|steps| - 1], i);
    }
  }

  /** The dicts still unvisited are as they were on entry. */
  lemma AnnotateKeepsPool(vals: seq<Place>, steps: seq<Step>, unv: seq<nat>)
    requires forall k :: 0 <= k < |steps| ==> steps[k].index < |vals|
    requires IndicesIn(unv, |vals|)
    requires forall k :: 0 <= k < |steps| ==> steps[k].index !in Elems(unv)
    ensures Pool(Annotate(vals, steps), unv) == Pool(vals, unv)
  {
    forall j | 0 <= j < |unv| ensures Annotate(vals, steps)[unv[j]] == vals[unv[j]] {
      assert unv[j] in Elems(unv);
      AnnotateOutside(vals, steps, unv[j]);
    }
  }

  /** The state the sequencing loop leaves, whether it ran out of places
      or stopped on OverflowError, is what `OptimizeRoute` promises: when
      the unvisited list runs out, the visits so far are the whole tour,
      which visits every input dict once, so the route holds them all. */
  lemma RouteFinished(places: seq<PlaceObject>, vals: seq<Place>, metric: Metric, start: Option<Coord>, full: Tour,
      unv: seq<nat>, done: seq<Step>, route: seq<PlaceObject>, current: Coord, raised: Option<Exception>, now: seq<Place>)
    requires |vals| == |places| && full == Optimize(vals, metric, start)
    requires |route| == |done|
    requires forall k :: 0 <= k < |done| ==> done[k].index < |places| && route[k] == places[done[k].index]
    requires raised.None? ==> unv == [] && TourSoFar(vals, metric, full, unv, done, current)
    requires raised.Some? ==> full == Tour(done, raised)
    requires now == Annotate(vals, done)
    ensures var t := Optimize(vals, metric, start);
      && raised == t.raised
      && |route| == |t.steps|
      && (forall k :: 0 <= k < |t.steps| ==> t.steps[k].index < |places| && route[k] == places[t.steps[k].index])
      && now == Annotate(vals, t.steps)
    ensures raised.None? ==> |route| == |places| && forall o :: o in places <==> o in route
  {
    if raised.None? {
      assert done + [] == done;
      OptimizePermutes(vals, metric, start);
      RouteCoversPlaces(places, route, done);
    }
  }

  /** A route that lists, for every step of a tour visiting each index
      once, the object at that index, holds exactly the objects of the
      input. */
  lemma RouteCoversPlaces(places: seq<PlaceObject>, route: seq<PlaceObject>, done: seq<Step>)
    requires |route| == |done|
    requires forall k :: 0 <= k < |done| ==> done[k].index < |places| && route[k] == places[done[k].index]
    requires forall i :: 0 <= i < |places| ==> i in Visited(done)
    ensures forall o :: o in places <==> o in route
  {
    forall o | o in places ensures o in route {
      var i :| 0 <= i < |places| && places[i] == o;
      assert i in Visited(done);
      var k :| 0 <= k < |done| && done[k].index == i;
      assert route[k] == o;
    }
  }

  /** One scan of the unvisited list (tools/trip_mapper.py:47-61). */
  method Nearest(unvisited: seq<PlaceObject>, metric: Metric, current: Coord) returns (c: Choice)
    ensures c == Scan(Values(unvisited), metric, current, |unvisited|)
  {
    ghost var pool := Values(unvisited);
    var nearestIdx := 0;
    var minDistance := Infinite;
    for i := 0 to |unvisited|
      invariant Choice(nearestIdx, minDistance) == Scan(pool, metric, current, i)
    {
      var place := unvisited[i].data;
      if Located(place.point) {
        var info := DistanceBetween(metric, current, CoordOf(place.point));
        if Below(info.distanceTenths, minDistance) {
          nearestIdx, minDistance := i, Finite(info.distanceTenths);
        }
      }
    }
    return Choice(nearestIdx, minDistance);
  }

  lemma VisitedSnoc(steps: seq<Step>, s: Step)
    ensures Visited(steps + [s]) == Visited(steps) + {s.index}
  {
    var t := steps + [s];
    assert t[|steps|] == s;
    forall x | x in Visited(t) ensures x in Visited(steps) + {s.index} {
      var k :| 0 <= k < |t| && t[k].index == x;
      if k < |steps| { assert steps[k] == t[k]; }
    }
    forall x | x in Visited(steps) ensures x in Visited(t) {
      var k :| 0 <= k < |steps| && steps[k].index == x;
      assert t[k] == steps[k];
    }
  }
}
