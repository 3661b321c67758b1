/** Agents/trip_planner.py: the two planning workflows that use the
    allocation of module TripPlanner. `plan_trip_with_place_selector`
    selects a prefix of the candidates, sorts it by rating, sequences it,
    annotates the legs, allocates the visits to the time budget and splits
    them into days; `create_optimized_itinerary` allocates a prefix of the
    places it is given as they come. */
module TripPlanning {
  import opened Common
  import opened Places
  import opened Sorting
  import opened PlaceFinder
  import opened PlaceSelector
  import opened TripMapper
  import opened RouteDetails
  import opened TripStats
  import opened TripPlanner

  // ---------------------------------------------------------------------
  // plan_trip_with_place_selector (Agents/trip_planner.py:139-237)
  // ---------------------------------------------------------------------

  /** The candidates: the caller's places when there are any, otherwise
      the places the selector fetches and enriches. */
  function TripCandidates(existing: seq<Place>, destination: string, search: PlaceSearch, center: Coord,
                          duration: string, metric: Metric, close: CloseEnough, lookup: DetailLookup): seq<Place> {
    if existing != [] then existing else DetailedPlaces(destination, search, center, duration, metric, close, lookup)
  }

  /** `min(len(detailed_places), days * 2)` */
  function OptimalPlaces(detailed: seq<Place>, days: int): int {
    Min(|detailed|, 2 * days)
  }

  /** `detailed_places[:optimal_places]`, then sorted by rating descending
      and distance ascending. A negative count slices from the end, as
      Python does. */
  function SelectedPlaces(detailed: seq<Place>, days: int): seq<Place> {
    SortBy(Take(detailed, OptimalPlaces(detailed, days)), RatingKey)
  }

  /** `optimize_route(selected_places)` on the values: the visited dicts
      in visiting order, each with its `route_info`, or the exception that
      ends the sequencing. */
  function Routed(vals: seq<Place>, metric: Metric): Outcome<seq<Place>> {
    var t := Optimize(vals, metric, None);
    OptimizePermutes(vals, metric, None);
    if t.raised.Some? then Raised(t.raised.value)
    else
      var annotated := Annotate(vals, t.steps);
      Ok(seq(|t.steps|, k requires 0 <= k < |t.steps| => annotated[t.steps[k].index]))
  }

  /** The selected places sequenced and given their routes to the next
      place (`get_detailed_route_info`). */
  function RouteEnhanced(detailed: seq<Place>, days: int, metric: Metric, routing: Routing): Outcome<seq<Place>> {
    match Routed(SelectedPlaces(detailed, days), metric)
    case Raised(e) => Raised(e)
    case Ok(route) => Ok(DetailedRoute(route, routing, metric))
  }

  /** The plan dict: the itinerary, `total_duration`, the daily breakdown,
      the exploration radius in km and the counts. */
  datatype Planned = Planned(
    itinerary: seq<Place>,
    totalDuration: string,
    dailyBreakdown: seq<DayPlan>,
    radiusKm: int,
    placesExplored: nat,
    placesSelected: nat,
    optimalPlacesForDuration: nat)

  /** What the workflow returns or raises for the candidates `detailed`:
      `None` is the "No places found" error dict; `int(duration)` raises
      ValueError for a string that is not an integer; the sequencing and
      the daily breakdown raise as modelled in their modules. The radius
      uses the lenient `isdigit` reading of the duration. */
  function PlanFrom(detailed: seq<Place>, duration: string, metric: Metric, routing: Routing): Outcome<Option<Planned>> {
    if detailed == [] then Ok(None)
    else
      match ParseInt(duration)
      case None => Raised(ValueError)
      case Some(days) =>
        match RouteEnhanced(detailed, days, metric, routing)
        case Raised(e) => Raised(e)
        case Ok(enhanced) =>
          var m := Fitting(enhanced, 16 * days);
          var stops := PlannedUpTo(enhanced, m);
          match Breakdown(stops, days)
          case Raised(e) => Raised(e)
          case Ok(plans) =>
            Ok(Some(Planned(stops, HoursText(Allocation(stops, PrefixHalfHours(enhanced, m))), plans,
              DynamicRadius(DurationDays(duration)) / 1000, |detailed|, |stops|, |stops|)))
  }

  datatype TripResult =
    | NoPlacesFound
    | Trip(plan: Planned, summary: Option<TripSummary>, analysis: Report)

  /** Fresh dict objects holding `vals`, one per value. */
  method NewObjects(vals: seq<Place>) returns (objs: seq<PlaceObject>)
    ensures Values(objs) == vals && Distinct(objs)
    ensures forall o :: o in objs ==> fresh(o)
  {
    objs := [];
    for i := 0 to |vals|
      invariant |objs| == i && Distinct(objs)
      invariant forall j :: 0 <= j < i ==> objs[j].data == vals[j]
      invariant forall o :: o in objs ==> fresh(o)
    {
      var o := new PlaceObject(vals[i]);
      objs := objs + [o];
    }
  }

  /** `optimized_places = optimize_route(selected_places)` on fresh dict
      objects holding the selected values. */
  method SequencePlaces(vals: seq<Place>, metric: Metric) returns (r: Outcome<seq<Place>>)
    ensures r == Routed(vals, metric)
  {
    var objs := NewObjects(vals);
    var route, raised := OptimizeRoute(objs, metric, None);
    if raised.Some? {
      return Raised(raised.value);
    }
    r := Ok(Values(route));
    ghost var t := Optimize(vals, metric, None);
    assert Values(route) == seq(|t.steps|, k requires 0 <= k < |t.steps| => Annotate(vals, t.steps)[t.steps[k].index]);
  }

  /** The agreement of a workflow result with `PlanFrom`. */
  predicate Agrees(r: Outcome<TripResult>, s: Outcome<Option<Planned>>) {
    && (r.Raised? <==> s.Raised?)
    && (r.Raised? ==> r.exc == s.exc)
    && (r.Ok? ==> (r.value.NoPlacesFound? <==> s.value.None?))
    && (r.Ok? && r.value.Trip? ==> s.value == Some(r.value.plan))
  }

  /** The summary and analysis of a plan are those of its itinerary. */
  predicate Summarised(r: Outcome<TripResult>, metric: Metric) {
    r.Ok? && r.value.Trip? ==>
      && SummaryOf(r.value.plan.itinerary, metric, r.value.summary)
      && ReportOf(r.value.plan.itinerary, metric, r.value.analysis)
  }

  /** `plan_trip_with_place_selector` (Agents/trip_planner.py:144-152):
      the candidates, and the error dict when there are none. */
  method PlanTripWithPlaceSelector(existing: seq<Place>, destination: string, search: PlaceSearch, center: Coord,
                                   duration: string, metric: Metric, close: CloseEnough, lookup: DetailLookup,
                                   routing: Routing)
    returns (r: Outcome<TripResult>)
    ensures Agrees(r, PlanFrom(TripCandidates(existing, destination, search, center, duration, metric, close, lookup),
                               duration, metric, routing))
    ensures Summarised(r, metric)
  {
    var detailedPlaces;
    if existing != [] {
      detailedPlaces := existing;
    } else {
      detailedPlaces := DetailedPlacesForTripPlanning(destination, search, center, duration, metric, close, lookup);
    }
    assert detailedPlaces == TripCandidates(existing, destination, search, center, duration, metric, close, lookup);
    if detailedPlaces == [] {
      return Ok(NoPlacesFound);
    }
    r := PlanWithCandidates(detailedPlaces, duration, metric, routing);
  }

  /** The rest of `plan_trip_with_place_selector`
      (Agents/trip_planner.py:154-236) for a non-empty candidate list. */
  method PlanWithCandidates(detailedPlaces: seq<Place>, duration: string, metric: Metric, routing: Routing)
    returns (r: Outcome<TripResult>)
    requires detailedPlaces != []
    ensures Agrees(r, PlanFrom(detailedPlaces, duration, metric, routing))
    ensures Summarised(r, metric)
  {
    var durationDays := DurationDays(duration);
    var radiusKm := DynamicRadius(durationDays) / 1000;
    var parsed := ParseInt(duration);
    if parsed.None? {
      assert PlanFrom(detailedPlaces, duration, metric, routing) == Raised(ValueError);
      return Raised(ValueError);
    }
    var days := parsed.value;
    var optimal := Min(|detailedPlaces|, 2 * days);
    var selectedPlaces := Take(detailedPlaces, optimal);
    selectedPlaces := SortBy(selectedPlaces, RatingKey);
    assert selectedPlaces == SelectedPlaces(detailedPlaces, days);
    var optimized := SequencePlaces(selectedPlaces, metric);
    if optimized.Raised? {
      assert RouteEnhanced(detailedPlaces, days, metric, routing) == Raised(optimized.exc);
      assert PlanFrom(detailedPlaces, duration, metric, routing) == Raised(optimized.exc);
      return Raised(optimized.exc);
    }
    var enhanced := DetailedRouteInfo(optimized.value, routing, metric);
    assert RouteEnhanced(detailedPlaces, days, metric, routing) == Ok(enhanced);
    var budget := 16 * days;
    var allocation := AllocateStops(enhanced, budget);
    var stops := allocation.stops;
    var dailyBreakdown := DailyBreakdown(stops, days);
    if dailyBreakdown.Raised? {
      assert PlanFrom(detailedPlaces, duration, metric, routing) == Raised(dailyBreakdown.exc);
      return Raised(dailyBreakdown.exc);
    }
    var tripSummary := CreateTripSummary(stops, metric);
    var routeAnalysis := AnalyzeRouteEfficiency(stops, metric);
    var plan := Planned(stops, HoursText(allocation), dailyBreakdown.value, radiusKm, |detailedPlaces|, |stops|, |stops|);
    assert PlanFrom(detailedPlaces, duration, metric, routing) == Ok(Some(plan));
    return Ok(Trip(plan, tripSummary, routeAnalysis));
  }

  // ---------------------------------------------------------------------
  // What the workflow promises
  // ---------------------------------------------------------------------

  /** Sequencing raises exactly when a selected place has no coordinates:
      KeyError when it is the first place, OverflowError otherwise.
      Otherwise every place is visited once, as the same dict with only
      its `route_info` set, and every visited place has coordinates. */
  lemma RoutedShape(vals: seq<Place>, metric: Metric)
    ensures var r := Routed(vals, metric);
      && (r.Raised? <==> exists i :: 0 <= i < |vals| && !Located(vals[i].point))
      && (r.Raised? ==> (r.exc == KeyError <==> !Located(vals[0].point)) && (r.exc == KeyError || r.exc == OverflowError))
      && (r.Ok? ==> |r.value| == |vals| && forall k :: 0 <= k < |r.value| ==>
            && Located(r.value[k].point)
            && exists i :: 0 <= i < |vals| && r.value[k] == vals[i].(routeInfo := r.value[k].routeInfo))
  {
    var t := Optimize(vals, metric, None);
    OptimizePermutes(vals, metric, None);
    if vals != [] && Located(vals[0].point) {
      RangeTourRaises(vals, metric, CoordOf(vals[0].point));
    }
    if t.raised.None? {
      AnnotateEffect(vals, t.steps);
      var r := Routed(vals, metric).value;
      forall k | 0 <= k < |r|
        ensures Located(r[k].point) && exists i :: 0 <= i < |vals| && r[k] == vals[i].(routeInfo := r[k].routeInfo)
      {
        var i := t.steps[k].index;
        assert r[k] == vals[i].(routeInfo := r[k].routeInfo);
      }
    }
  }

  /** The places given routes are the selected ones, all of them, each
      with coordinates: sequencing would have raised for one without, so
      `get_detailed_route_info` drops nothing here. Each is a candidate of
      the prefix `detailed_places[:optimal_places]` with only its
      `route_info` and `route_to_next` changed. */
  lemma EnhancedShape(detailed: seq<Place>, days: int, metric: Metric, routing: Routing)
    ensures var e, sel := RouteEnhanced(detailed, days, metric, routing), SelectedPlaces(detailed, days);
      && (e.Raised? <==> exists i :: 0 <= i < |sel| && !Located(sel[i].point))
      && (e.Ok? ==> |e.value| == |sel| == |Take(detailed, OptimalPlaces(detailed, days))|)
      && (e.Ok? ==> forall j :: 0 <= j < |e.value| ==>
            exists p :: p in Take(detailed, OptimalPlaces(detailed, days))
              && e.value[j] == p.(routeInfo := e.value[j].routeInfo, routeToNext := e.value[j].routeToNext))
  {
    var sel := SelectedPlaces(detailed, days);
    var prefix := Take(detailed, OptimalPlaces(detailed, days));
    RoutedShape(sel, metric);
    SortByMembers(prefix, RatingKey);
    var routed := Routed(sel, metric);
    if routed.Ok? {
      var rv := routed.value;
      var e := DetailedRoute(rv, routing, metric);
      AllLocatedKeepsAll(rv, routing, metric);
      forall j | 0 <= j < |e|
        ensures exists p :: p in prefix && e[j] == p.(routeInfo := e[j].routeInfo, routeToNext := e[j].routeToNext)
      {
        var i :| 0 <= i < |sel| && rv[j] == sel[i].(routeInfo := rv[j].routeInfo);
        assert sel[i] in prefix;
        assert e[j] == sel[i].(routeInfo := e[j].routeInfo, routeToNext := e[j].routeToNext);
      }
    }
  }

  /** With a non-negative number of days the budget check never fails:
      at most `2 * days` places are considered, each costs at most 3.5 of
      the `8 * days` hours, so the `break` is never taken and every place
      that was given routes is planned. */
  lemma BudgetNeverBinds(detailed: seq<Place>, days: int, metric: Metric, routing: Routing)
    requires days >= 0
    requires RouteEnhanced(detailed, days, metric, routing).Ok?
    ensures var e := RouteEnhanced(detailed, days, metric, routing).value;
      && |e| == Min(|detailed|, 2 * days)
      && Fitting(e, 16 * days) == |e|
  {
    EnhancedShape(detailed, days, metric, routing);
    var e := RouteEnhanced(detailed, days, metric, routing).value;
    AllFit(e, 16 * days);
  }

  /** The planned stops have every key the daily breakdown reads. */
  lemma PlannedHaveDayFields(places: seq<Place>, k: nat)
    requires k <= |places|
    ensures forall i :: 0 <= i < k ==> HasDayFields(PlannedUpTo(places, k)[i])
  {
    PlannedStopsKeepPlaces(places, k);
  }

  /** When the workflow answers and when it raises: the error dict for no
      candidates; ValueError for a duration that is not an integer;
      ZeroDivisionError in the daily breakdown for zero days; otherwise an
      exception exactly when a selected place lacks coordinates, and then
      KeyError or OverflowError from the sequencing. */
  lemma PlanOutcomes(detailed: seq<Place>, duration: string, metric: Metric, routing: Routing)
    ensures var s := PlanFrom(detailed, duration, metric, routing);
      && (detailed == [] ==> s == Ok(None))
      && (detailed != [] && ParseInt(duration).None? ==> s == Raised(ValueError))
      && (detailed != [] && ParseInt(duration) == Some(0) ==> s == Raised(ZeroDivisionError))
      && (detailed != [] && ParseInt(duration).Some? && ParseInt(duration) != Some(0) ==>
            var sel := SelectedPlaces(detailed, ParseInt(duration).value);
            && (s.Raised? <==> exists i :: 0 <= i < |sel| && !Located(sel[i].point))
            && (s.Raised? ==> s.exc == KeyError || s.exc == OverflowError)
            && (s.Ok? ==> s.value.Some?))
  {
    if detailed != [] && ParseInt(duration).Some? {
      var days := ParseInt(duration).value;
      var sel := SelectedPlaces(detailed, days);
      EnhancedShape(detailed, days, metric, routing);
      RoutedShape(sel, metric);
      var e := RouteEnhanced(detailed, days, metric, routing);
      if e.Ok? {
        var m := Fitting(e.value, 16 * days);
        PlannedHaveDayFields(e.value, m);
        BreakdownOfStops(PlannedUpTo(e.value, m), days);
      }
    }
  }

  /** The plan for a positive number of days when every selected place has
      coordinates: every place given routes is planned, in route order, so
      `min(len(detailed_places), 2 * days)` stops, and `places_selected`
      and `optimal_places_for_duration` are that count. */
  lemma PlanOfPositiveDays(detailed: seq<Place>, duration: string, metric: Metric, routing: Routing, days: int)
    requires detailed != [] && ParseInt(duration) == Some(days) && days > 0
    requires forall p :: p in SelectedPlaces(detailed, days) ==> Located(p.point)
    ensures var s := PlanFrom(detailed, duration, metric, routing);
      && RouteEnhanced(detailed, days, metric, routing).Ok?
      && var e := RouteEnhanced(detailed, days, metric, routing).value;
      && s.Ok? && s.value.Some?
      && s.value.value.itinerary == PlannedUpTo(e, |e|)
      && |e| == Min(|detailed|, 2 * days) == s.value.value.placesSelected == s.value.value.optimalPlacesForDuration
      && s.value.value.placesExplored == |detailed|
      && Breakdown(s.value.value.itinerary, days) == Ok(s.value.value.dailyBreakdown)
  {
    EnhancedShape(detailed, days, metric, routing);
    var sel := SelectedPlaces(detailed, days);
    assert forall i :: 0 <= i < |sel| ==> Located(sel[i].point) by {
      forall i | 0 <= i < |sel| ensures Located(sel[i].point) {
        assert sel[i] in sel;
      }
    }
    BudgetNeverBinds(detailed, days, metric, routing);
    PlanOutcomes(detailed, duration, metric, routing);
  }

  /** The `j`-th planned stop is a candidate of the prefix
      `detailed_places[:optimal_places]` (a better-rated candidate beyond
      it is never planned), in the `j`-th time slot, with the route to the
      next place computed before the allocation. */
  lemma StopsFromPrefix(detailed: seq<Place>, days: int, metric: Metric, routing: Routing, m: nat)
    requires RouteEnhanced(detailed, days, metric, routing).Ok?
    requires m <= |RouteEnhanced(detailed, days, metric, routing).value|
    ensures var e := RouteEnhanced(detailed, days, metric, routing).value;
      var stops := PlannedUpTo(e, m);
      forall j :: 0 <= j < m ==>
        && (exists p :: p in Take(detailed, OptimalPlaces(detailed, days))
              && stops[j].name == p.name && stops[j].point == p.point && stops[j].rating == p.rating)
        && stops[j].bestTime == Some(TimeSlot(j))
        && stops[j].routeToNext == e[j].routeToNext
  {
    EnhancedShape(detailed, days, metric, routing);
    var e := RouteEnhanced(detailed, days, metric, routing).value;
    var stops := PlannedUpTo(e, m);
    PlannedStopsKeepPlaces(e, m);
    forall j | 0 <= j < m
      ensures exists p :: (p in Take(detailed, OptimalPlaces(detailed, days))
        && stops[j].name == p.name && stops[j].point == p.point && stops[j].rating == p.rating)
    {
      var p :| p in Take(detailed, OptimalPlaces(detailed, days))
        && e[j] == p.(routeInfo := e[j].routeInfo, routeToNext := e[j].routeToNext);
    }
  }

  /** The days of a plan list its stops in order, without the last
      `len % days` when there are at least as many stops as days. */
  lemma PlannedDays(places: seq<Place>, m: nat, days: int)
    requires m <= |places| && days > 0
    ensures var stops := PlannedUpTo(places, m);
      && Breakdown(stops, days).Ok?
      && AllEntries(Breakdown(stops, days).value) == EntriesOf(stops[..CoveredBy(m, PerDay(m, days), days)])
      && (m >= days ==> m - CoveredBy(m, PerDay(m, days), days) == m % days)
  {
    PlannedHaveDayFields(places, m);
    BreakdownOfStops(PlannedUpTo(places, m), days);
    OverflowDropped(m, days);
  }

  /** A negative number of days plans nothing: the budget is negative, so
      not even the first place fits, and the daily loop runs no day. */
  lemma PlanOfNegativeDays(detailed: seq<Place>, duration: string, metric: Metric, routing: Routing, days: int)
    requires detailed != [] && ParseInt(duration) == Some(days) && days < 0
    requires RouteEnhanced(detailed, days, metric, routing).Ok?
    ensures PlanFrom(detailed, duration, metric, routing)
      == Ok(Some(Planned([], "0 hours", [], DynamicRadius(DurationDays(duration)) / 1000, |detailed|, 0, 0)))
  {
    var e := RouteEnhanced(detailed, days, metric, routing).value;
    assert Fitting(e, 16 * days) == 0;
  }

  /** The exploration radius is a whole number of km between 15 and 100,
      so dividing the metres by 1000 loses nothing. */
  lemma RadiusInWholeKm(duration: string)
    ensures var r := DynamicRadius(DurationDays(duration));
      && r == 1000 * (r / 1000)
      && 15 <= r / 1000 <= 100
  {
  }

  /** The prefix is cut before the rating sort: of three candidates for a
      one-day trip, the best-rated third one is never selected. */
  lemma SliceBeforeSort(detailed: seq<Place>)
    requires |detailed| == 3
    requires detailed[2].rating > detailed[0].rating && detailed[2].rating > detailed[1].rating
    ensures detailed[2] !in SelectedPlaces(detailed, 1)
    ensures forall p :: p in SelectedPlaces(detailed, 1) <==> p in detailed[..2]
  {
    SortByMembers(Take(detailed, 2), RatingKey);
  }

  // ---------------------------------------------------------------------
  // create_optimized_itinerary (Agents/trip_planner.py:52-130)
  // ---------------------------------------------------------------------

  /** The itinerary dict. The error dict of the `except` branch has the
      exception, no entries, "0 hours", no places and no
      `optimal_places_for_duration`. */
  datatype ItineraryResult = ItineraryResult(
    error: Option<Exception>,
    entries: seq<Place>,
    totalDuration: string,
    placesVisited: nat,
    optimalPlaces: Option<int>)

  function Failed(e: Exception): ItineraryResult {
    ItineraryResult(Some(e), [], "0 hours", 0, None)
  }

  /** What `create_optimized_itinerary` returns for the places and the
      duration it is given: `int(duration)` fails with ValueError, reading
      the coordinates of a place the loop reaches fails with KeyError. */
  function OptimizedItinerary(places: seq<Place>, duration: string): ItineraryResult {
    match ParseInt(duration)
    case None => Failed(ValueError)
    case Some(days) =>
      var optimal := Min(|places|, 2 * days);
      var selected := Take(places, optimal);
      var m := Fitting(selected, 16 * days);
      if ReachesUnlocated(selected, m) then Failed(KeyError)
      else
        var entries := ItineraryUpTo(selected, m);
        ItineraryResult(None, entries, HoursText(Allocation(entries, PrefixHalfHours(selected, m))), m, Some(optimal))
  }

  /** `create_optimized_itinerary` on its decoded input. */
  method CreateOptimizedItinerary(places: seq<Place>, duration: string) returns (r: ItineraryResult)
    ensures r == OptimizedItinerary(places, duration)
  {
    var parsed := ParseInt(duration);
    if parsed.None? {
      return Failed(ValueError);
    }
    var days := parsed.value;
    var budget := 16 * days;
    var optimalPlaces := Min(|places|, 2 * days);
    var selectedPlaces := Take(places, optimalPlaces);
    var allocation := AllocateVisits(selectedPlaces, budget);
    if allocation.Raised? {
      return Failed(allocation.exc);
    }
    var tripLocations := allocation.value.stops;
    return ItineraryResult(None, tripLocations, HoursText(allocation.value), |tripLocations|, Some(optimalPlaces));
  }

  /** For a non-negative number of days the budget check never fails: the
      itinerary fails exactly when one of the first `2 * days` places
      has no coordinates, and otherwise lists every one of them, in order,
      each with the `i`-th time slot and the cost of its name. */
  lemma ItineraryOfDays(places: seq<Place>, duration: string, days: int)
    requires ParseInt(duration) == Some(days) && days >= 0
    ensures var r, selected := OptimizedItinerary(places, duration), Take(places, Min(|places|, 2 * days));
      && (r.error.Some? <==> exists i :: 0 <= i < |selected| && !Located(selected[i].point))
      && (r.error.Some? ==> r == Failed(KeyError))
      && (r.error.None? ==>
            && r.entries == ItineraryUpTo(selected, |selected|)
            && r.placesVisited == |selected| == Min(|places|, 2 * days)
            && r.optimalPlaces == Some(|selected|))
  {
    var selected := Take(places, Min(|places|, 2 * days));
    AllFit(selected, 16 * days);
  }

  /** A negative number of days lists nothing; the first place is still
      read, so it fails when that place has no coordinates. */
  lemma ItineraryOfNegativeDays(places: seq<Place>, duration: string, days: int)
    requires ParseInt(duration) == Some(days) && days < 0
    ensures var r, selected := OptimizedItinerary(places, duration), Take(places, Min(|places|, 2 * days));
      && (r.error.Some? <==> selected != [] && !Located(selected[0].point))
      && (r.error.None? ==> r.entries == [] && r.totalDuration == "0 hours" && r.optimalPlaces == Some(2 * days))
  {
    var selected := Take(places, Min(|places|, 2 * days));
    assert Fitting(selected, 16 * days) == 0;
  }

  /** Every entry asks for tickets exactly when it costs money, takes the
      slot of its position and keeps the place's name. */
  lemma ItineraryEntries(places: seq<Place>, k: nat)
    requires k <= |places|
    ensures forall i :: 0 <= i < k ==>
      var s := ItineraryUpTo(places, k)[i];
      && s.name == places[i].name && s.bestTime == Some(TimeSlot(i))
      && s.visitDuration == Some(VisitLabel(places[i]))
      && (s.specialRequirements == Some("May require tickets") <==> s.estimatedCost == Some("$10-20"))
  {
    ItineraryPositions(places, k);
  }
}
