/** Agents/trip_planner.py: the itinerary allocation. Visit durations are
    counted in half-hours (2.5 h is 5), so the daily budget of 8 hours is
    16 half-hours. */
module TripPlanner {
  import opened Common
  import opened Places

  // ---------------------------------------------------------------------
  // The rules applied to each place
  // ---------------------------------------------------------------------

  /** `place.get("visit_duration", "2-3 hours")` */
  function VisitLabel(p: Place): string {
    p.visitDuration.GetOr("2-3 hours")
  }

  /** The visit-hour table in half-hours: "2-3" is checked first, then
      "1-2", then "3-4", and anything else counts 2 hours. */
  function VisitHalfHours(tag: string): nat {
    if Contains(tag, "2-3") then 5
    else if Contains(tag, "1-2") then 3
    else if Contains(tag, "3-4") then 7
    else 4
  }

  /** Every visit costs between 1.5 and 3.5 hours; the labels tools/place.py
      produces cost 1.5, 2.5 and 3.5 hours, as does a missing tag (2.5). */
  lemma VisitHalfHoursTable(tag: string)
    ensures 3 <= VisitHalfHours(tag) <= 7
    ensures tag == "2-3 hours" ==> VisitHalfHours(tag) == 5
    ensures tag == "1-2 hours" ==> VisitHalfHours(tag) == 3
    ensures tag == "3-4 hours" ==> VisitHalfHours(tag) == 7
  {
    if tag == "1-2 hours" || tag == "3-4 hours" {
      NotContains23(tag);
    }
    if tag == "3-4 hours" {
      NotContains12(tag);
    }
    if tag == "2-3 hours" {
      assert "2-3" <= tag[0..];
    }
    if tag == "1-2 hours" {
      assert "1-2" <= tag[0..];
    }
    if tag == "3-4 hours" {
      assert "3-4" <= tag[0..];
    }
  }

  lemma NotContains23(tag: string)
    requires tag == "1-2 hours" || tag == "3-4 hours"
    ensures !Contains(tag, "2-3")
  {
    forall i | 0 <= i <= |tag| ensures !("2-3" <= tag[i..]) {
      assert i + 3 > |tag| || tag[i] != '2' || tag[i + 2] != '3';
    }
  }

  lemma NotContains12(tag: string)
    requires tag == "3-4 hours"
    ensures !Contains(tag, "1-2")
  {
    forall i | 0 <= i <= |tag| ensures !("1-2" <= tag[i..]) {
      assert i == |tag| || tag[i] != '1';
    }
  }

  const TimeSlots := ["morning", "afternoon", "evening"]

  /** The `i`-th stop's `best_time`: the slots in turn. */
  function TimeSlot(i: nat): string {
    TimeSlots[i % 3]
  }

  const TicketWords := ["museum", "gallery", "palace", "castle"]

  /** "$10-20" for a name naming a ticketed sight, "Free" otherwise. */
  function EstimatedCost(name: string): string {
    if ContainsAny(Lower(name), TicketWords) then "$10-20" else "Free"
  }

  /** The slots repeat every three stops, and only the three slots occur;
      the cost bucket is one of two values, "$10-20" exactly for a ticketed
      sight. */
  lemma SlotAndCost(i: nat, name: string)
    ensures TimeSlot(i) == TimeSlot(i + 3)
    ensures TimeSlot(i) in TimeSlots && (i % 3 == 0 <==> TimeSlot(i) == "morning")
    ensures EstimatedCost(name) == "$10-20" <==> ContainsAny(Lower(name), TicketWords)
    ensures EstimatedCost(name) == "Free" <==> !ContainsAny(Lower(name), TicketWords)
  {
  }

  // ---------------------------------------------------------------------
  // The greedy allocation
  // ---------------------------------------------------------------------

  /** The half-hours the first `k` places take. */
  function PrefixHalfHours(places: seq<Place>, k: nat): nat
    requires k <= |places|
  {
    if k == 0 then 0 else PrefixHalfHours(places, k - 1) + VisitHalfHours(VisitLabel(places[k - 1]))
  }

  /** The number of places the loop accepts when it has accepted the first
      `k`: it goes on while the next place still fits the budget. */
  function FittingFrom(places: seq<Place>, budget: int, k: nat): (m: nat)
    requires k <= |places|
    ensures k <= m <= |places|
    decreases |places| - k
  {
    if k < |places| && PrefixHalfHours(places, k + 1) <= budget then FittingFrom(places, budget, k + 1) else k
  }

  function Fitting(places: seq<Place>, budget: int): (m: nat)
    ensures m <= |places|
  {
    FittingFrom(places, budget, 0)
  }

  lemma {:induction false} FittingFromShape(places: seq<Place>, budget: int, k: nat)
    requires k <= |places|
    requires forall j :: 1 <= j <= k ==> PrefixHalfHours(places, j) <= budget
    ensures var m := FittingFrom(places, budget, k);
      && k <= m <= |places|
      && (forall j :: 1 <= j <= m ==> PrefixHalfHours(places, j) <= budget)
      && (m < |places| ==> PrefixHalfHours(places, m + 1) > budget)
    decreases |places| - k
  {
    if k < |places| && PrefixHalfHours(places, k + 1) <= budget {
      FittingFromShape(places, budget, k + 1);
    }
  }

  /** The accepted places are a prefix, and the longest one that fits:
      every accepted place fitted when it came, and the first place left
      out is the first that did not fit (there is no backtracking). */
  lemma FittingIsFirstMisfit(places: seq<Place>, budget: int)
    ensures var m := Fitting(places, budget);
      && (forall j :: 1 <= j <= m ==> PrefixHalfHours(places, j) <= budget)
      && (m < |places| ==> PrefixHalfHours(places, m + 1) > budget)
  {
    FittingFromShape(places, budget, 0);
  }

  /** The running total never exceeds the budget. */
  lemma FittingWithinBudget(places: seq<Place>, budget: int)
    ensures var m := Fitting(places, budget);
      m > 0 ==> PrefixHalfHours(places, m) <= budget
  {
    FittingIsFirstMisfit(places, budget);
  }

  lemma {:induction false} PrefixAtMostSeven(places: seq<Place>, k: nat)
    requires k <= |places|
    ensures PrefixHalfHours(places, k) <= 7 * k
  {
    if k > 0 {
      PrefixAtMostSeven(places, k - 1);
      VisitHalfHoursTable(VisitLabel(places[k - 1]));
    }
  }

  /** When every visit of the list fits even at 3.5 hours each, the budget
      check never fails: the `break` is not taken and every place is
      accepted. */
  lemma AllFit(places: seq<Place>, budget: int)
    requires 7 * |places| <= budget
    ensures Fitting(places, budget) == |places|
  {
    FittingIsFirstMisfit(places, budget);
    var m := Fitting(places, budget);
    if m < |places| {
      PrefixAtMostSeven(places, m + 1);
    }
  }

  /** What `total_time` is once the loop ends. */
  datatype Allocation = Allocation(stops: seq<Place>, halfHours: nat)

  /** The itinerary entry `plan_trip_with_place_selector` builds for the
      `i`-th accepted place: its visit tag, the `i`-th time slot, the cost
      bucket, and the place's own requirements, description, point, route
      to the next place, kinds, distance and rating. */
  function PlannedStop(p: Place, i: nat): Place {
    Place(p.name, p.point, p.kinds, Some(VisitLabel(p)), Some(TimeSlot(i)), p.distanceFromCenterTenths, 0, None,
      p.rating, Some(p.description.GetOr("")), false, Some(p.specialRequirements.GetOr("None")),
      Some(EstimatedCost(p.name)), None, p.routeToNext, None)
  }

  function PlannedUpTo(places: seq<Place>, k: nat): (r: seq<Place>)
    requires k <= |places|
    ensures |r| == k
  {
    if k == 0 then [] else PlannedUpTo(places, k - 1) + [PlannedStop(places[k - 1], k - 1)]
  }

  /** The loop of `plan_trip_with_place_selector`
      (Agents/trip_planner.py:172-208) with a budget of `budget`
      half-hours. */
  method AllocateStops(places: seq<Place>, budget: int) returns (a: Allocation)
    ensures a.stops == PlannedUpTo(places, Fitting(places, budget))
    ensures a.halfHours == PrefixHalfHours(places, Fitting(places, budget))
  {
    var tripLocations := [];
    var totalTime := 0;
    for i := 0 to |places|
      invariant tripLocations == PlannedUpTo(places, i)
      invariant totalTime == PrefixHalfHours(places, i)
      invariant FittingFrom(places, budget, i) == Fitting(places, budget)
    {
      var place := places[i];
      var visitHours := VisitHalfHours(VisitLabel(place));
      if totalTime + visitHours <= budget {
        tripLocations := tripLocations + [PlannedStop(place, i)];
        totalTime := totalTime + visitHours;
      } else {
        return Allocation(tripLocations, totalTime);
      }
    }
    return Allocation(tripLocations, totalTime);
  }

  /** Each entry is the stop built from the place at the same position:
      it keeps the place's name, point, route to the next place and
      rating, takes the slot of its position whatever the place's own
      `best_time`, and the cost of its name. */
  lemma {:induction false} PlannedStopsKeepPlaces(places: seq<Place>, k: nat)
    requires k <= |places|
    ensures forall i :: 0 <= i < k ==>
      var s := PlannedUpTo(places, k)[i];
      && s.name == places[i].name && s.point == places[i].point && s.routeToNext == places[i].routeToNext
      && s.rating == places[i].rating && s.visitDuration == Some(VisitLabel(places[i]))
      && s.bestTime == Some(TimeSlot(i)) && s.estimatedCost == Some(EstimatedCost(places[i].name))
      && s.description == Some(places[i].description.GetOr(""))
  {
    if k > 0 {
      PlannedStopsKeepPlaces(places, k - 1);
      assert PlannedUpTo(places, k)[..k - 1] == PlannedUpTo(places, k - 1);
    }
  }

  /** The entry `create_optimized_itinerary` builds: no point, kinds or
      distance; "May require tickets" exactly for the ticketed sights. */
  function ItineraryStop(p: Place, i: nat): Place {
    var ticketed := ContainsAny(Lower(p.name), TicketWords);
    Place(p.name, Point(None, None), "", Some(VisitLabel(p)), Some(TimeSlot(i)), 0, 0, None, 0,
      Some(p.description.GetOr("")), false, Some(if ticketed then "May require tickets" else "None"),
      Some(EstimatedCost(p.name)), None, None, None)
  }

  function ItineraryUpTo(places: seq<Place>, k: nat): (r: seq<Place>)
    requires k <= |places|
    ensures |r| == k
  {
    if k == 0 then [] else ItineraryUpTo(places, k - 1) + [ItineraryStop(places[k - 1], k - 1)]
  }

  /** Entry `i` is built from place `i` with slot `i`. */
  lemma {:induction false} ItineraryPositions(places: seq<Place>, k: nat)
    requires k <= |places|
    ensures forall i :: 0 <= i < k ==> ItineraryUpTo(places, k)[i] == ItineraryStop(places[i], i)
  {
    if k > 0 {
      ItineraryPositions(places, k - 1);
      assert ItineraryUpTo(places, k)[..k - 1] == ItineraryUpTo(places, k - 1);
    }
  }

  /** A ticketed sight is the one that costs money and asks for tickets. */
  lemma ItineraryStopTickets(p: Place, i: nat)
    ensures ItineraryStop(p, i).specialRequirements == Some("May require tickets")
        <==> ItineraryStop(p, i).estimatedCost == Some("$10-20")
  {
  }

  /** The loop of `create_optimized_itinerary`
      (Agents/trip_planner.py:75-111): it reads each place's coordinates
      before testing the budget, so a place it reaches without `lat` and
      `lon` raises KeyError; it reaches the accepted places and the one
      that did not fit. */
  method AllocateVisits(places: seq<Place>, budget: int) returns (r: Outcome<Allocation>)
    ensures r.Raised? <==> ReachesUnlocated(places, Fitting(places, budget))
    ensures r.Raised? ==> r.exc == KeyError
    ensures var m := Fitting(places, budget);
      r.Ok? ==> r.value == Allocation(ItineraryUpTo(places, m), PrefixHalfHours(places, m))
  {
    var tripLocations := [];
    var totalTime := 0;
    for i := 0 to |places|
      invariant tripLocations == ItineraryUpTo(places, i)
      invariant totalTime == PrefixHalfHours(places, i)
      invariant FittingFrom(places, budget, i) == Fitting(places, budget)
      invariant forall j :: 0 <= j < i ==> Located(places[j].point)
    {
      var place := places[i];
      if !Located(place.point) {
        ReachedUnlocated(places, budget, i);
        return Raised(KeyError);
      }
      var visitHours := VisitHalfHours(VisitLabel(place));
      if totalTime + visitHours <= budget {
        tripLocations := tripLocations + [ItineraryStop(place, i)];
        totalTime := totalTime + visitHours;
      } else {
        assert Fitting(places, budget) == i;
        NoneUnlocated(places, i);
        return Ok(Allocation(tripLocations, totalTime));
      }
    }
    NoneUnlocated(places, Fitting(places, budget));
    return Ok(Allocation(tripLocations, totalTime));
  }

  /** Some place among the first `m + 1` has no coordinates. */
  predicate ReachesUnlocated(places: seq<Place>, m: nat) {
    exists i :: 0 <= i < |places| && i <= m && !Located(places[i].point)
  }

  lemma ReachedUnlocated(places: seq<Place>, budget: int, i: nat)
    requires i < |places| && FittingFrom(places, budget, i) == Fitting(places, budget)
    requires !Located(places[i].point)
    ensures ReachesUnlocated(places, Fitting(places, budget))
  {
  }

  lemma NoneUnlocated(places: seq<Place>, m: nat)
    requires forall j :: 0 <= j < |places| && j <= m ==> Located(places[j].point)
    ensures !ReachesUnlocated(places, m)
  {
  }

  /** `f"{total_time} hours"`: the integer 0 while nothing is accepted,
      afterwards a float with one decimal. */
  function HoursText(a: Allocation): string {
    if a.stops == [] then "0 hours"
    else NatToString(a.halfHours / 2) + (if a.halfHours % 2 == 0 then ".0" else ".5") + " hours"
  }

  // ---------------------------------------------------------------------
  // create_daily_breakdown
  // ---------------------------------------------------------------------

  /** One entry of a day: `place`, `duration`, `best_time`, the description
      cut to 100 characters, and `kinds`. */
  datatype DayEntry = DayEntry(place: string, duration: string, bestTime: string, description: string, kinds: string)

  /** `{f"Day {day}": entries}` */
  datatype DayPlan = DayPlan(day: nat, entries: seq<DayEntry>)

  function DayLabel(plan: DayPlan): string {
    "Day " + NatToString(plan.day)
  }

  /** The keys an entry reads with `[...]`. */
  predicate HasDayFields(p: Place) {
    p.visitDuration.Some? && p.bestTime.Some? && p.description.Some?
  }

  /** The entry of a place (the "" defaults are never read: the
      breakdown raises KeyError for a place without those keys). */
  function DayEntryOf(p: Place): DayEntry {
    DayEntry(p.name, p.visitDuration.GetOr(""), p.bestTime.GetOr(""), Abbreviated(p.description.GetOr(""), 100), p.kinds)
  }

  function EntriesOf(s: seq<Place>): seq<DayEntry> {
    seq(|s|, i requires 0 <= i < |s| => DayEntryOf(s[i]))
  }

  /** `max(1, len(places) // days)` */
  function PerDay(n: nat, days: int): (ppd: nat)
    requires days != 0
    ensures ppd >= 1
  {
    Max(1, FloorDiv(n, days))
  }

  /** `(day - 1) * places_per_day`, the first position of day `day`. */
  function DayStart(day: nat, ppd: nat): nat {
    if day <= 1 then 0 else DayStart(day - 1, ppd) + ppd
  }

  lemma {:induction false} DayStartIsProduct(day: nat, ppd: nat)
    requires day >= 1
    ensures DayStart(day, ppd) == (day - 1) * ppd
  {
    if day > 1 {
      DayStartIsProduct(day - 1, ppd);
      assert (day - 1) * ppd == (day - 2) * ppd + ppd;
    }
  }

  /** The places that days `1..k` cover. */
  function CoveredBy(n: nat, ppd: nat, k: nat): nat {
    Min(n, DayStart(k + 1, ppd))
  }

  /** The plans for days `1..k`, with `ppd` places a day. */
  function DaysUpTo(places: seq<Place>, ppd: nat, k: nat): seq<DayPlan> {
    if k == 0 then []
    else
      var start := DayStart(k, ppd);
      var end := Min(start + ppd, |places|);
      DaysUpTo(places, ppd, k - 1)
        + if start < |places| then [DayPlan(k, EntriesOf(places[start..end]))] else []
  }

  /** What `create_daily_breakdown(places, days)` returns or raises: the
      division by zero, a KeyError for a covered entry without
      `visit_duration`, `best_time` or `description`, or the days. */
  function Breakdown(places: seq<Place>, days: int): Outcome<seq<DayPlan>> {
    if days == 0 then Raised(ZeroDivisionError)
    else if days < 0 then Ok([])
    else
      var ppd := PerDay(|places|, days);
      if exists i :: 0 <= i < CoveredBy(|places|, ppd, days) && !HasDayFields(places[i]) then Raised(KeyError)
      else Ok(DaysUpTo(places, ppd, days))
  }

  /** `create_daily_breakdown` (Agents/trip_planner.py:239-263). */
  method DailyBreakdown(places: seq<Place>, days: int) returns (r: Outcome<seq<DayPlan>>)
    ensures r == Breakdown(places, days)
  {
    if days == 0 {
      return Raised(ZeroDivisionError);
    }
    var placesPerDay := Max(1, FloorDiv(|places|, days));
    if days < 0 {
      return Ok([]);
    }
    assert placesPerDay == PerDay(|places|, days);
    var dailyPlans := [];
    for day := 1 to days + 1
      invariant forall i :: 0 <= i < CoveredBy(|places|, placesPerDay, day - 1) ==> HasDayFields(places[i])
      invariant dailyPlans == DaysUpTo(places, placesPerDay, day - 1)
    {
      var startIdx := (day - 1) * placesPerDay;
      var endIdx := Min(startIdx + placesPerDay, |places|);
      DayBounds(|places|, placesPerDay, day, days);
      if startIdx < |places| {
        var dayPlaces;
        dayPlaces := DayEntries(places, startIdx, endIdx);
        if dayPlaces.Raised? {
          var i :| startIdx <= i < endIdx && !HasDayFields(places[i]);
          assert i < CoveredBy(|places|, placesPerDay, days);
          return Raised(KeyError);
        }
        dailyPlans := dailyPlans + [DayPlan(day, dayPlaces.value)];
      }
    }
    return Ok(dailyPlans);
  }

  /** Day `day` of `days` covers positions `(day - 1) * ppd` up to
      `min(day * ppd, n)`, right after the earlier days, and no later than
      the last day's end. */
  lemma DayBounds(n: nat, ppd: nat, day: nat, days: nat)
    requires 1 <= day <= days
    ensures var start, end := (day - 1) * ppd, Min((day - 1) * ppd + ppd, n);
      && DayStart(day, ppd) == start
      && (start < n ==> CoveredBy(n, ppd, day - 1) == start && CoveredBy(n, ppd, day) == end)
      && (start >= n ==> CoveredBy(n, ppd, day) == n && CoveredBy(n, ppd, day - 1) == n)
      && CoveredBy(n, ppd, day) <= CoveredBy(n, ppd, days)
  {
    DayStartIsProduct(day, ppd);
    DayStartMonotone(day + 1, days + 1, ppd);
    if day > 1 {
      DayStartMonotone(day - 1, day, ppd);
    }
  }

  method DayEntries(places: seq<Place>, start: nat, end: nat) returns (r: Outcome<seq<DayEntry>>)
    requires start <= end <= |places|
    ensures r.Raised? <==> exists i :: start <= i < end && !HasDayFields(places[i])
    ensures r.Ok? ==> r.value == EntriesOf(places[start..end])
    ensures r.Raised? ==> r.exc == KeyError
  {
    var dayPlaces := places[start..end];
    var entries := [];
    for j := 0 to |dayPlaces|
      invariant forall i :: start <= i < start + j ==> HasDayFields(places[i])
      invariant entries == EntriesOf(dayPlaces[..j])
    {
      if !HasDayFields(dayPlaces[j]) {
        assert !HasDayFields(places[start + j]);
        return Raised(KeyError);
      }
      assert dayPlaces[..j + 1][..j] == dayPlaces[..j];
      entries := entries + [DayEntryOf(dayPlaces[j])];
    }
    assert dayPlaces[..|dayPlaces|] == dayPlaces;
    return Ok(entries);
  }

  /** Concatenation of the days' entries. */
  function AllEntries(plans: seq<DayPlan>): seq<DayEntry> {
    if plans == [] then [] else AllEntries(plans[..|plans| - 1]) + plans[|plans| - 1].entries
  }

  lemma EntriesOfAppend(s: seq<Place>, t: seq<Place>)
    ensures EntriesOf(s + t) == EntriesOf(s) + EntriesOf(t)
  {
  }

  lemma {:induction false} DayStartMonotone(a: nat, b: nat, ppd: nat)
    requires a <= b
    ensures DayStart(a, ppd) <= DayStart(b, ppd)
    decreases b - a
  {
    if a < b {
      DayStartMonotone(a, b - 1, ppd);
    }
  }

  /** The days are numbered 1, 2, ... without gaps, at most `k` of them,
      and none is empty. */
  lemma {:induction false} DaysNumbered(places: seq<Place>, ppd: nat, k: nat)
    requires ppd >= 1
    ensures |DaysUpTo(places, ppd, k)| <= k
    ensures forall j :: 0 <= j < |DaysUpTo(places, ppd, k)| ==>
      DaysUpTo(places, ppd, k)[j].day == j + 1 && DaysUpTo(places, ppd, k)[j].entries != []
  {
    if k > 0 {
      DayStartMonotone(k, k + 1, ppd);
      DaysNumbered(places, ppd, k - 1);
      var before := DaysUpTo(places, ppd, k - 1);
      var start := DayStart(k, ppd);
      if start < |places| {
        DaysCount(places, ppd, k - 1);
        var end := Min(start + ppd, |places|);
        assert DaysUpTo(places, ppd, k) == before + [DayPlan(k, EntriesOf(places[start..end]))];
      } else {
        assert DaysUpTo(places, ppd, k) == before;
      }
    }
  }

  /** Together the days list the covered places, in order. */
  lemma {:induction false} DaysPartition(places: seq<Place>, ppd: nat, k: nat)
    requires ppd >= 1
    ensures AllEntries(DaysUpTo(places, ppd, k)) == EntriesOf(places[..CoveredBy(|places|, ppd, k)])
  {
    if k > 0 {
      var n := |places|;
      DayStartMonotone(k, k + 1, ppd);
      DaysPartition(places, ppd, k - 1);
      var before := DaysUpTo(places, ppd, k - 1);
      var plans := DaysUpTo(places, ppd, k);
      var start := DayStart(k, ppd);
      var lo, hi := CoveredBy(n, ppd, k - 1), CoveredBy(n, ppd, k);
      if start < n {
        assert lo == start && hi == Min(start + ppd, n);
        assert plans == before + [DayPlan(k, EntriesOf(places[start..hi]))];
        assert plans[..|plans| - 1] == before;
        assert places[..hi] == places[..lo] + places[start..hi];
        EntriesOfAppend(places[..lo], places[start..hi]);
      } else {
        assert lo == n == hi;
        assert plans == before;
      }
    }
  }

  /** Every day whose first position is inside the list gets a plan. */
  lemma {:induction false} DaysCount(places: seq<Place>, ppd: nat, k: nat)
    requires ppd >= 1
    ensures DayStart(k, ppd) < |places| ==> |DaysUpTo(places, ppd, k)| == k
  {
    if k > 0 {
      DayStartMonotone(k, k + 1, ppd);
      DayStartMonotone(k - 1, k, ppd);
      DaysCount(places, ppd, k - 1);
    }
  }

  /** With at least as many places as days, each day gets `len // days`
      places and the last `len % days` places appear in no day; with fewer
      places each place gets a day of its own and nothing is dropped. */
  lemma OverflowDropped(n: nat, days: int)
    requires days > 0
    ensures var ppd := PerDay(n, days);
      && (n >= days ==> ppd == n / days && n - CoveredBy(n, ppd, days) == n % days)
      && (n < days ==> ppd == 1 && CoveredBy(n, ppd, days) == n)
  {
    var ppd := PerDay(n, days);
    DayStartIsProduct(days + 1, ppd);
    if n >= days {
      assert n / days >= 1;
      assert days * (n / days) <= n;
    }
  }

  /** `create_daily_breakdown` raises ZeroDivisionError exactly for zero
      days; for entries that have the keys it reads and a positive number
      of days it returns the consecutive, non-empty days "Day 1", "Day 2",
      ... holding the covered entries in order. */
  lemma BreakdownOfStops(places: seq<Place>, days: int)
    requires forall i :: 0 <= i < |places| ==> HasDayFields(places[i])
    ensures days == 0 <==> Breakdown(places, days).Raised?
    ensures days < 0 ==> Breakdown(places, days) == Ok([])
    ensures days > 0 ==>
      var plans := Breakdown(places, days).value;
      var ppd := PerDay(|places|, days);
      && (forall j :: 0 <= j < |plans| ==> plans[j].day == j + 1 && plans[j].entries != [])
      && AllEntries(plans) == EntriesOf(places[..CoveredBy(|places|, ppd, days)])
  {
    if days > 0 {
      DaysNumbered(places, PerDay(|places|, days), days);
      DaysPartition(places, PerDay(|places|, days), days);
    }
  }
}
