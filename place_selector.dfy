/** Agents/place_selector.py: `get_detailed_places_for_trip_planning`
    fetches the candidates of tools/place.py for the trip length, looks
    each one up in the place-detail service (modelled as an oracle), builds
    the detailed dict and sorts those by rating, then distance. */
module PlaceSelector {
  import opened Common
  import opened Places
  import opened Sorting
  import opened PlaceFinder

  /** `int(duration) if duration.isdigit() else 1`. */
  function DurationDays(duration: string): (days: int)
    ensures days >= 0
    ensures !IsDigitString(duration) ==> days == 1
    ensures IsDigitString(duration) ==> ParseInt(duration) == Some(days)
  {
    if IsDigitString(duration) then
      ParseIntOfDigitString(duration);
      DigitsValue(duration)
    else 1
  }

  /** `min(duration_days * 3, 40)`: three places a day, forty at most. */
  function MaxPlaces(days: int): (r: int)
    ensures r <= 40 && r <= 3 * days
    ensures r == 40 || r == 3 * days
  {
    Min(days * 3, 40)
  }

  /** The rate the detail service reports: a number, or a value Python
      cannot compare with `3` (the comparison raises TypeError). An absent
      rate is the number 0. */
  datatype DetailRate = RateNumber(value: real) | RateText

  /** One detail request: it raises (the request or the JSON decoding),
      answers with a status other than 200, or answers with the Wikipedia
      extract text (absent is "") and the rate. */
  datatype DetailAnswer = LookupRaises | NotOk | Answer(text: string, rate: DetailRate)

  type DetailLookup = string -> DetailAnswer

  /** `place.get('xid')` is truthy: present and not empty. */
  predicate HasXid(p: Place) {
    p.xid.Some? && p.xid.value != ""
  }

  function DefaultDescription(name: string, destination: string): string {
    "Visit " + name + " in " + destination
  }

  /** The detailed dict: the place's own fields with their defaults, the
      description and popularity worked out for it, and its `rate` (0 when
      absent) under the key `rating`. It has no 'xid' and no 'rate'. */
  function DetailedPlace(p: Place, description: string, isPopular: bool): Place {
    Place(p.name, p.point, p.kinds, Some(p.visitDuration.GetOr("2-3 hours")), Some(p.bestTime.GetOr("morning")),
      p.distanceFromCenterTenths, 0, None, p.rate, Some(description), isPopular, None, None, None, None, None)
  }

  /** The body of the per-place `try`: `None` when it raises, so that the
      place is skipped. */
  function Enriched(p: Place, destination: string, lookup: DetailLookup): Option<Place> {
    var default := DefaultDescription(p.name, destination);
    if !HasXid(p) then Some(DetailedPlace(p, default, false))
    else
      match lookup(p.xid.value)
      case LookupRaises => None
      case NotOk => Some(DetailedPlace(p, default, false))
      case Answer(text, rate) =>
        match rate
        case RateText => None
        case RateNumber(v) => Some(DetailedPlace(p, if text != "" then Abbreviated(text, 200) else default, v > 3.0))
  }

  /** The list the loop has built after the first `k` places. */
  function EnrichedUpTo(places: seq<Place>, destination: string, lookup: DetailLookup, k: nat): seq<Place>
    requires k <= |places|
  {
    if k == 0 then []
    else
      var e := Enriched(places[k - 1], destination, lookup);
      EnrichedUpTo(places, destination, lookup, k - 1) + if e.Some? then [e.value] else []
  }

  /** The sort key `(-rating, distance_from_center)`. */
  function RatingKey(p: Place): Key {
    (-p.rating, p.distanceFromCenterTenths)
  }

  /** What `get_detailed_places_for_trip_planning` returns. */
  function DetailedPlaces(destination: string, search: PlaceSearch, center: Coord, duration: string,
                          metric: Metric, close: CloseEnough, lookup: DetailLookup): seq<Place> {
    var days := DurationDays(duration);
    var places := Candidates(search, center, days, MaxPlaces(days), metric, close);
    SortBy(EnrichedUpTo(places, destination, lookup, |places|), RatingKey)
  }

  /** `get_detailed_places_for_trip_planning`. */
  method DetailedPlacesForTripPlanning(destination: string, search: PlaceSearch, center: Coord, duration: string,
                                       metric: Metric, close: CloseEnough, lookup: DetailLookup)
    returns (detailedPlaces: seq<Place>)
    ensures detailedPlaces == DetailedPlaces(destination, search, center, duration, metric, close, lookup)
  {
    var durationDays := DurationDays(duration);
    var maxPlaces := Min(durationDays * 3, 40);
    var places := PlacesWithDynamicRadius(search, center, durationDays, maxPlaces, metric, close);
    detailedPlaces := [];
    for i := 0 to |places|
      invariant detailedPlaces == EnrichedUpTo(places, destination, lookup, i)
    {
      var place := places[i];
      var description: string;
      var isPopular: bool;
      if HasXid(place) {
        var detailResponse := lookup(place.xid.value);
        if detailResponse.LookupRaises? {
          continue;
        }
        if detailResponse.Answer? {
          description := detailResponse.text;
          if description != "" {
            description := Abbreviated(description, 200);
          } else {
            description := DefaultDescription(place.name, destination);
          }
          if detailResponse.rate.RateText? {
            continue;
          }
          isPopular := detailResponse.rate.value > 3.0;
        } else {
          description := DefaultDescription(place.name, destination);
          isPopular := false;
        }
      } else {
        description := DefaultDescription(place.name, destination);
        isPopular := false;
      }
      detailedPlaces := detailedPlaces + [DetailedPlace(place, description, isPopular)];
    }
    detailedPlaces := SortBy(detailedPlaces, RatingKey);
  }

  /** What one place becomes. It is skipped exactly when it has an 'xid'
      and the lookup raises or reports a rate that is not a number.
      Otherwise the entry keeps its name, point, kinds, distance and rate
      (as `rating`), with the default visit duration and best time where
      those are missing; it is popular only when the lookup answered with a
      rate above 3; and its description is the shortened extract when the
      lookup answered with one, "Visit {name} in {destination}" otherwise. */
  lemma EnrichedRules(p: Place, destination: string, lookup: DetailLookup)
    ensures var e := Enriched(p, destination, lookup);
      e.None? <==> HasXid(p) && (lookup(p.xid.value).LookupRaises? || (lookup(p.xid.value).Answer? && lookup(p.xid.value).rate.RateText?))
    ensures var e := Enriched(p, destination, lookup);
      e.Some? ==>
        && e.value.name == p.name && e.value.point == p.point && e.value.kinds == p.kinds
        && e.value.distanceFromCenterTenths == p.distanceFromCenterTenths && e.value.rating == p.rate
        && e.value.visitDuration == Some(p.visitDuration.GetOr("2-3 hours"))
        && e.value.bestTime == Some(p.bestTime.GetOr("morning"))
        && e.value.xid.None? && e.value.rate == 0
        && (e.value.isPopular <==> HasXid(p) && lookup(p.xid.value).Answer? && lookup(p.xid.value).rate.value > 3.0)
        && e.value.description ==
             if HasXid(p) && lookup(p.xid.value).Answer? && lookup(p.xid.value).text != ""
             then Some(Abbreviated(lookup(p.xid.value).text, 200))
             else Some(DefaultDescription(p.name, destination))
  {
  }

  /** The positions below `k` whose place is not skipped, in order. */
  function NotSkippedBelow(places: seq<Place>, destination: string, lookup: DetailLookup, k: nat): (r: seq<nat>)
    requires k <= |places|
    ensures |r| <= k && forall j :: 0 <= j < |r| ==> r[j] < k
  {
    if k == 0 then []
    else
      NotSkippedBelow(places, destination, lookup, k - 1)
        + (if Enriched(places[k - 1], destination, lookup).Some? then [k - 1] else [])
  }

  /** Entry `j` of the list is the entry of the `j`-th place not skipped. */
  lemma {:induction false} EnrichedFollowsNotSkipped(places: seq<Place>, destination: string, lookup: DetailLookup, k: nat)
    requires k <= |places|
    ensures var e, xs := EnrichedUpTo(places, destination, lookup, k), NotSkippedBelow(places, destination, lookup, k);
      && |e| == |xs|
      && forall j :: 0 <= j < |xs| ==> Enriched(places[xs[j]], destination, lookup) == Some(e[j])
  {
    if k > 0 {
      EnrichedFollowsNotSkipped(places, destination, lookup, k - 1);
    }
  }

  /** The positions not skipped below `k`, increasing, and no other. */
  lemma {:induction false} NotSkippedBelowIsNotSkipped(places: seq<Place>, destination: string, lookup: DetailLookup, k: nat)
    requires k <= |places|
    ensures var xs := NotSkippedBelow(places, destination, lookup, k);
      && (forall j, l :: 0 <= j < l < |xs| ==> xs[j] < xs[l])
      && (forall x :: 0 <= x < k ==> (Enriched(places[x], destination, lookup).Some? <==> x in xs))
  {
    if k > 0 {
      NotSkippedBelowIsNotSkipped(places, destination, lookup, k - 1);
      var xs := NotSkippedBelow(places, destination, lookup, k - 1);
      var xs' := NotSkippedBelow(places, destination, lookup, k);
      forall x | 0 <= x < k - 1 ensures (Enriched(places[x], destination, lookup).Some? <==> x in xs') {
        assert x in xs ==> x in xs';
        if x in xs' {
          var j :| 0 <= j < |xs'| && xs'[j] == x;
          if j < |xs| {
            assert xs'[j] == xs[j];
          }
        }
      }
    }
  }

  /** One entry per place that is not skipped, in place order: the list
      follows the increasing positions of the places not skipped, each as
      its entry, and a skipped place costs only its own entry. */
  lemma EnrichedKeepsOrder(places: seq<Place>, destination: string, lookup: DetailLookup, k: nat)
    requires k <= |places|
    ensures var e, xs := EnrichedUpTo(places, destination, lookup, k), NotSkippedBelow(places, destination, lookup, k);
      && |e| == |xs| <= k
      && (forall j :: 0 <= j < |xs| ==> Enriched(places[xs[j]], destination, lookup) == Some(e[j]))
      && (forall j, l :: 0 <= j < l < |xs| ==> xs[j] < xs[l])
      && (forall x :: 0 <= x < k ==> (Enriched(places[x], destination, lookup).Some? <==> x in xs))
    ensures forall p :: p in EnrichedUpTo(places, destination, lookup, k) <==>
      exists x :: 0 <= x < k && Enriched(places[x], destination, lookup) == Some(p)
  {
    EnrichedFollowsNotSkipped(places, destination, lookup, k);
    NotSkippedBelowIsNotSkipped(places, destination, lookup, k);
    EnrichedMembers(places, destination, lookup, k);
  }

  /** The entries are exactly those of the places not skipped. */
  lemma {:induction false} EnrichedMembers(places: seq<Place>, destination: string, lookup: DetailLookup, k: nat)
    requires k <= |places|
    ensures |EnrichedUpTo(places, destination, lookup, k)| <= k
    ensures forall p :: p in EnrichedUpTo(places, destination, lookup, k) <==>
      exists x :: 0 <= x < k && Enriched(places[x], destination, lookup) == Some(p)
  {
    if k > 0 {
      EnrichedMembers(places, destination, lookup, k - 1);
      var before := EnrichedUpTo(places, destination, lookup, k - 1);
      var e := Enriched(places[k - 1], destination, lookup);
      forall p ensures p in EnrichedUpTo(places, destination, lookup, k) <==>
        exists x :: 0 <= x < k && Enriched(places[x], destination, lookup) == Some(p)
      {
        if p in EnrichedUpTo(places, destination, lookup, k) && p !in before {
          assert e == Some(p);
        }
        if exists x :: 0 <= x < k && Enriched(places[x], destination, lookup) == Some(p) {
          var x :| 0 <= x < k && Enriched(places[x], destination, lookup) == Some(p);
          if x == k - 1 {
            assert p in EnrichedUpTo(places, destination, lookup, k);
          } else {
            assert p in before;
          }
        }
      }
    }
  }

  /** The result is sorted by rating descending, then distance ascending,
      and it lists exactly the entries of the places that were not skipped. */
  lemma DetailedPlacesShape(destination: string, search: PlaceSearch, center: Coord, duration: string,
                            metric: Metric, close: CloseEnough, lookup: DetailLookup)
    ensures var r := DetailedPlaces(destination, search, center, duration, metric, close, lookup);
      var places := Candidates(search, center, DurationDays(duration), MaxPlaces(DurationDays(duration)), metric, close);
      && SortedBy(r, RatingKey)
      && multiset(r) == multiset(EnrichedUpTo(places, destination, lookup, |places|))
      && |r| <= |places| <= 40
      && forall p :: p in r <==> exists x :: 0 <= x < |places| && Enriched(places[x], destination, lookup) == Some(p)
  {
    var days := DurationDays(duration);
    var places := Candidates(search, center, days, MaxPlaces(days), metric, close);
    var acc := EnrichedUpTo(places, destination, lookup, |places|);
    SortBySorted(acc, RatingKey);
    SortByPermutes(acc, RatingKey);
    SortByMembers(acc, RatingKey);
    EnrichedKeepsOrder(places, destination, lookup, |places|);
    CandidatesSorted(search, center, days, MaxPlaces(days), metric, close);
  }

  /** The entry of a place that has no 'xid' and no 'rate'. */
  function Plain(p: Place, destination: string): Place {
    DetailedPlace(p, DefaultDescription(p.name, destination), false)
  }

  /** Places without an 'xid' are never skipped and never looked up. */
  lemma {:induction false} EnrichedWithoutXid(places: seq<Place>, destination: string, lookup: DetailLookup, k: nat)
    requires k <= |places|
    requires forall p :: p in places ==> CarriesNoDetails(p)
    ensures |EnrichedUpTo(places, destination, lookup, k)| == k
    ensures forall i :: 0 <= i < k ==> EnrichedUpTo(places, destination, lookup, k)[i] == Plain(places[i], destination)
  {
    if k > 0 {
      EnrichedWithoutXid(places, destination, lookup, k - 1);
      assert places[k - 1] in places;
    }
  }

  /** Entries in distance order, all rated 0, are already in rating order. */
  lemma PlainSorted(places: seq<Place>, destination: string)
    requires SortedBy(places, CandidateKey)
    requires forall p :: p in places ==> CarriesNoDetails(p)
    ensures SortedBy(seq(|places|, i requires 0 <= i < |places| => Plain(places[i], destination)), RatingKey)
  {
    var plain := seq(|places|, i requires 0 <= i < |places| => Plain(places[i], destination));
    forall i, j | 0 <= i < j < |plain| ensures KeyLe(RatingKey(plain[i]), RatingKey(plain[j])) {
      assert places[i] in places && places[j] in places;
      assert KeyLe(CandidateKey(places[i]), CandidateKey(places[j]));
    }
  }

  /** Sorting the entries of such places by rating changes nothing. */
  lemma PlainOrder(places: seq<Place>, destination: string, lookup: DetailLookup)
    requires SortedBy(places, CandidateKey)
    requires forall p :: p in places ==> CarriesNoDetails(p)
    ensures SortBy(EnrichedUpTo(places, destination, lookup, |places|), RatingKey)
         == seq(|places|, i requires 0 <= i < |places| => Plain(places[i], destination))
  {
    EnrichedWithoutXid(places, destination, lookup, |places|);
    var acc := EnrichedUpTo(places, destination, lookup, |places|);
    PlainSorted(places, destination);
    assert acc == seq(|places|, i requires 0 <= i < |places| => Plain(places[i], destination));
    SortByOfSorted(acc, RatingKey);
  }

  /** The candidates of tools/place.py carry neither 'xid' nor 'rate', so
      no lookup is made: every candidate gives an entry, each with the
      default description, not popular, rated 0, and the final sort leaves
      them in the candidates' distance order. */
  lemma DetailedPlacesAreCandidates(destination: string, search: PlaceSearch, center: Coord, duration: string,
                                    metric: Metric, close: CloseEnough, lookup: DetailLookup)
    ensures var r := DetailedPlaces(destination, search, center, duration, metric, close, lookup);
      var places := Candidates(search, center, DurationDays(duration), MaxPlaces(DurationDays(duration)), metric, close);
      && |r| == |places|
      && forall i :: 0 <= i < |r| ==>
        && r[i].name == places[i].name
        && r[i].distanceFromCenterTenths == places[i].distanceFromCenterTenths
        && r[i].description == Some(DefaultDescription(places[i].name, destination))
        && !r[i].isPopular && r[i].rating == 0
  {
    var days := DurationDays(duration);
    var places := Candidates(search, center, days, MaxPlaces(days), metric, close);
    CandidatesCarryNoDetails(search, center, days, MaxPlaces(days), metric, close);
    CandidatesSorted(search, center, days, MaxPlaces(days), metric, close);
    PlainOrder(places, destination, lookup);
    var r := DetailedPlaces(destination, search, center, duration, metric, close, lookup);
    assert r == seq(|places|, i requires 0 <= i < |places| => Plain(places[i], destination));
    forall i | 0 <= i < |r|
      ensures && r[i].name == places[i].name
              && r[i].distanceFromCenterTenths == places[i].distanceFromCenterTenths
              && r[i].description == Some(DefaultDescription(places[i].name, destination))
              && !r[i].isPopular && r[i].rating == 0
    {
      assert r[i] == Plain(places[i], destination);
      assert places[i] in places;
    }
  }

  /** `get_top_places`: the candidates for at most 25 places, nearest
      first, none yet enriched. */
  function TopPlaces(search: PlaceSearch, center: Coord, durationDays: int, metric: Metric, close: CloseEnough): (r: seq<Place>)
    ensures |r| <= 25 && SortedBy(r, CandidateKey)
    ensures forall p :: p in r ==> CarriesNoDetails(p)
  {
    CandidatesSorted(search, center, durationDays, 25, metric, close);
    CandidatesCarryNoDetails(search, center, durationDays, 25, metric, close);
    Candidates(search, center, durationDays, 25, metric, close)
  }
}
