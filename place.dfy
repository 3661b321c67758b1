/** tools/place.py: the search radius for a trip length, the keyword rules
    that label a place's visit duration and best time, place-name
    normalisation and near-duplicate detection, and the assembly of the
    candidate list from a fetched batch (deduplicate, sort, truncate). The
    OpenTripMap request is an oracle, and so is the `SequenceMatcher`
    similarity ratio. */
module PlaceFinder {
  import opened Common
  import opened Places
  import opened Sorting

  // ---------------------------------------------------------------------
  // calculate_dynamic_radius (tools/place.py:11-29)
  // ---------------------------------------------------------------------

  /** The search radius in metres: 20 km for one day, 10 km more per extra
      day, never below 15 km nor above 100 km. */
  function DynamicRadius(durationDays: int): (r: int)
    ensures 15000 <= r <= 100000
    ensures durationDays <= 0 ==> r == 15000
    ensures 1 <= durationDays <= 9 ==> r == 20000 + 10000 * (durationDays - 1)
    ensures durationDays >= 9 ==> r == 100000
  {
    var additional := Min((durationDays - 1) * 10000, 80000);
    Min(Max(20000 + additional, 15000), 100000)
  }

  /** A longer trip never gets a smaller radius. */
  lemma RadiusMonotone(d1: int, d2: int)
    requires d1 <= d2
    ensures DynamicRadius(d1) <= DynamicRadius(d2)
  {
  }

  // ---------------------------------------------------------------------
  // get_visit_duration, get_best_time (tools/place.py:31-59)
  // ---------------------------------------------------------------------

  const LongVisitWords := ["museum", "gallery", "palace", "castle"]
  const OutdoorWords := ["park", "garden", "beach"]
  const WorshipWords := ["temple", "church", "mosque"]
  const HeritageKinds := ["historic", "cultural"]
  const MorningWords := ["beach", "park", "garden"]
  const AfternoonWords := ["museum", "gallery", "palace"]

  /** The name holds one of the keywords that decide the visit duration on
      their own. */
  predicate NamedKind(name: string) {
    var n := Lower(name);
    ContainsAny(n, LongVisitWords) || ContainsAny(n, OutdoorWords) || ContainsAny(n, WorshipWords)
  }

  /** `get_visit_duration`: the name's keywords are tried group by group,
      and the kinds only when the name holds none of them. */
  function VisitDuration(name: string, kinds: string): string {
    var n, k := Lower(name), Lower(kinds);
    if ContainsAny(n, LongVisitWords) then "3-4 hours"
    else if ContainsAny(n, OutdoorWords) then "2-3 hours"
    else if ContainsAny(n, WorshipWords) then "1-2 hours"
    else if ContainsAny(k, HeritageKinds) then "2-3 hours"
    else "1-2 hours"
  }

  /** Only three labels occur; "3-4 hours" exactly for the long-visit
      keywords; an outdoor keyword then means "2-3 hours" and a place of
      worship "1-2 hours"; the kinds decide only for a name without any
      keyword. */
  lemma VisitDurationLabels(name: string, kinds: string)
    ensures var r := VisitDuration(name, kinds);
      && (r == "1-2 hours" || r == "2-3 hours" || r == "3-4 hours")
      && (r == "3-4 hours" <==> ContainsAny(Lower(name), LongVisitWords))
      && (!ContainsAny(Lower(name), LongVisitWords) && ContainsAny(Lower(name), OutdoorWords) ==> r == "2-3 hours")
      && ((!ContainsAny(Lower(name), LongVisitWords) && !ContainsAny(Lower(name), OutdoorWords)
            && ContainsAny(Lower(name), WorshipWords)) ==> r == "1-2 hours")
      && (!NamedKind(name) ==> r == if ContainsAny(Lower(kinds), HeritageKinds) then "2-3 hours" else "1-2 hours")
  {
  }

  /** A keyword in the name makes the kinds irrelevant. */
  lemma NamedKindIgnoresKinds(name: string, kinds1: string, kinds2: string)
    requires NamedKind(name)
    ensures VisitDuration(name, kinds1) == VisitDuration(name, kinds2)
  {
  }

  /** `get_best_time`: "afternoon" for a museum, gallery or palace that is not
      also a beach, park or garden, "morning" for everything else. */
  function BestTime(name: string, kinds: string): string {
    var n := Lower(name);
    if ContainsAny(n, MorningWords) then "morning"
    else if ContainsAny(n, AfternoonWords) then "afternoon"
    else if ContainsAny(n, WorshipWords) then "morning"
    else "morning"
  }

  /** Only "morning" and "afternoon" occur, and "afternoon" exactly for a
      museum, gallery or palace that is not also a beach, park or garden. */
  lemma BestTimeLabels(name: string, kinds: string)
    ensures var r := BestTime(name, kinds);
      && (r == "morning" || r == "afternoon")
      && (r == "afternoon" <==> ContainsAny(Lower(name), AfternoonWords) && !ContainsAny(Lower(name), MorningWords))
  {
  }

  /** The place type is passed but never read. */
  lemma BestTimeIgnoresKinds(name: string, kinds1: string, kinds2: string)
    ensures BestTime(name, kinds1) == BestTime(name, kinds2)
  {
  }

  // ---------------------------------------------------------------------
  // normalize_place_name (tools/place.py:61-79)
  // ---------------------------------------------------------------------

  const Prefixes := ["the ", "sri ", "shri ", "sree "]
  const Suffixes := [" temple", " church", " mosque", " palace", " fort", " museum", " park"]

  /** `s.endswith(x)` */
  predicate EndsWith(s: string, x: string) {
    |x| <= |s| && s[|s| - |x|..] == x
  }

  /** The prefix loop: each prefix, in list order, is cut once if the text
      (as left by the earlier ones) starts with it. */
  function StripPrefixes(s: string, prefixes: seq<string>): string
    decreases |prefixes|
  {
    if prefixes == [] then s
    else StripPrefixes(if prefixes[0] <= s then s[|prefixes[0]|..] else s, prefixes[1..])
  }

  /** The suffix loop, likewise from the end. */
  function StripSuffixes(s: string, suffixes: seq<string>): string
    decreases |suffixes|
  {
    if suffixes == [] then s
    else
      var x := suffixes[0];
      StripSuffixes(if EndsWith(s, x) then s[..|s| - |x|] else s, suffixes[1..])
  }

  /** What is left after the prefix loop is a tail of the text. */
  lemma {:induction false} StripPrefixesIsTail(s: string, prefixes: seq<string>)
    ensures var r := StripPrefixes(s, prefixes); |r| <= |s| && r == s[|s| - |r|..]
    decreases |prefixes|
  {
    if prefixes != [] {
      var t := if prefixes[0] <= s then s[|prefixes[0]|..] else s;
      StripPrefixesIsTail(t, prefixes[1..]);
    }
  }

  /** What is left after the suffix loop is a head of the text. */
  lemma {:induction false} StripSuffixesIsHead(s: string, suffixes: seq<string>)
    ensures var r := StripSuffixes(s, suffixes); |r| <= |s| && r == s[..|r|]
    decreases |suffixes|
  {
    if suffixes != [] {
      var x := suffixes[0];
      var t := if EndsWith(s, x) then s[..|s| - |x|] else s;
      StripSuffixesIsHead(t, suffixes[1..]);
    }
  }

  /** `re.sub(r'[^\w\s]', '', s)` */
  function DropPunctuation(s: string): string {
    if s == [] then [] else (if IsWordChar(s[0]) || IsSpace(s[0]) then [s[0]] else []) + DropPunctuation(s[1..])
  }

  /** Only word characters and whitespace of the text remain, and a text
      made only of those is left as it is. */
  lemma {:induction false} DropPunctuationKeeps(s: string)
    ensures var r := DropPunctuation(s);
      && (forall i :: 0 <= i < |r| ==> (IsWordChar(r[i]) || IsSpace(r[i])) && r[i] in s)
      && ((forall i :: 0 <= i < |s| ==> IsWordChar(s[i]) || IsSpace(s[i])) ==> r == s)
  {
    if s != [] {
      DropPunctuationKeeps(s[1..]);
      var rest := DropPunctuation(s[1..]);
      forall i | 0 <= i < |rest| ensures rest[i] in s {
        assert rest[i] in s[1..];
      }
    }
  }

  /** The characters of `s` that are not whitespace. */
  function NonSpace(s: string): string {
    if s == [] then [] else (if IsSpace(s[0]) then [] else [s[0]]) + NonSpace(s[1..])
  }

  lemma {:induction false} NonSpaceStripLeft(s: string)
    ensures NonSpace(StripLeft(s)) == NonSpace(s)
  {
    if s != [] && IsSpace(s[0]) {
      NonSpaceStripLeft(s[1..]);
    }
  }

  /** `re.sub(r'\s+', ' ', s)`: each run of whitespace becomes one blank. */
  function CollapseSpaces(s: string): string
    decreases |s|
  {
    if s == [] then []
    else if IsSpace(s[0]) then [' '] + CollapseSpaces(StripLeft(s[1..]))
    else [s[0]] + CollapseSpaces(s[1..])
  }

  /** After the substitution the only whitespace is a blank, never two in a
      row; what is not whitespace is kept, in order. */
  lemma {:induction false} CollapseSpacesShape(s: string)
    ensures var r := CollapseSpaces(s);
      && (forall i :: 0 <= i < |r| ==> r[i] == ' ' || (!IsSpace(r[i]) && r[i] in s))
      && (forall i :: 0 <= i < |r| - 1 ==> !(r[i] == ' ' && r[i + 1] == ' '))
      && NonSpace(r) == NonSpace(s)
      && (s != [] ==> r != [] && (r[0] == ' ' <==> IsSpace(s[0])))
    decreases |s|
  {
    if s != [] {
      var r := CollapseSpaces(s);
      if IsSpace(s[0]) {
        var t := StripLeft(s[1..]);
        CollapseSpacesShape(t);
        NonSpaceStripLeft(s[1..]);
        StripLeftShape(s[1..]);
        var rest := CollapseSpaces(t);
        assert r == [' '] + rest;
        forall i | 0 <= i < |rest| && rest[i] != ' ' ensures !IsSpace(rest[i]) && rest[i] in s {
          assert rest[i] in t;
          assert t == s[1..][|s[1..]| - |t|..];
        }
        assert r[1..] == rest;
      } else {
        CollapseSpacesShape(s[1..]);
        var rest := CollapseSpaces(s[1..]);
        assert r == [s[0]] + rest;
        forall i | 0 <= i < |rest| && rest[i] != ' ' ensures !IsSpace(rest[i]) && rest[i] in s {
          assert rest[i] in s[1..];
        }
        assert r[1..] == rest;
      }
    }
  }

  /** What `normalize_place_name` returns. */
  function Normalized(name: string): string {
    Strip(CollapseSpaces(DropPunctuation(StripSuffixes(StripPrefixes(Lower(name), Prefixes), Suffixes))))
  }

  /** `normalize_place_name`: lower-case, then the two loops over the prefix
      and suffix lists, then the two substitutions and `strip()`. */
  method NormalizePlaceName(name: string) returns (normalized: string)
    ensures normalized == Normalized(name)
  {
    normalized := Lower(name);
    for k := 0 to |Prefixes|
      invariant StripPrefixes(normalized, Prefixes[k..]) == StripPrefixes(Lower(name), Prefixes)
    {
      var prefix := Prefixes[k];
      assert Prefixes[k..][1..] == Prefixes[k + 1..];
      if prefix <= normalized {
        normalized := normalized[|prefix|..];
      }
    }
    var stripped := normalized;
    for k := 0 to |Suffixes|
      invariant StripSuffixes(normalized, Suffixes[k..]) == StripSuffixes(stripped, Suffixes)
    {
      var suffix := Suffixes[k];
      assert Suffixes[k..][1..] == Suffixes[k + 1..];
      if EndsWith(normalized, suffix) {
        normalized := normalized[..|normalized| - |suffix|];
      }
    }
    normalized := Strip(CollapseSpaces(DropPunctuation(normalized)));
  }

  predicate NoUpper(s: string) {
    forall i :: 0 <= i < |s| ==> !IsUpper(s[i])
  }

  /** Word characters and blanks only, never two blanks in a row. */
  predicate WordsAndBlanks(s: string) {
    && (forall i :: 0 <= i < |s| ==> IsWordChar(s[i]) || s[i] == ' ')
    && (forall i :: 0 <= i < |s| - 1 ==> !(s[i] == ' ' && s[i + 1] == ' '))
  }

  /** The text the two loops leave is still lower-case. */
  lemma CutIsLower(name: string)
    ensures NoUpper(StripSuffixes(StripPrefixes(Lower(name), Prefixes), Suffixes))
  {
    var lowered := Lower(name);
    var p := StripPrefixes(lowered, Prefixes);
    var cut := StripSuffixes(p, Suffixes);
    StripPrefixesIsTail(lowered, Prefixes);
    StripSuffixesIsHead(p, Suffixes);
    forall i | 0 <= i < |cut| ensures !IsUpper(cut[i]) {
      assert cut[i] == p[i];
      assert p[i] == lowered[|lowered| - |p| + i];
    }
  }

  /** The two substitutions turn lower-case text into lower-case words and
      single blanks. */
  lemma SubstitutionsClean(cut: string)
    requires NoUpper(cut)
    ensures var c := CollapseSpaces(DropPunctuation(cut)); NoUpper(c) && WordsAndBlanks(c)
  {
    var kept := DropPunctuation(cut);
    DropPunctuationKeeps(cut);
    var collapsed := CollapseSpaces(kept);
    CollapseSpacesShape(kept);
    forall i | 0 <= i < |collapsed| ensures !IsUpper(collapsed[i]) && (IsWordChar(collapsed[i]) || collapsed[i] == ' ') {
      if collapsed[i] != ' ' {
        var c := collapsed[i];
        assert c in kept;
        var j :| 0 <= j < |kept| && kept[j] == c;
        assert c in cut;
      }
    }
  }

  /** `strip()` keeps both properties and leaves no blank at either end. */
  lemma StripClean(s: string)
    requires NoUpper(s) && WordsAndBlanks(s)
    ensures var r := Strip(s); NoUpper(r) && WordsAndBlanks(r) && (r != [] ==> r[0] != ' ' && r[|r| - 1] != ' ')
  {
    var left := StripLeft(s);
    var r := StripRight(left);
    StripLeftShape(s);
    StripRightShape(left);
    forall i | 0 <= i < |r| ensures r[i] == s[|s| - |left| + i] {
      assert r[i] == left[i];
    }
  }

  /** The normalised name is lower-case and made of word characters and
      single blanks, with no blank at either end. */
  lemma NormalizedIsClean(name: string)
    ensures var r := Normalized(name);
      && (forall i :: 0 <= i < |r| ==> !IsUpper(r[i]) && (IsWordChar(r[i]) || r[i] == ' '))
      && (forall i :: 0 <= i < |r| - 1 ==> !(r[i] == ' ' && r[i + 1] == ' '))
      && (r != [] ==> r[0] != ' ' && r[|r| - 1] != ' ')
  {
    var cut := StripSuffixes(StripPrefixes(Lower(name), Prefixes), Suffixes);
    CutIsLower(name);
    SubstitutionsClean(cut);
    StripClean(CollapseSpaces(DropPunctuation(cut)));
  }

  lemma NotPrefix(a: string, b: string)
    requires |a| > 0 && |b| > 0 && a[0] != b[0]
    ensures !(a <= b)
  {
  }

  lemma NotSuffix(s: string, x: string)
    requires |x| > 0 && |s| > 0 && s[|s| - 1] != x[|x| - 1]
    ensures !EndsWith(s, x)
  {
  }

  lemma RedFortPrefixes(lowered: string)
    requires lowered == "the red fort"
    ensures StripPrefixes(lowered, Prefixes) == "red fort"
  {
    NotPrefix(Prefixes[1], "red fort");
    NotPrefix(Prefixes[2], "red fort");
    NotPrefix(Prefixes[3], "red fort");
    assert StripPrefixes("red fort", Prefixes[3..]) == "red fort";
    assert StripPrefixes("red fort", Prefixes[2..]) == "red fort";
    assert StripPrefixes("red fort", Prefixes[1..]) == "red fort";
  }

  lemma RedFortSuffixes(cut: string)
    requires cut == "red fort"
    ensures StripSuffixes(cut, Suffixes) == "red"
  {
    assert !EndsWith("red", Suffixes[5]) && !EndsWith("red", Suffixes[6]);
    assert StripSuffixes("red", Suffixes[6..]) == "red";
    assert StripSuffixes("red", Suffixes[5..]) == "red";
    assert EndsWith("red fort", Suffixes[4]);
    assert "red fort"[..|"red fort"| - |Suffixes[4]|] == "red";
    assert Suffixes[4..][1..] == Suffixes[5..];
    assert StripSuffixes("red fort", Suffixes[4..]) == StripSuffixes("red", Suffixes[5..]);
    NotSuffix("red fort", Suffixes[0]);
    NotSuffix("red fort", Suffixes[1]);
    NotSuffix("red fort", Suffixes[2]);
    NotSuffix("red fort", Suffixes[3]);
    assert StripSuffixes("red fort", Suffixes[3..]) == "red";
    assert StripSuffixes("red fort", Suffixes[2..]) == "red";
    assert StripSuffixes("red fort", Suffixes[1..]) == "red";
  }

  /** Cuts happen once each, in list order, and before the punctuation is
      dropped: "The Red Fort" loses "the " and then " fort". */
  lemma RedFort(name: string)
    requires name == "The Red Fort"
    ensures Normalized(name) == "red"
  {
    assert Lower(name) == "the red fort";
    RedFortPrefixes(Lower(name));
    var cut := StripPrefixes(Lower(name), Prefixes);
    RedFortSuffixes(cut);
    RedIsPlain(StripSuffixes(cut, Suffixes));
  }

  /** A plain lower-case word passes the substitutions and `strip()`. */
  lemma RedIsPlain(red: string)
    requires red == "red"
    ensures Strip(CollapseSpaces(DropPunctuation(red))) == red
  {
    assert red == ['r', 'e', 'd'];
    assert forall i :: 0 <= i < |red| ==> IsLowerLetter(red[i]);
    DropPunctuationKeeps(red);
    CollapseWithoutSpaces(red);
    assert StripLeft(red) == red && StripRight(red) == red;
  }

  /** Text without whitespace is left as it is by the substitution. */
  lemma {:induction false} CollapseWithoutSpaces(s: string)
    requires forall i :: 0 <= i < |s| ==> IsLowerLetter(s[i])
    ensures CollapseSpaces(s) == s
  {
    if s != [] {
      CollapseWithoutSpaces(s[1..]);
    }
  }

  // ---------------------------------------------------------------------
  // are_similar_places, is_duplicate_place (tools/place.py:81-101)
  // ---------------------------------------------------------------------

  /** `SequenceMatcher(None, a, b).ratio() >= 0.8` on two normalised names
      (the default threshold, which every caller uses). */
  type CloseEnough = (string, string) -> bool

  predicate AreSimilarPlaces(name1: string, name2: string, close: CloseEnough) {
    var n1, n2 := Normalized(name1), Normalized(name2);
    n1 == n2 || Contains(n2, n1) || Contains(n1, n2) || close(n1, n2)
  }

  /** Every name is similar to itself. */
  lemma SimilarReflexive(name: string, close: CloseEnough)
    ensures AreSimilarPlaces(name, name, close)
  {
  }

  /** A name that normalises to the empty string (one made only of
      punctuation, say, or just "The Fort") is similar to every name, both
      ways round. */
  lemma EmptyNameMatchesAll(empty: string, other: string, close: CloseEnough)
    requires Normalized(empty) == ""
    ensures AreSimilarPlaces(empty, other, close) && AreSimilarPlaces(other, empty, close)
  {
    ContainsEmpty(Normalized(other));
  }

  /** One normalised name inside the other makes the pair similar in both
      orders, whatever the ratio says. */
  lemma ContainedIsSimilar(name1: string, name2: string, close: CloseEnough)
    requires Contains(Normalized(name1), Normalized(name2))
    ensures AreSimilarPlaces(name1, name2, close) && AreSimilarPlaces(name2, name1, close)
  {
  }

  /** A test of two names for similarity; the engine uses
      `SimilarUnder(close)`, i.e. `are_similar_places` with its default
      threshold. */
  type Similarity = (string, string) -> bool

  function SimilarUnder(close: CloseEnough): Similarity {
    (name1: string, name2: string) => AreSimilarPlaces(name1, name2, close)
  }

  /** Some earlier entry's name is similar to `name`. */
  predicate Duplicate(name: string, existing: seq<Place>, similar: Similarity) {
    exists i :: 0 <= i < |existing| && similar(name, existing[i].name)
  }

  /** `is_duplicate_place`: the scan stops at the first similar entry. */
  method IsDuplicatePlace(newName: string, existing: seq<Place>, similar: Similarity) returns (dup: bool)
    ensures dup == Duplicate(newName, existing, similar)
    ensures existing == [] ==> !dup
  {
    for i := 0 to |existing|
      invariant forall k :: 0 <= k < i ==> !similar(newName, existing[k].name)
    {
      var existingName := existing[i].name;
      if similar(newName, existingName) {
        return true;
      }
    }
    return false;
  }

  // ---------------------------------------------------------------------
  // get_places_with_dynamic_radius, after the fetch (tools/place.py:103-170)
  // ---------------------------------------------------------------------

  /** One item of the fetched JSON list: 'name', 'point' and 'kinds', each
      possibly missing. */
  datatype RawPlace = RawPlace(name: Option<string>, point: Point, kinds: Option<string>)

  /** The radius request: the JSON list for a radius in metres around the
      destination, or `None` when the request fails or its answer is not a
      list (the `except` path). */
  type PlaceSearch = int -> Option<seq<RawPlace>>

  /** `calculate_distance_from_center`: a missing coordinate is read as the
      centre's own; the estimate is rounded to 0.1 km (held in tenths), 0
      when the arithmetic raises. */
  function DistanceFromCenter(metric: Metric, center: Coord, p: Point): (tenths: int)
    ensures tenths >= 0
    ensures var target := Coord(p.lat.GetOr(center.lat), p.lon.GetOr(center.lon));
      && (metric(center, target).None? ==> tenths == 0)
      && (metric(center, target).Some? ==>
            (tenths as real) - 0.5 <= 10.0 * metric(center, target).value <= (tenths as real) + 0.5)
  {
    var target := Coord(p.lat.GetOr(center.lat), p.lon.GetOr(center.lon));
    match metric(center, target)
    case None => 0
    case Some(km) => RoundHalfEven(10.0 * km)
  }

  /** The dict built for an accepted item. */
  function Candidate(raw: RawPlace, center: Coord, metric: Metric): Place {
    var name, kinds := raw.name.GetOr("Unknown"), raw.kinds.GetOr("");
    Place(name, raw.point, kinds, Some(VisitDuration(name, kinds)), Some(BestTime(name, kinds)),
      DistanceFromCenter(metric, center, raw.point), 0, None, 0, None, false, None, None, None, None, None)
  }

  /** The list the loop has built after the first `k` items. */
  function AcceptedUpTo(items: seq<RawPlace>, center: Coord, metric: Metric, similar: Similarity, k: nat): seq<Place>
    requires k <= |items|
  {
    if k == 0 then []
    else
      var before := AcceptedUpTo(items, center, metric, similar, k - 1);
      var item := items[k - 1];
      before + if Duplicate(item.name.GetOr("Unknown"), before, similar) then [] else [Candidate(item, center, metric)]
  }

  /** The sort key `(distance_from_center, -rate)`. */
  function CandidateKey(p: Place): Key {
    (p.distanceFromCenterTenths, -p.rate)
  }

  /** The answer for a fetched list. */
  function Assembled(data: seq<RawPlace>, center: Coord, metric: Metric, similar: Similarity, maxPlaces: int): seq<Place> {
    var items := Take(data, Min(|data|, maxPlaces * 2));
    Take(SortBy(AcceptedUpTo(items, center, metric, similar, |items|), CandidateKey), maxPlaces)
  }

  /** The candidate list for a trip length: nothing when the request fails. */
  function Candidates(search: PlaceSearch, center: Coord, durationDays: int, maxPlaces: int,
                      metric: Metric, close: CloseEnough): seq<Place> {
    match search(DynamicRadius(durationDays))
    case None => []
    case Some(data) => Assembled(data, center, metric, SimilarUnder(close), maxPlaces)
  }

  /** `get_places_with_dynamic_radius`: fetch with the radius for the trip
      length, keep the first `2 max_places` items, skip each item similar
      to one already kept, sort by distance from the centre and keep the
      first `max_places`. */
  method PlacesWithDynamicRadius(search: PlaceSearch, center: Coord, durationDays: int, maxPlaces: int,
                                 metric: Metric, close: CloseEnough) returns (places: seq<Place>)
    ensures places == Candidates(search, center, durationDays, maxPlaces, metric, close)
  {
    var dynamicRadius := DynamicRadius(durationDays);
    var fetched := search(dynamicRadius);
    if fetched.None? {
      return [];
    }
    var similar := SimilarUnder(close);
    var placesData := fetched.value;
    var initialPlaces := Min(|placesData|, maxPlaces * 2);
    var items := Take(placesData, initialPlaces);
    places := [];
    for i := 0 to |items|
      invariant places == AcceptedUpTo(items, center, metric, similar, i)
    {
      var place := items[i];
      var placeName := place.name.GetOr("Unknown");
      var dup := IsDuplicatePlace(placeName, places, similar);
      if dup {
        continue;
      }
      places := places + [Candidate(place, center, metric)];
    }
    places := SortBy(places, CandidateKey);
    return Take(places, maxPlaces);
  }

  /** No kept entry is similar to an entry kept before it. */
  lemma {:induction false} AcceptedAreDistinct(items: seq<RawPlace>, center: Coord, metric: Metric, similar: Similarity, k: nat)
    requires k <= |items|
    ensures forall i, j :: 0 <= i < j < |AcceptedUpTo(items, center, metric, similar, k)| ==>
      !similar(AcceptedUpTo(items, center, metric, similar, k)[j].name, AcceptedUpTo(items, center, metric, similar, k)[i].name)
  {
    if k > 0 {
      AcceptedAreDistinct(items, center, metric, similar, k - 1);
      var before := AcceptedUpTo(items, center, metric, similar, k - 1);
      var acc := AcceptedUpTo(items, center, metric, similar, k);
      forall i, j | 0 <= i < j < |acc| ensures !similar(acc[j].name, acc[i].name) {
        assert acc[i] == before[i];
        if j < |before| {
          assert acc[j] == before[j];
        } else {
          var name := items[k - 1].name.GetOr("Unknown");
          assert !Duplicate(name, before, similar);
          assert acc[j].name == name;
          assert !similar(name, before[i].name);
        }
      }
    }
  }

  /** `p` is the dict built for one of the first `k` items. */
  predicate CandidateOf(p: Place, items: seq<RawPlace>, center: Coord, metric: Metric, k: nat) {
    exists x :: 0 <= x < k && x < |items| && p == Candidate(items[x], center, metric)
  }

  /** Each kept entry is the dict of some item among the first `k`, so at
      most `k` are kept. */
  lemma {:induction false} AcceptedFromItems(items: seq<RawPlace>, center: Coord, metric: Metric, similar: Similarity, k: nat)
    requires k <= |items|
    ensures var acc := AcceptedUpTo(items, center, metric, similar, k);
      && |acc| <= k
      && forall j :: 0 <= j < |acc| ==> CandidateOf(acc[j], items, center, metric, k)
  {
    if k > 0 {
      AcceptedFromItems(items, center, metric, similar, k - 1);
      var before := AcceptedUpTo(items, center, metric, similar, k - 1);
      var acc := AcceptedUpTo(items, center, metric, similar, k);
      assert acc[..|before|] == before;
      forall j | 0 <= j < |acc| ensures CandidateOf(acc[j], items, center, metric, k) {
        if j < |before| {
          assert CandidateOf(before[j], items, center, metric, k - 1);
          var x :| 0 <= x < k - 1 && before[j] == Candidate(items[x], center, metric);
          assert acc[j] == Candidate(items[x], center, metric);
        } else {
          assert acc[j] == Candidate(items[k - 1], center, metric);
        }
      }
    }
  }

  /** The answer holds at most `max_places` entries, ordered by distance from
      the centre; all come from the first `2 max_places` items, no two of
      them similar in fetch order. */
  lemma AssembledShape(data: seq<RawPlace>, center: Coord, metric: Metric, similar: Similarity, maxPlaces: int)
    requires maxPlaces >= 0
    ensures var r := Assembled(data, center, metric, similar, maxPlaces);
      var items := Take(data, Min(|data|, maxPlaces * 2));
      && |r| == Min(maxPlaces, |AcceptedUpTo(items, center, metric, similar, |items|)|) <= maxPlaces
      && SortedBy(r, CandidateKey)
      && (forall p :: p in r ==> p in AcceptedUpTo(items, center, metric, similar, |items|))
      && |items| <= 2 * maxPlaces
      && (forall p :: p in r ==> CandidateOf(p, items, center, metric, |items|))
  {
    AssembledSorted(data, center, metric, similar, maxPlaces);
    AssembledMembers(data, center, metric, similar, maxPlaces);
  }

  lemma AssembledSorted(data: seq<RawPlace>, center: Coord, metric: Metric, similar: Similarity, maxPlaces: int)
    requires maxPlaces >= 0
    ensures var r := Assembled(data, center, metric, similar, maxPlaces);
      var items := Take(data, Min(|data|, maxPlaces * 2));
      && |r| == Min(maxPlaces, |AcceptedUpTo(items, center, metric, similar, |items|)|) <= maxPlaces
      && SortedBy(r, CandidateKey)
  {
    var items := Take(data, Min(|data|, maxPlaces * 2));
    var acc := AcceptedUpTo(items, center, metric, similar, |items|);
    var sorted := SortBy(acc, CandidateKey);
    SortBySorted(acc, CandidateKey);
    SortByPermutes(acc, CandidateKey);
    assert |sorted| == |multiset(sorted)| == |multiset(acc)| == |acc|;
    var r := Take(sorted, maxPlaces);
    SortedPrefix(sorted, CandidateKey, |r|);
  }

  lemma AssembledMembers(data: seq<RawPlace>, center: Coord, metric: Metric, similar: Similarity, maxPlaces: int)
    requires maxPlaces >= 0
    ensures var r := Assembled(data, center, metric, similar, maxPlaces);
      var items := Take(data, Min(|data|, maxPlaces * 2));
      && (forall p :: p in r ==> p in AcceptedUpTo(items, center, metric, similar, |items|))
      && |items| <= 2 * maxPlaces
      && (forall p :: p in r ==> CandidateOf(p, items, center, metric, |items|))
  {
    var items := Take(data, Min(|data|, maxPlaces * 2));
    var acc := AcceptedUpTo(items, center, metric, similar, |items|);
    var sorted := SortBy(acc, CandidateKey);
    SortByMembers(acc, CandidateKey);
    AcceptedFromItems(items, center, metric, similar, |items|);
    var r := Take(sorted, maxPlaces);
    forall p | p in r ensures p in acc {
      var i :| 0 <= i < |r| && r[i] == p;
      assert sorted[i] == p;
    }
    forall p | p in r ensures CandidateOf(p, items, center, metric, |items|) {
      var j :| 0 <= j < |acc| && acc[j] == p;
    }
  }

  /** A place as the candidate pass builds it: no 'xid' and no 'rate'. */
  predicate CarriesNoDetails(p: Place) {
    p.xid.None? && p.rate == 0
  }

  lemma {:induction false} AcceptedNoDetails(items: seq<RawPlace>, center: Coord, metric: Metric, similar: Similarity, k: nat)
    requires k <= |items|
    ensures forall p :: p in AcceptedUpTo(items, center, metric, similar, k) ==> CarriesNoDetails(p)
  {
    if k > 0 {
      AcceptedNoDetails(items, center, metric, similar, k - 1);
    }
  }

  /** The dicts built here carry no 'xid' and no 'rate' key. */
  lemma AssembledCarryNoDetails(data: seq<RawPlace>, center: Coord, metric: Metric, similar: Similarity, maxPlaces: int)
    ensures forall p :: p in Assembled(data, center, metric, similar, maxPlaces) ==> CarriesNoDetails(p)
  {
    var items := Take(data, Min(|data|, maxPlaces * 2));
    var acc := AcceptedUpTo(items, center, metric, similar, |items|);
    var sorted := SortBy(acc, CandidateKey);
    SortByMembers(acc, CandidateKey);
    AcceptedNoDetails(items, center, metric, similar, |items|);
    var r := Take(sorted, maxPlaces);
    forall p | p in r ensures CarriesNoDetails(p) {
      var i :| 0 <= i < |r| && r[i] == p;
      assert sorted[i] == p;
    }
  }

  lemma CandidatesCarryNoDetails(search: PlaceSearch, center: Coord, durationDays: int, maxPlaces: int,
                                 metric: Metric, close: CloseEnough)
    ensures forall p :: p in Candidates(search, center, durationDays, maxPlaces, metric, close) ==> CarriesNoDetails(p)
  {
    match search(DynamicRadius(durationDays))
    case None =>
    case Some(data) => AssembledCarryNoDetails(data, center, metric, SimilarUnder(close), maxPlaces);
  }

  /** The answer of `get_places_with_dynamic_radius` holds at most
      `max_places` entries, ordered by distance from the centre. */
  lemma CandidatesSorted(search: PlaceSearch, center: Coord, durationDays: int, maxPlaces: int,
                         metric: Metric, close: CloseEnough)
    requires maxPlaces >= 0
    ensures var r := Candidates(search, center, durationDays, maxPlaces, metric, close);
      && |r| <= maxPlaces && SortedBy(r, CandidateKey)
      && (search(DynamicRadius(durationDays)).None? ==> r == [])
      && (search(DynamicRadius(durationDays)).Some? ==>
            var data := search(DynamicRadius(durationDays)).value;
            var items := Take(data, Min(|data|, maxPlaces * 2));
            |r| == Min(maxPlaces, |AcceptedUpTo(items, center, metric, SimilarUnder(close), |items|)|))
  {
    match search(DynamicRadius(durationDays))
    case None =>
    case Some(data) => AssembledShape(data, center, metric, SimilarUnder(close), maxPlaces);
  }
}
