# TravelAgent itinerary engine in Dafny

This project models the deterministic core of TravelAgent, a trip planner, and proves properties of that model. The core is everything between the HTTP fetches and the UI and agent glue. It takes a destination, a trip length and a list of places, then:

1. **Candidates.** It builds the candidate places (`tools/place.py`):
   - a search radius that grows with the trip length;
   - keyword rules for the visit duration and best time of a place;
   - normalisation of place names and near-duplicate detection;
   - a deduplicate, sort and truncate pass over the fetched list.
2. **Enrichment.** It enriches the candidates from a detail lookup and sorts them by rating, then distance (`Agents/place_selector.py`).
3. **Sequencing.** It orders a selection nearest-neighbour first, writing `route_info` into the caller's dicts (`tools/trip_mapper.py`).
4. **Routes.** It attaches a route or straight-line estimate to each leg (`tools/trip_mapper.py`, `tools/routes.py`).
5. **Allocation.** It fills a budget of 8 hours a day greedily and splits the stops into days (`Agents/trip_planner.py`).
6. **Reporting.** It summarises and analyses the route, picks an icon per place and names the export file (`tools/trip_mapper.py`, `tools/export.py`).
7. **Input.** It checks the `destination/budget/duration` line typed at the prompt (`main.py`).

Modules, one per source concern:

| module | file | models |
|---|---|---|
| `Common` | `common.dfy` | Python primitives the core relies on: `str.lower`, `strip`, `split`, `join`, `in` on strings, `int()`, `round()`, `//`, slicing |
| `Places` | `places.dfy` | the place dict, its `point`, the records written into it, and `PlaceObject`, a dict object mutated in place |
| `Sorting` | `sorting.dfy` | `list.sort(key=...)` with a tuple key: a stable sort |
| `PlaceFinder` | `place.dfy` | `tools/place.py` |
| `PlaceSelector` | `place_selector.dfy` | `Agents/place_selector.py` |
| `Routes` | `routes.dfy` | `tools/routes.py` |
| `TripMapper` | `trip_mapper.dfy` | `optimize_route` |
| `RouteDetails` | `route_details.dfy` | `get_detailed_route_info` |
| `TripStats` | `trip_stats.dfy` | total distance, trip summary, map data, route analysis |
| `TripPlanner` | `trip_planner.dfy` | the allocation loops and `create_daily_breakdown` |
| `TripPlanning` | `trip_planning.dfy` | `plan_trip_with_place_selector` and `create_optimized_itinerary` end to end |
| `Export` | `export.dfy` | `get_place_icon` and `export_trip_plan` |
| `UserInput` | `user_input.dfy` | the checks of `user_input_node` |

Encodings:
- **Distances** are whole tenths of a km wherever the source rounds to 0.1 km.
- **Visit hours** are half-hours: 2.5 h is 5, so the budget of `int(duration) * 8` hours is `16 * days`.
- **Distance formula.** The planar formula is an oracle `Metric` that gives the exact kilometres, or `None` where evaluating it raises.
- **Other oracles.** The place search, the detail lookup, the routing service, the geocoder and the `SequenceMatcher` ratio test are function parameters too.
- **Loops** in the source are methods with loops in the model. Each method is proved equal to a specification function, and the lemmas are about those functions.
- **Mutation.** `optimize_route` mutates the caller's dicts. It is a method over `PlaceObject`s, and its `modifies` clause names exactly those objects.

## Model

| member | source | states |
|---|---|---|
| Common.Take | Agents/trip_planner.py:163-164 | `s[:k]` has length `min(k, len)` for `k >= 0` and drops `-k` elements from the end for negative `k`; every result is a prefix of `s` |
| Common.FloorDiv | Agents/trip_planner.py:242 | Python's `//` is floor division for either sign of the divisor (Dafny's `/` is Euclidean) |
| Common.RoundHalfEven | tools/routes.py:68-69 | `round(x)` is within 0.5 of `x`, and an exact half goes to the even neighbour |
| Common.Truncate | tools/trip_mapper.py:67 | `int(x)` on a float is the floor for non-negative `x`, and for any `x` lies less than 1 away from it |
| Common.JoinSplit | main.py:175 | re-joining the pieces of `split('/')` with '/' gives the text back |
| Common.SplitLength | main.py:175-176 | `split('/')` has one piece more than the text has '/' characters |
| Common.ParseIntOfDigitString | Agents/place_selector.py:18 | a string `isdigit()` accepts is parsed by `int()` to its digit value |
| Common.AbbreviatedShape | Agents/place_selector.py:39 | a text over the limit keeps its first `limit` characters followed by "..."; a shorter one is kept whole |
| Sorting.SortByPermutes | tools/place.py:142 | the sorted list is a permutation of the input (equal multisets) |
| Sorting.SortBySorted | tools/place.py:142 | the sorted list is ordered by the tuple key |
| Sorting.SortByStable | Agents/place_selector.py:70 | stability: for each key, the elements with that key keep their input order |
| Sorting.SortByMembers | Agents/trip_planner.py:167 | sorting neither adds nor removes elements |
| Sorting.SortByOfSorted | Agents/place_selector.py:70 | sorting a list that is already in key order leaves it unchanged |
| Sorting.SortedPrefix | tools/place.py:145 | a prefix of a sorted list is sorted |
| PlaceFinder.DynamicRadius | tools/place.py:11-29 | the radius is always in [15000, 100000]; it is 15000 for `d <= 0`, 20000 + 10000(d-1) for 1 <= d <= 9, and 100000 for `d >= 9` |
| PlaceFinder.RadiusMonotone | tools/place.py:21-27 | a longer trip never gets a smaller radius |
| PlaceFinder.VisitDurationLabels | tools/place.py:31-45 | only "1-2 hours", "2-3 hours" and "3-4 hours" occur; "3-4 hours" exactly for museum, gallery, palace or castle in the name; otherwise park, garden or beach mean "2-3 hours", then temple, church or mosque "1-2 hours"; the kinds (historic or cultural) decide only when the name holds no keyword |
| PlaceFinder.NamedKindIgnoresKinds | tools/place.py:36-41 | a keyword in the name makes the kinds irrelevant |
| PlaceFinder.BestTimeLabels | tools/place.py:47-59 | only "morning" and "afternoon" occur; "afternoon" exactly when the name holds museum, gallery or palace and none of beach, park or garden |
| PlaceFinder.BestTimeIgnoresKinds | tools/place.py:47-59 | the place type is never read |
| PlaceFinder.StripPrefixesIsTail | tools/place.py:68-70 | the prefix loop leaves a tail of the text |
| PlaceFinder.StripSuffixesIsHead | tools/place.py:72-74 | the suffix loop leaves a head of the text |
| PlaceFinder.DropPunctuationKeeps | tools/place.py:76 | `[^\w\s]` removal keeps only word characters and whitespace of the text, and keeps text made only of those as it is |
| PlaceFinder.CollapseSpacesShape | tools/place.py:77 | after the `\s+` substitution the only whitespace is a single blank, never two in a row, and the other characters are kept in order |
| PlaceFinder.NormalizePlaceName | tools/place.py:61-79 | the method (lower-case, the two loops, the two substitutions, `strip`) computes `Normalized`; loop invariants tie each loop to its specification function |
| PlaceFinder.CutIsLower | tools/place.py:63-74 | the text the two loops leave is still lower-case |
| PlaceFinder.SubstitutionsClean | tools/place.py:76-77 | the two substitutions turn lower-case text into lower-case word characters and single blanks |
| PlaceFinder.StripClean | tools/place.py:77 | `strip()` keeps those properties and leaves no blank at either end |
| PlaceFinder.NormalizedIsClean | tools/place.py:61-79 | a normalised name is lower-case, made of word characters and single blanks, with no blank at either end |
| PlaceFinder.RedFort | tools/place.py:65-77 | each prefix and suffix is cut once, in list order, and before punctuation goes: "The Red Fort" normalises to "red" |
| PlaceFinder.SimilarReflexive | tools/place.py:81-90 | every name is similar to itself |
| PlaceFinder.EmptyNameMatchesAll | tools/place.py:83-90 | a name that normalises to "" is similar to every name, in both argument orders |
| PlaceFinder.ContainedIsSimilar | tools/place.py:89-90 | one normalised name inside the other makes the pair similar both ways, whatever the ratio |
| PlaceFinder.IsDuplicatePlace | tools/place.py:95-101 | true exactly when some existing entry's name is similar; false on an empty list |
| PlaceFinder.DistanceFromCenter | tools/place.py:151-166 | a missing coordinate reads as the centre's own; the result is the estimate rounded to 0.1 km (within 0.5 tenths of exact), and 0 when the arithmetic raises |
| PlaceFinder.PlacesWithDynamicRadius | tools/place.py:103-149 | the method (fetch at the trip's radius, the dedup loop, sort, slice, `[]` on failure) computes `Candidates` |
| PlaceFinder.AcceptedAreDistinct | tools/place.py:126-139 | the assembly loop never accepts an entry similar to one accepted before it |
| PlaceFinder.AcceptedFromItems | tools/place.py:126-140 | every accepted entry is the dict built for one of the scanned items, so at most that many are accepted |
| PlaceFinder.AssembledShape | tools/place.py:123-145 | the answer is the first `min(max_places, accepted)` entries in (distance, -rate) order, where the accepted entries are built from at most `2 max_places` scanned items; each answer entry is one of them |
| PlaceFinder.AssembledSorted | tools/place.py:142-145 | the answer is sorted and exactly `min(max_places, accepted)` long |
| PlaceFinder.AssembledMembers | tools/place.py:123-145 | the answer's entries are accepted entries built from the first `2 max_places` items |
| PlaceFinder.AssembledCarryNoDetails | tools/place.py:132-139 | the dicts built here have no 'xid' and no 'rate' |
| PlaceFinder.CandidatesCarryNoDetails | tools/place.py:103-149 | likewise for the whole operation, including its empty failure answer |
| PlaceFinder.CandidatesSorted | tools/place.py:103-149 | the operation's answer is sorted and at most `max_places` long: `[]` when the search fails, else exactly `min(max_places, accepted)` entries |
| PlaceSelector.DurationDays | Agents/place_selector.py:18 | a string that is not all digits means 1 day; otherwise `int()` of it |
| PlaceSelector.MaxPlaces | Agents/place_selector.py:21 | `min(3 days, 40)`: at most 40 and at most three a day, and equal to one of them |
| PlaceSelector.DetailedPlacesForTripPlanning | Agents/place_selector.py:14-76 | the method (the per-place loop with its two skip paths, then the rating sort) computes `DetailedPlaces` |
| PlaceSelector.EnrichedRules | Agents/place_selector.py:29-67 | a place is skipped exactly when it has an 'xid' and the lookup raises or answers 200 with a rate that cannot be compared with 3; a kept entry keeps name, point, kinds and distance, takes `rate` as its rating and the defaults "2-3 hours" and "morning", has no 'xid' or 'rate', is popular exactly when the lookup answered 200 with rate > 3, and is described by the non-empty extract (over 200 characters: its first 200 plus "...") or else "Visit {name} in {destination}" |
| PlaceSelector.EnrichedKeepsOrder | Agents/place_selector.py:28-67 | one entry per place not skipped, in place order: entry `j` is the entry of the `j`-th place not skipped, the positions increase, and every place not skipped is among them |
| PlaceSelector.EnrichedFollowsNotSkipped | Agents/place_selector.py:28-63 | the loop appends exactly one entry for each place it does not skip, in order |
| PlaceSelector.NotSkippedBelowIsNotSkipped | Agents/place_selector.py:28-67 | the positions listed increase and are exactly the places not skipped |
| PlaceSelector.EnrichedMembers | Agents/place_selector.py:28-67 | the list holds exactly the entries of the places that were not skipped |
| PlaceSelector.DetailedPlacesShape | Agents/place_selector.py:14-73 | the result is sorted by (-rating, distance), is a permutation of the entries built, and has at most as many entries as candidates (at most 40) |
| PlaceSelector.EnrichedWithoutXid | Agents/place_selector.py:30-49 | places without 'xid' are never skipped and get the default description, not popular |
| PlaceSelector.PlainSorted | Agents/place_selector.py:58-70 | entries in distance order, all rated 0, are already in rating order |
| PlaceSelector.PlainOrder | Agents/place_selector.py:70 | so the rating sort leaves such entries where they are |
| PlaceSelector.DetailedPlacesAreCandidates | Agents/place_selector.py:28-73 | on the candidates of `tools/place.py` every entry has the default description, is not popular and is rated 0, and the final order is the candidates' distance order |
| PlaceSelector.TopPlaces | Agents/place_selector.py:10-12 | `get_top_places` returns at most 25 candidates, in (distance, -rate) order, none carrying an 'xid' or a 'rate' |
| Routes.DistanceBetween | tools/routes.py:53-74 | the distance is within 0.05 km of the exact one and the minutes within 0.5 of 5 minutes per km, both non-negative; the text is the unrounded minutes truncated, then " min"; `{0, 0, "Unknown"}` when the arithmetic raises |
| Routes.MinutesTrackDistance | tools/routes.py:63-69 | the rounded minutes are within one minute of half the rounded tenths |
| Routes.PlacesWithDistances | tools/routes.py:76-96 | same length and order; element `i` is `WithDistanceToNext(i)`; the pass fails, with KeyError only, exactly when some element raises |
| Routes.LastKeepsItsFields | tools/routes.py:80-94 | the last element never gains `distance_to_next` |
| Routes.GainsDistanceIff | tools/routes.py:83-92 | an element gains `distance_to_next`, the estimate to its successor, exactly when it has a successor and both points hold 'lat'; nothing else changes |
| Routes.RaisesIff | tools/routes.py:87-91 | the pass raises exactly when a neighbouring pair both hold 'lat' and one of them lacks 'lon' |
| TripMapper.Scan | tools/trip_mapper.py:47-61 | the scan's choice is a located pool entry at its recorded distance, or position 0 at infinity |
| TripMapper.ScanNearest | tools/trip_mapper.py:47-61 | the scan finds the strict minimum over the located places, the earliest among equals, and reports infinity exactly when none is located |
| TripMapper.TourStep | tools/trip_mapper.py:46-70 | one round: with no located place it ends in OverflowError; otherwise it pops the nearest and goes on from it |
| TripMapper.TourVisits | tools/trip_mapper.py:46-70 | the visits are distinct and are exactly the located places of the pool |
| TripMapper.TourRaises | tools/trip_mapper.py:46-70 | the loop raises (OverflowError) exactly when the pool holds a place without coordinates; otherwise every place is visited |
| TripMapper.ChoiceNearest | tools/trip_mapper.py:50-63 | the choice is no farther than any located unvisited place, and an equally near one comes later in the input |
| TripMapper.TourGreedy | tools/trip_mapper.py:46-70 | every visit is at its recorded minimum distance from the previous stop, no place still unvisited then is strictly closer, and ties go to the place listed first |
| TripMapper.OptimizePermutes | tools/trip_mapper.py:33-72 | empty input is returned empty; the call raises exactly when some place lacks coordinates (KeyError exactly when that is the first place and no start is given); otherwise the visits are a permutation of the input positions |
| TripMapper.RangeTourRaises | tools/trip_mapper.py:44-70 | a tour over the whole input raises OverflowError exactly when some place lacks coordinates |
| TripMapper.RangeTourVisits | tools/trip_mapper.py:44-70 | a tour over the whole input visits distinct positions, and all of them when it does not raise |
| TripMapper.OptimizeGreedy | tools/trip_mapper.py:38-63 | nearest-neighbour order from the start, or from `places[0]` when no start is given |
| TripMapper.RouteInfoFor | tools/trip_mapper.py:64-68 | `route_info` records the chosen minimum, five minutes per km, and those minutes truncated as text |
| TripMapper.AnnotateEffect | tools/trip_mapper.py:63-69 | each visited dict carries its visit's `route_info` and is otherwise unchanged; an unvisited dict is untouched |
| TripMapper.OptimizeRoute | tools/trip_mapper.py:33-72 | the route holds the caller's own objects in the order of `Optimize`; the dicts end up as `Annotate` says; it raises what `Optimize` raises, keeping the annotations made before; without an exception the route holds every input object once |
| TripMapper.SequenceFrom | tools/trip_mapper.py:42-72 | the `while unvisited` loop from the start location does the same, with `Sequencing` as its loop invariant |
| TripMapper.VisitNearest | tools/trip_mapper.py:47-70 | one round keeps the loop invariant and shrinks the unvisited list, or stops with nothing changed when the tour ends in OverflowError |
| TripMapper.SetRouteInfo | tools/trip_mapper.py:64-68 | `nearest['route_info'] = ...` changes exactly that one dict, seen from every list holding it |
| TripMapper.Nearest | tools/trip_mapper.py:47-61 | the method's scan computes `Scan` |
| TripMapper.RouteFinished | tools/trip_mapper.py:46-72 | the state the loop leaves, ended or raised, is what `OptimizeRoute` promises |
| TripMapper.RouteCoversPlaces | tools/trip_mapper.py:42-72 | a route listing the object of each step of a tour that visits every index holds exactly the input objects |
| RouteDetails.RouteToNextFor | tools/trip_mapper.py:94-121 | `next_place` is the successor's name; a routing answer is copied, its minutes truncated as text; without one the record has the straight-line estimate (within 0.05 km, minutes within 0.5) and no steps, with the unrounded minutes truncated as text, or `0, 0, "Unknown"` when the arithmetic raises |
| RouteDetails.DetailedRouteInfo | tools/trip_mapper.py:74-125 | the method computes `DetailedRoute`; the input list is not changed |
| RouteDetails.DetailedIsKept | tools/trip_mapper.py:81-123 | the output lists exactly the kept positions (the last, or one where it and its successor have coordinates), in order, each as its enhanced copy |
| RouteDetails.DetailedFollowsKept | tools/trip_mapper.py:81-123 | output entry `j` is the enhanced copy of the `j`-th kept position |
| RouteDetails.KeptBelowIsKept | tools/trip_mapper.py:84-87 | the kept positions are increasing and are exactly the positions that pass the coordinate test |
| RouteDetails.AllLocatedKeepsAll | tools/trip_mapper.py:74-125 | with every place located nothing is dropped: each place but the last gains its route to the successor |
| RouteDetails.AllLocatedUpTo | tools/trip_mapper.py:81-123 | the same, for the first `k` places |
| RouteDetails.AllKeptBelow | tools/trip_mapper.py:84-87 | with every place located, every position is kept |
| RouteDetails.LastIsKept | tools/trip_mapper.py:76-123 | the output is never empty and ends with the last place, unchanged: it gains no route |
| RouteDetails.DropsStopBeforeUnlocated | tools/trip_mapper.py:84-87 | in `[a, b, c]` with only `c` unlocated, `b` is dropped while `a`'s route still leads to `b` |
| TripStats.TotalDistance | tools/trip_mapper.py:12-31 | the method computes `TotalOf`: the sum over consecutive pairs that both have coordinates |
| TripStats.TotalNearExact | tools/trip_mapper.py:15-31 | the total is within 0.05 km per measured pair of the exact length |
| TripStats.IntTotalIsZero | tools/trip_mapper.py:14-31 | while it is still the int 0 the total is zero |
| TripStats.NoMeasuredPairNoDistance | tools/trip_mapper.py:15-21 | with no pair located on both sides the total is the int 0 |
| TripStats.CreateTripSummary | tools/trip_mapper.py:161-192 | `SummaryOf`: `{}` exactly for an empty list; otherwise the total, travel minutes (from `route_to_next`, else `distance_to_next`) and their truncated text, count, first and last name, the average `total / max(1, n-1)` rounded to a tenth, and "Optimized" exactly when n > 1 |
| TripStats.RouteMapData | tools/trip_mapper.py:194-221 | `{}` exactly for an empty list; the markers are those of the located places in order; the route points are the markers' coordinates |
| TripStats.MarkersAreLocatedPlaces | tools/trip_mapper.py:202-213 | each marker describes a located place at position `order - 1`, and the orders increase |
| TripStats.LocatedPlacesHaveMarkers | tools/trip_mapper.py:202-213 | every located place has its marker |
| TripStats.NearbyCountIsSize | tools/trip_mapper.py:249-262 | `nearby_count` is the number of other located places less than 2 km away |
| TripStats.NearbyCount | tools/trip_mapper.py:248-262 | the method's inner loop computes that count |
| TripStats.GroupsAreClusters | tools/trip_mapper.py:244-265 | a name is in `nearby_groups` exactly when it names a located place with at least two others near it |
| TripStats.NearbyGroups | tools/trip_mapper.py:243-265 | the outer loop lists those names in list order |
| TripStats.TipsRules | tools/trip_mapper.py:232-268 | at most four tips; each fixed tip is there exactly when its threshold is passed (average over 20 km, total over 100 km, more than 8 places); no tips exactly when none is passed and there are no groups; with groups, the cluster tip comes last and names at most three of them |
| TripStats.AnalyzeRouteEfficiency | tools/trip_mapper.py:223-275 | `ReportOf`: "Single destination" with no suggestions for fewer than 2 places; otherwise the suggestions are `Tips` in the source's order (average over 20 km, total over 100 km, more than 8 places, clusters), with the nearby groups, the efficiency text and the average text |
| TripPlanner.VisitHalfHoursTable | Agents/trip_planner.py:78-86 | every visit costs 1.5 to 3.5 hours; the three labels cost 1.5, 2.5 and 3.5 h |
| TripPlanner.SlotAndCost | Agents/trip_planner.py:183-190 | slots repeat every three stops from "morning"; "$10-20" exactly for a ticketed name, "Free" otherwise |
| TripPlanner.FittingFromShape | Agents/trip_planner.py:172-208 | from a prefix that fits, the loop stops at the first place that would exceed the budget |
| TripPlanner.FittingIsFirstMisfit | Agents/trip_planner.py:192-208 | the accepted places are a prefix that fits, and the first place left out is the first that did not fit (no backtracking) |
| TripPlanner.FittingWithinBudget | Agents/trip_planner.py:192-206 | the running total never exceeds `int(duration) * 8` hours |
| TripPlanner.PrefixAtMostSeven | Agents/trip_planner.py:173-181 | `k` places take at most 3.5 k hours |
| TripPlanner.AllFit | Agents/trip_planner.py:192-208 | when 3.5 h each fits the budget, the `break` is never taken and every place is accepted |
| TripPlanner.AllocateStops | Agents/trip_planner.py:172-208 | the loop's entries and total are those of the first `Fitting` places |
| TripPlanner.PlannedStopsKeepPlaces | Agents/trip_planner.py:192-205 | entry `i` keeps the name, point, route to the next place and rating of place `i`, takes slot `i % 3` whatever the place's own best time, and the cost of its name |
| TripPlanner.ItineraryPositions | Agents/trip_planner.py:75-108 | entry `i` of `create_optimized_itinerary` is built from place `i` with slot `i % 3` |
| TripPlanner.ItineraryStopTickets | Agents/trip_planner.py:91-97 | an entry asks for tickets exactly when it costs "$10-20" |
| TripPlanner.AllocateVisits | Agents/trip_planner.py:75-111 | the loop raises KeyError exactly when it reaches a place without coordinates; otherwise its entries and total are those of the first `Fitting` places |
| TripPlanner.NoneUnlocated | Agents/trip_planner.py:76 | with every place reached located, the coordinate read cannot fail |
| TripPlanner.DailyBreakdown | Agents/trip_planner.py:239-263 | the method (one slice of `max(1, len // days)` entries per day, stopping at the end of the list) computes `Breakdown`, whose outcomes `BreakdownOfStops` and the lemmas below state |
| TripPlanner.DayBounds | Agents/trip_planner.py:244-248 | day `d` covers `(d-1) ppd` up to `min(d ppd, n)`, right after the earlier days |
| TripPlanner.DayEntries | Agents/trip_planner.py:249-260 | a day's entries are those of its slice; KeyError exactly when one lacks a key it reads |
| TripPlanner.DayStartIsProduct | Agents/trip_planner.py:245 | the first position of day `d` is `(d-1) * places_per_day` |
| TripPlanner.DayStartMonotone | Agents/trip_planner.py:244-245 | later days start no earlier |
| TripPlanner.DaysNumbered | Agents/trip_planner.py:244-261 | the days are "Day 1", "Day 2", ... without gaps, at most `days` of them, none empty |
| TripPlanner.DaysPartition | Agents/trip_planner.py:244-261 | together the days list the covered places, in order, as consecutive slices |
| TripPlanner.DaysCount | Agents/trip_planner.py:244-248 | every day whose first position is inside the list gets a plan |
| TripPlanner.OverflowDropped | Agents/trip_planner.py:242-248 | with at least as many places as days, each day gets `len // days` and the last `len % days` places appear in no day; with fewer places nothing is dropped |
| TripPlanner.BreakdownOfStops | Agents/trip_planner.py:239-263 | ZeroDivisionError exactly for 0 days; for positive days, consecutive non-empty days holding the covered entries in order |
| TripPlanner.EntriesOfAppend | Agents/trip_planner.py:251-259 | the entries of two slices joined are the two lists of entries joined |
| TripPlanning.NewObjects | Agents/trip_planner.py:164 | fresh, distinct dict objects holding the given values |
| TripPlanning.SequencePlaces | Agents/trip_planner.py:169 | `optimize_route(selected_places)` through `OptimizeRoute` is `Routed` on the values |
| TripPlanning.PlanTripWithPlaceSelector | Agents/trip_planner.py:139-237 | agrees with `PlanFrom` on the caller's places, or on the fetched ones when there are none; "No places found" exactly for no candidates; the summary is `SummaryOf` the itinerary and the analysis `ReportOf` it, field by field |
| TripPlanning.PlanWithCandidates | Agents/trip_planner.py:154-237 | the rest of the workflow for non-empty candidates agrees with `PlanFrom`, with summary and analysis those of the itinerary |
| TripPlanning.RoutedShape | Agents/trip_planner.py:169 | sequencing the selection raises exactly when a selected place lacks coordinates (KeyError when it is the first place, else OverflowError); otherwise it visits every place once, each with only its `route_info` changed |
| TripPlanning.EnhancedShape | Agents/trip_planner.py:163-170 | the places given routes are all the selected ones, so `get_detailed_route_info` drops nothing here; each is a candidate of the prefix `detailed_places[:optimal_places]` |
| TripPlanning.BudgetNeverBinds | Agents/trip_planner.py:163-208 | for `days >= 0`, `min(n, 2 days)` places are considered and the `break` is never taken |
| TripPlanning.PlannedHaveDayFields | Agents/trip_planner.py:193-205 | the planned entries have every key the daily breakdown reads |
| TripPlanning.PlanOutcomes | Agents/trip_planner.py:151-212 | the error dict for no candidates; ValueError for a non-integer duration; ZeroDivisionError for 0 days; otherwise an exception exactly when a selected place lacks coordinates |
| TripPlanning.PlanOfPositiveDays | Agents/trip_planner.py:160-236 | for positive days and located selected places the plan lists every routed place in route order: `min(n, 2 days)` stops, which is also `places_selected` and `optimal_places_for_duration`; every candidate counts as explored, and the daily breakdown is `Breakdown` of the plan |
| TripPlanning.StopsFromPrefix | Agents/trip_planner.py:163-205 | each planned stop comes from the prefix cut before the rating sort, in the slot of its position, with the route computed before allocation |
| TripPlanning.PlannedDays | Agents/trip_planner.py:210 | the days list the stops in order, without the last `len % days` when there are at least as many stops as days |
| TripPlanning.PlanOfNegativeDays | Agents/trip_planner.py:160-210 | with negative days nothing is planned, "0 hours", and no day |
| TripPlanning.RadiusInWholeKm | Agents/trip_planner.py:155-156 | the exploration radius is a whole number of km between 15 and 100 |
| TripPlanning.SliceBeforeSort | Agents/trip_planner.py:163-167 | the prefix is cut before the rating sort: of three candidates for one day, the best-rated third is never selected |
| TripPlanning.CreateOptimizedItinerary | Agents/trip_planner.py:52-130 | the method computes `OptimizedItinerary`: the error dict for ValueError or KeyError, else the allocated entries, total, count and `optimal_places` |
| TripPlanning.ItineraryOfDays | Agents/trip_planner.py:69-122 | for `days >= 0` it fails (KeyError) exactly when one of the first `2 days` places lacks coordinates, and otherwise lists all of them in order |
| TripPlanning.ItineraryOfNegativeDays | Agents/trip_planner.py:69-111 | with negative days `places[:2 days]` is a negative slice: no entry is planned ("0 hours", `optimal_places` is `2 days`), yet the first place of that slice has its coordinates read, so KeyError exactly when it has none |
| TripPlanning.ItineraryEntries | Agents/trip_planner.py:88-107 | every entry asks for tickets exactly when it costs money, takes the slot of its position and keeps the name and visit tag |
| Export.GetPlaceIcon | tools/export.py:17-26 | the method's first-match loop computes `PlaceIcon` |
| Export.IconRules | tools/export.py:6-26 | the icon is always a value of `PLACE_ICONS`; '📍' when no keyword occurs in the lowercased name or kinds; the first keyword in table order that occurs decides |
| Export.NoMatchFrom | tools/export.py:22-26 | with no keyword matching from position `i` on, the answer is the default |
| Export.FirstMatchFrom | tools/export.py:22-24 | the first keyword matching from position `i` on decides |
| Export.IconsFromTable | tools/export.py:6-26 | from any position the answer is one of the table's icons |
| Export.TempleFirst | tools/export.py:19-24 | 'temple' is tried first, so it wins over every other keyword such as 'bar' |
| Export.AirportBeforePort | tools/export.py:13-24 | every 'airport' place also matches 'port', and (with no earlier keyword matching) gets the airport icon |
| Export.ExportRules | tools/export.py:248-278 | an unknown format becomes "mobile" and the returned format is the normalised one; the file is `trip_plan_{destination or "trip"}_{timestamp}` plus the format's own extension, with the matching media type |
| Export.MimeTypeDeterminesFormat | tools/export.py:264-272 | two exports share the media type exactly when they share the format |
| UserInput.AcceptedIsTheLine | main.py:170-211 | an accepted request is the stripped line cut at its two slashes, as typed; its budget is low, medium or high in any case, its duration a positive integer still as text, and its coordinates those of the geocoder |
| UserInput.FirstFailureDecides | main.py:170-196 | which check refuses a line: empty, format, budget, not a number, not positive, each exactly when the earlier checks pass and it fails |
| UserInput.AcceptsWellFormed | main.py:175-211 | every well-formed line whose destination is found is accepted with its pieces unchanged |
| UserInput.ThreePieces | main.py:170-181 | a line starting with the destination and ending with the duration strips to itself and splits into the three pieces |
| UserInput.SplitAfter | main.py:175 | splitting a piece without '/' followed by '/' and a rest gives the piece, then the rest's pieces |

## Left out

- HTTP calls are oracle parameters, not modelled requests: the OpenTripMap radius and detail requests, `get_route`, and `get_coords`. `find_nearby_places` and `get_weather` are not part of this model.
- `get_20_places` (tools/place.py:168-170) is `Candidates` with `max_places = 20` and has no member of its own.
- The distance formula and floating point. `math.sqrt` is inside the `Metric` oracle. Float results are exact reals, so float noise in sums, in `x * 5` and in `:.1f` formatting is not modelled.
- `repr` of floats. `str(total_distance)` is modelled as one decimal for a float and as the int otherwise.
- The `SequenceMatcher` ratio test is an oracle (`CloseEnough`).
- `str.lower`, `\w`, `\s`, `strip` and `isdigit` are modelled on ASCII, plus the whitespace set of `str.isspace`. Non-ASCII letters are not case-folded.
- The console: the welcome text, the `while True` retry loop of `user_input_node`, and every `print`.
- The agent and LLM tools, including `eval` of coordinates and the JSON decoding of `create_optimized_itinerary`'s input. The model starts from the decoded places and duration.
- Pass-through values that only appear in result dicts: weather, budget, destination texts, "duration_analysis" and "route_details" strings, `exploration_area`.
- The export templates and `datetime.now()`. The rendered content is not modelled; the timestamp is a parameter.
- Dict keys that are always present in the core are not modelled as absent. This covers `name` in every producer, so the `.get('name', '')` paths are not modelled.
- TripPlanning.SequencePlaces: `plan_trip_with_place_selector` sorts a new list holding the caller's `existing_places` dicts, so `optimize_route` writes `route_info` into the caller's dicts. The model sequences fresh objects holding the same values. It returns the same result but does not capture that the caller sees those writes. `OptimizeRoute` itself does model mutating the objects it is given.
- PlaceSelector.DetailedPlacesForTripPlanning: the outer `except` (Agents/place_selector.py:74-76) is not modelled. Nothing in the modelled body raises outside the per-place `try`, and a lookup whose `.json()` raises is the `LookupRaises` answer. A detail `rate` that cannot be compared with 3 is `RateText`.
- TripMapper.OptimizeRoute: when no coordinate-bearing place remains, the popped place's `route_info` evaluates `int(inf)` at tools/trip_mapper.py:67. That raises OverflowError before line 70 reads the missing coordinates, and the model follows that order. When the distance arithmetic raises, `calculate_distance_between_places` (tools/routes.py:72-74) answers 0 km, so the `except` at tools/trip_mapper.py:60-61 never fires. Both the source and the model then treat that place as 0 km away.
- TripMapper.OptimizeRoute: requires the list to hold distinct objects. A list holding the same dict twice, which `plan_trip_with_place_selector` never builds, is not modelled.
- TripStats.CreateTripSummary: the `except (KeyError, TypeError)` at tools/trip_mapper.py:176 is not modelled. It catches a `route_to_next` that is not a dict (such as `None`) and minutes that cannot be added, and the core never writes either. A `route_to_next` without `travel_time_minutes` is an absent record in the model. It falls through to `distance_to_next`, as the `elif` at tools/trip_mapper.py:174-175 does.
- TripStats.AnalyzeRouteEfficiency: the average over 20 km and the total over 100 km are compared in whole tenths. This is exact for the model's totals, not for float totals.
- PlaceFinder.PlacesWithDynamicRadius: a fetched answer that is not a list, a request that fails, and every other exception inside the `try` are one `None` answer of the search oracle.
