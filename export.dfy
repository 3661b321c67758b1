/** tools/export.py: the emoji chosen for a place, and the format,
    file name and media type of an exported trip plan. The rendered
    contents are not modelled. */
module Export {
  import opened Common

  // ---------------------------------------------------------------------
  // get_place_icon (tools/export.py:6-26)
  // ---------------------------------------------------------------------

  /** `PLACE_ICONS` in its insertion order, the order the lookup tries the
      keywords in. Its last entry, 'default', is also the fallback. */
  const PlaceIcons: seq<(string, string)> :=
    WorshipIcons + SightIcons + NatureIcons + WildlifeIcons + ShowIcons + VenueIcons + ShopIcons + TransportIcons

  const WorshipIcons: seq<(string, string)> := [("temple", "🛕"), ("church", "⛪"), ("mosque", "🕌"), ("cathedral", "⛪"), ("monastery", "🏛️"), ("shrine", "🛕")]
  const SightIcons: seq<(string, string)> := [("museum", "🏛️"), ("gallery", "🖼️"), ("palace", "🏰"), ("castle", "🏰"), ("fort", "🏰"), ("monument", "🗽"), ("statue", "🗽")]
  const NatureIcons: seq<(string, string)> := [("park", "🌳"), ("garden", "🌺"), ("beach", "🏖️"), ("mountain", "⛰️"), ("lake", "🏞️"), ("river", "🏞️"), ("forest", "🌲")]
  const WildlifeIcons: seq<(string, string)> := [("sanctuary", "🐦"), ("zoo", "🦁"), ("wildlife", "🦁"), ("bird", "🐦"), ("nature", "🌿")]
  const ShowIcons: seq<(string, string)> := [("theater", "🎭"), ("cinema", "🎬"), ("amusement", "🎡"), ("aquarium", "🐠"), ("circus", "🎪"), ("concert", "🎵")]
  const VenueIcons: seq<(string, string)> := [("stadium", "🏟️"), ("bowling", "🎳"), ("restaurant", "🍽️"), ("cafe", "☕"), ("market", "🛒"), ("mall", "🏬")]
  const ShopIcons: seq<(string, string)> := [("shopping", "🛍️"), ("bakery", "🥖"), ("pizzeria", "🍕"), ("bar", "🍺"), ("pub", "🍺"), ("airport", "✈️")]
  const TransportIcons: seq<(string, string)> := [("station", "🚉"), ("port", "🚢"), ("default", "📍")]

  const DefaultIcon := "📍"

  /** The keyword occurs in the lowercased name or kinds. */
  predicate Matches(name: string, kinds: string, keyword: string) {
    Contains(Lower(name), keyword) || Contains(Lower(kinds), keyword)
  }

  /** The icon of the first keyword from position `i` on that matches. */
  function IconFrom(name: string, kinds: string, i: nat): string
    requires i <= |PlaceIcons|
    decreases |PlaceIcons| - i
  {
    if i == |PlaceIcons| then DefaultIcon
    else if Matches(name, kinds, PlaceIcons[i].0) then PlaceIcons[i].1
    else IconFrom(name, kinds, i + 1)
  }

  function PlaceIcon(name: string, kinds: string): string {
    IconFrom(name, kinds, 0)
  }

  /** `get_place_icon(place_name, kinds)` */
  method GetPlaceIcon(placeName: string, kinds: string) returns (icon: string)
    ensures icon == PlaceIcon(placeName, kinds)
  {
    var nameLower := Lower(placeName);
    var kindsLower := Lower(kinds);
    for i := 0 to |PlaceIcons|
      invariant IconFrom(placeName, kinds, i) == PlaceIcon(placeName, kinds)
    {
      var (keyword, candidate) := PlaceIcons[i];
      if Contains(nameLower, keyword) || Contains(kindsLower, keyword) {
        return candidate;
      }
    }
    return DefaultIcon;
  }

  /** With no keyword matching from position `i` on, the fallback is
      returned. */
  lemma {:induction false} NoMatchFrom(name: string, kinds: string, i: nat)
    requires i <= |PlaceIcons|
    requires forall j :: i <= j < |PlaceIcons| ==> !Matches(name, kinds, PlaceIcons[j].0)
    ensures IconFrom(name, kinds, i) == DefaultIcon
    decreases |PlaceIcons| - i
  {
    if i < |PlaceIcons| {
      NoMatchFrom(name, kinds, i + 1);
    }
  }

  /** The first keyword from position `i` on that matches decides. */
  lemma {:induction false} FirstMatchFrom(name: string, kinds: string, i: nat, k: nat)
    requires i <= k < |PlaceIcons| && Matches(name, kinds, PlaceIcons[k].0)
    requires forall j :: i <= j < k ==> !Matches(name, kinds, PlaceIcons[j].0)
    ensures IconFrom(name, kinds, i) == PlaceIcons[k].1
    decreases k - i
  {
    if i < k {
      FirstMatchFrom(name, kinds, i + 1, k);
    }
  }

  /** The icon is always one of the table's, the icon of the first keyword
      in table order occurring in the name or kinds, and '📍' when none
      does. */
  lemma IconRules(name: string, kinds: string)
    ensures exists i :: 0 <= i < |PlaceIcons| && PlaceIcon(name, kinds) == PlaceIcons[i].1
    ensures (forall j :: 0 <= j < |PlaceIcons| ==> !Matches(name, kinds, PlaceIcons[j].0)) ==> PlaceIcon(name, kinds) == DefaultIcon
    ensures forall k :: (0 <= k < |PlaceIcons| && Matches(name, kinds, PlaceIcons[k].0)
      && (forall j :: 0 <= j < k ==> !Matches(name, kinds, PlaceIcons[j].0))) ==> PlaceIcon(name, kinds) == PlaceIcons[k].1
  {
    if forall j :: 0 <= j < |PlaceIcons| ==> !Matches(name, kinds, PlaceIcons[j].0) {
      NoMatchFrom(name, kinds, 0);
    }
    forall k | (0 <= k < |PlaceIcons| && Matches(name, kinds, PlaceIcons[k].0)
      && (forall j :: 0 <= j < k ==> !Matches(name, kinds, PlaceIcons[j].0)))
      ensures PlaceIcon(name, kinds) == PlaceIcons[k].1
    {
      FirstMatchFrom(name, kinds, 0, k);
    }
    IconsFromTable(name, kinds, 0);
  }

  lemma {:induction false} IconsFromTable(name: string, kinds: string, i: nat)
    requires i <= |PlaceIcons|
    ensures exists j :: 0 <= j < |PlaceIcons| && IconFrom(name, kinds, i) == PlaceIcons[j].1
    decreases |PlaceIcons| - i
  {
    if i == |PlaceIcons| {
      assert PlaceIcons[|PlaceIcons| - 1].1 == DefaultIcon;
    } else if !Matches(name, kinds, PlaceIcons[i].0) {
      IconsFromTable(name, kinds, i + 1);
    }
  }

  /** 'temple' is tried first, so a temple is shown as one even when its
      name also holds 'bar' or any other keyword. */
  lemma TempleFirst(name: string, kinds: string)
    requires Matches(name, kinds, "temple")
    ensures PlaceIcon(name, kinds) == "🛕"
  {
    assert PlaceIcons[0].0 == "temple";
    assert PlaceIcons[0].1 == "🛕";
  }

  /** Every place that 'airport' matches is matched by 'port' too, and the
      airport icon wins because 'airport' comes first. */
  lemma AirportBeforePort(name: string, kinds: string)
    requires Matches(name, kinds, "airport")
    requires forall j :: 0 <= j < 42 ==> !Matches(name, kinds, PlaceIcons[j].0)
    ensures Matches(name, kinds, "port")
    ensures PlaceIcon(name, kinds) == "✈️"
  {
    assert PlaceIcons[42].0 == "airport";
    FirstMatchFrom(name, kinds, 0, 42);
    ContainsAt("airport", "port", 3);
    if Contains(Lower(name), "airport") {
      ContainsTransitive(Lower(name), "airport", "port");
    } else {
      ContainsTransitive(Lower(kinds), "airport", "port");
    }
  }

  // ---------------------------------------------------------------------
  // export_trip_plan (tools/export.py:248-278)
  // ---------------------------------------------------------------------

  predicate KnownFormat(f: string) {
    f == "mobile" || f == "html" || f == "json"
  }

  /** An unknown format falls back to "mobile". */
  function NormalisedFormat(exportFormat: string): string {
    if KnownFormat(exportFormat) then exportFormat else "mobile"
  }

  function Extension(format: string): string {
    if format == "mobile" then ".txt" else if format == "html" then ".html" else ".json"
  }

  function MimeType(format: string): string {
    if format == "mobile" then "text/plain" else if format == "html" then "text/html" else "application/json"
  }

  /** The export dict without its rendered `content`. */
  datatype ExportFile = ExportFile(filename: string, mimeType: string, format: string)

  /** `export_trip_plan(trip_data, export_format)` with `trip_data`'s
      `destination` (absent is `None`) and the formatted `datetime.now()`
      passed in. */
  function ExportTripPlan(destination: Option<string>, timestamp: string, exportFormat: string): ExportFile {
    var format := NormalisedFormat(exportFormat);
    ExportFile("trip_plan_" + destination.GetOr("trip") + "_" + timestamp + Extension(format), MimeType(format), format)
  }

  /** The returned format is the requested one when it is known and
      "mobile" otherwise; the file is named after the destination ("trip"
      when there is none) and the time, and its extension and media type
      both follow the format, each format having its own. */
  lemma ExportRules(destination: Option<string>, timestamp: string, exportFormat: string)
    ensures var e := ExportTripPlan(destination, timestamp, exportFormat);
      var stem := "trip_plan_" + destination.GetOr("trip") + "_" + timestamp;
      && KnownFormat(e.format)
      && (KnownFormat(exportFormat) <==> e.format == exportFormat)
      && (!KnownFormat(exportFormat) ==> e.format == "mobile")
      && e.filename[..|stem|] == stem
      && (e.format == "mobile" <==> e.mimeType == "text/plain") && (e.format == "mobile" <==> e.filename[|stem|..] == ".txt")
      && (e.format == "html" <==> e.mimeType == "text/html") && (e.format == "html" <==> e.filename[|stem|..] == ".html")
      && (e.format == "json" <==> e.mimeType == "application/json") && (e.format == "json" <==> e.filename[|stem|..] == ".json")
  {
    var e := ExportTripPlan(destination, timestamp, exportFormat);
    var stem := "trip_plan_" + destination.GetOr("trip") + "_" + timestamp;
    assert e.filename == stem + Extension(e.format);
  }

  /** Two exports of the same format share media type and extension, and
      different formats never share them. */
  lemma MimeTypeDeterminesFormat(d1: Option<string>, t1: string, f1: string, d2: Option<string>, t2: string, f2: string)
    ensures var e1, e2 := ExportTripPlan(d1, t1, f1), ExportTripPlan(d2, t2, f2);
      e1.mimeType == e2.mimeType <==> e1.format == e2.format
  {
  }
}
