/** main.py: the checks `user_input_node` applies to one line of trip
    details, "destination/budget/duration" (main.py:170-211). The prompt
    and the retry loop around them are console I/O; the geocoding request
    is an oracle. */
module UserInput {
  import opened Common
  import opened Places

  /** Why a line was refused; each comes with its own message. */
  datatype InputError =
    | EmptyInput          // "Please enter valid trip details."
    | BadFormat           // "Invalid format! ..."
    | BadBudget           // "Invalid budget! ..."
    | NotANumber          // "Duration must be a number!"
    | NotPositive         // "Duration must be a positive number!"
    | UnknownDestination  // "Could not find coordinates for ..."

  /** The accepted request: the pieces of the line as typed, with the
      destination's coordinates. */
  datatype TripRequest = TripRequest(destination: string, coords: Coord, budget: string, duration: string)

  datatype Checked = Rejected(why: InputError) | Accepted(request: TripRequest)

  /** `get_coords(destination)`; `None` for a falsy answer. */
  type Geocoder = string -> Option<Coord>

  const Budgets := ["low", "medium", "high"]

  /** One pass of the input loop on the line `line`: the checks run in
      order and the first that fails decides. */
  function CheckInput(line: string, geocode: Geocoder): Checked {
    var text := Strip(line);
    if text == "" then Rejected(EmptyInput)
    else
      var parts := Split(text, '/');
      if |parts| != 3 then Rejected(BadFormat)
      else
        var destination, budget, duration := parts[0], parts[1], parts[2];
        if Lower(budget) !in Budgets then Rejected(BadBudget)
        else
          match ParseInt(duration)
          case None => Rejected(NotANumber)
          case Some(days) =>
            if days <= 0 then Rejected(NotPositive)
            else
              match geocode(destination)
              case None => Rejected(UnknownDestination)
              case Some(coords) => Accepted(TripRequest(destination, coords, budget, duration))
  }

  /** An accepted request is the stripped line cut at its two slashes, as
      typed: re-joining its pieces gives the line back. Its budget is one
      of the three in any letter case, its duration a positive integer
      (still as text), and its coordinates are the geocoder's. */
  lemma AcceptedIsTheLine(line: string, geocode: Geocoder)
    requires CheckInput(line, geocode).Accepted?
    ensures var r := CheckInput(line, geocode).request;
      && Join([r.destination, r.budget, r.duration], "/") == Strip(line)
      && '/' !in r.destination && '/' !in r.budget && '/' !in r.duration
      && Lower(r.budget) in Budgets
      && ParseInt(r.duration).Some? && ParseInt(r.duration).value > 0
      && geocode(r.destination) == Some(r.coords)
  {
    var text := Strip(line);
    var parts := Split(text, '/');
    JoinSplit(text, '/');
    assert parts == [parts[0], parts[1], parts[2]];
  }

  /** Which check refuses a line: the first one that fails, in the order
      empty, format, budget, duration, coordinates. */
  lemma FirstFailureDecides(line: string, geocode: Geocoder)
    ensures var text := Strip(line);
      var parts := Split(text, '/');
      var c := CheckInput(line, geocode);
      && (c == Rejected(EmptyInput) <==> text == "")
      && (c == Rejected(BadFormat) <==> text != "" && Count(text, '/') != 2)
      && (c == Rejected(BadBudget) <==> text != "" && Count(text, '/') == 2 && Lower(parts[1]) !in Budgets)
      && (c == Rejected(NotANumber) <==>
            text != "" && Count(text, '/') == 2 && Lower(parts[1]) in Budgets && ParseInt(parts[2]).None?)
      && (c == Rejected(NotPositive) <==>
            text != "" && Count(text, '/') == 2 && Lower(parts[1]) in Budgets && ParseInt(parts[2]).Some?
            && ParseInt(parts[2]).value <= 0)
  {
    SplitLength(Strip(line), '/');
  }

  /** Conversely every well-formed line is accepted with its pieces as
      typed: a destination that is found, a budget naming one of the three
      in any case (it is not normalised) and a positive integer duration. */
  lemma AcceptsWellFormed(destination: string, budget: string, duration: string, geocode: Geocoder)
    requires destination != [] && !IsSpace(destination[0])
    requires duration != [] && !IsSpace(duration[|duration| - 1])
    requires '/' !in destination && '/' !in budget && '/' !in duration
    requires Lower(budget) in Budgets
    requires ParseInt(duration).Some? && ParseInt(duration).value > 0
    requires geocode(destination).Some?
    ensures CheckInput(destination + "/" + budget + "/" + duration, geocode)
      == Accepted(TripRequest(destination, geocode(destination).value, budget, duration))
  {
    ThreePieces(destination, budget, duration);
  }

  /** A line starting with the destination and ending with the duration
      strips to itself and splits into the three pieces. */
  lemma ThreePieces(destination: string, budget: string, duration: string)
    requires destination != [] && !IsSpace(destination[0])
    requires duration != [] && !IsSpace(duration[|duration| - 1])
    requires '/' !in destination && '/' !in budget && '/' !in duration
    ensures var line := destination + "/" + budget + "/" + duration;
      Strip(line) == line && Split(line, '/') == [destination, budget, duration]
  {
    var line := destination + "/" + budget + "/" + duration;
    assert line[0] == destination[0] && line[|line| - 1] == duration[|duration| - 1];
    StripsToItself(line);
    var tail := budget + "/" + duration;
    SplitNoSep(duration, '/');
    assert tail == budget + ['/'] + duration;
    SplitAfter(budget, duration, '/');
    assert line == destination + ['/'] + tail;
    SplitAfter(destination, tail, '/');
  }

  lemma StripsToItself(s: string)
    requires s != [] && !IsSpace(s[0]) && !IsSpace(s[|s| - 1])
    ensures Strip(s) == s
  {
    assert StripLeft(s) == s;
  }

  lemma {:induction false} SplitNoSep(a: string, sep: char)
    requires sep !in a
    ensures Split(a, sep) == [a]
  {
    if a != [] {
      SplitNoSep(a[1..], sep);
      assert a[0] != sep && [a[0]] + a[1..] == a;
    }
  }

  lemma {:induction false} SplitAfter(a: string, rest: string, sep: char)
    requires sep !in a
    ensures Split(a + [sep] + rest, sep) == [a] + Split(rest, sep)
  {
    var s := a + [sep] + rest;
    if a == [] {
      assert s[1..] == rest;
    } else {
      assert s[1..] == a[1..] + [sep] + rest;
      SplitAfter(a[1..], rest, sep);
      assert s[0] == a[0] != sep && [a[0]] + a[1..] == a;
    }
  }
}
