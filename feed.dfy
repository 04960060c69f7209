/**
 * The aircraft-model lookup (`fetchAircraftModel`, generate_rss.js:149-158)
 * and the derivation of the feed item from the chosen flight
 * (`generateRSS`, generate_rss.js:161-198): the primary source, then the
 * fallback, the display fields with their defaults, and the description
 * built line by line.
 */
module Feed {
  import opened Wrappers
  import opened Text
  import opened Flights
  import opened Fetch
  import opened Primary
  import opened Fallback
  import Dates

  // ------------------------------------------------------ aircraft model

  /** An element of the aircraft-types response. */
  datatype AircraftType = AircraftType(manufacturer: Option<string>, aircraft: Option<string>)

  /** `` `${manufacturer_name || ''} ${aircraft_name || ''}`.trim() ``. */
  function ModelText(t: AircraftType): (r: string)
    ensures Clean(r)
  {
    Trim(OrElse(t.manufacturer, "") + " " + OrElse(t.aircraft, ""))
  }

  /**
   * The model string has no white space at either end; it is empty when
   * both names are missing, and for names without white space at their ends
   * it is the manufacturer and the aircraft name separated by one space, or
   * just the one that is present.
   */
  lemma ModelTextShape(t: AircraftType)
    ensures Clean(ModelText(t))
    ensures !Truthy(t.manufacturer) && !Truthy(t.aircraft) ==> ModelText(t) == ""
    ensures var m, a := OrElse(t.manufacturer, ""), OrElse(t.aircraft, "");
      Clean(m) && Clean(a) ==>
        ModelText(t) == (if m == "" then a else if a == "" then m else m + " " + a)
  {
    var m, a := OrElse(t.manufacturer, ""), OrElse(t.aircraft, "");
    assert ModelText(t) == Trim(m + " " + a);
    JoinedTrimClean(m, a);
    if !Truthy(t.manufacturer) && !Truthy(t.aircraft) {
      assert m == "" && a == "" && Clean(m) && Clean(a);
    }
  }

  /** The trimmed join of two names, the result of which has clean ends. */
  lemma JoinedTrimClean(m: string, a: string)
    ensures Clean(Trim(m + " " + a))
    ensures Clean(m) && Clean(a) ==>
      Trim(m + " " + a) == (if m == "" then a else if a == "" then m else m + " " + a)
  {
    if m == "" {
      TrimLeadingBlank(a);
      assert "" + " " + a == " " + a;
    } else if Clean(m) && Clean(a) {
      if a == "" {
        TrimTrailingBlank(m);
        assert m + " " + "" == m + " ";
      } else {
        TrimOfClean(m + " " + a);
      }
    }
  }

  /** `(" " + a).trim()` is `a` for a string without white space at its ends. */
  lemma TrimLeadingBlank(a: string)
    ensures Clean(a) ==> Trim(" " + a) == a
    ensures a == "" ==> Trim(" " + a) == ""
  {
    assert TrimStart(" " + a) == TrimStart(a) by {
      assert (" " + a)[1..] == a;
    }
    if Clean(a) {
      TrimStartOfClean(a);
      TrimOfClean(a);
    }
  }

  /** `(m + " ").trim()` is `m` for a non-empty string without white space at its ends. */
  lemma TrimTrailingBlank(m: string)
    requires m != "" && Clean(m)
    ensures Trim(m + " ") == m
  {
    TrimStartOfClean(m + " ");
    assert TrimEnd(m + " ") == TrimEnd(m) by {
      assert (m + " ")[..|m|] == m;
    }
    TrimOfClean(m);
  }

  /** What `fetchAircraftModel` returns, given what its `fetchJsonSafe` returned. */
  function AircraftModel(key: Option<string>, icao: Option<string>, response: Option<Json<AircraftType>>): (r: Option<string>)
    ensures r.Some? <==> Truthy(key) && Truthy(icao) && FirstItem(response).Some?
    ensures r.Some? ==> Clean(r.value)
  {
    if !Truthy(key) || !Truthy(icao) then None
    else if FirstItem(response).None? then None
    else Some(ModelText(FirstItem(response).value))
  }

  /** `fetchAircraftModel`: no lookup without a key or a code. */
  method FetchAircraftModel(key: Option<string>, icao: Option<string>, outcomes: seq<Attempt<Json<AircraftType>>>)
    returns (model: Option<string>)
    requires 3 <= |outcomes|
    ensures model == AircraftModel(key, icao, FetchSpec(outcomes, 3).result)
  {
    if !Truthy(key) || !Truthy(icao) {
      return None;
    }
    var data, _ := FetchJsonSafe(outcomes, 3);
    var aircraftType := FirstItem(data);
    if aircraftType.None? {
      return None;
    }
    return Some(ModelText(aircraftType.value));
  }

  // ------------------------------------------------------ run inputs

  /**
   * The readings of the clock a run makes: the local date of `NOW` (for the
   * patterns), the UTC midnight of `NOW` in milliseconds (for the window),
   * the `Date.now()` that `scoreFlight` reads, `NOW.toISOString()`, the long
   * local date text, and the `toUTCString()` publication date.
   */
  datatype Clock = Clock(day: int, month: int, weekday: int, dayStartUtc: int, scoreNow: int,
                         isoNow: string, localDate: string, pubDate: string)

  /** How each network exchange of a run ends. */
  datatype Network = Network(primary: seq<Attempt<Json<Flight>>>,
                             live: Option<LiveData>,
                             lookup: seq<Attempt<Json<Flight>>>,
                             aircraft: seq<Attempt<Json<AircraftType>>>)

  predicate Covered(net: Network) {
    3 <= |net.primary| && 3 <= |net.lookup| && 3 <= |net.aircraft|
  }

  predicate ValidClock(c: Clock) {
    Dates.ValidDate(c.day, c.month, c.weekday)
  }

  function Patterns(c: Clock): seq<string>
    requires ValidClock(c)
  {
    Dates.DatePatterns(c.day, c.month, c.weekday)
  }

  // ------------------------------------------------------ the item

  /** The RSS item the template renders. */
  datatype Item = Item(title: string, link: string, description: string, pubDate: string, guid: string)

  const TrackerBase: string := "https://www.flightradar24.com/data/flights/"

  // The line markers as the characters the source file holds: each is the
  // UTF-8 encoding of an emoji read back as Windows-1252 and stored again as
  // UTF-8 (the calendar mark is what U+1F4C5 becomes, and so on).
  const CalendarMark: string := "\U{F0}\U{178}\U{201C}\U{2026}"
  const PlaneMark: string := "\U{E2}\U{153}\U{2C6}"
  const DepartureMark: string := "\U{F0}\U{178}\U{203A}\U{AB}"
  const ArrivalMark: string := "\U{F0}\U{178}\U{203A}\U{AC}"
  const ModelMark: string := "\U{F0}\U{178}\U{203A}\U{A9}"
  const LinkMark: string := "\U{F0}\U{178}\U{201D}\U{2014}"

  /** `flight.flight?.number || flight.flight?.iata || 'N/A'`. */
  function FlightNumber(f: Flight): (r: string)
    ensures r != ""
  {
    OrElse(Number(f), OrElse(Iata(f), "N/A"))
  }

  /** `flightIata || flightNumber`: the identifier of the title, the link and the guid. */
  function Callsign(f: Flight): (r: string)
    ensures r != ""
    ensures Truthy(Iata(f)) ==> r == Iata(f).value
  {
    OrElse(Some(OrElse(Iata(f), "")), FlightNumber(f))
  }

  /** The identifier is the IATA code, else the flight number, else `N/A`; never empty. */
  lemma CallsignChoice(f: Flight)
    ensures Callsign(f) == if Truthy(Iata(f)) then Iata(f).value
                           else if Truthy(Number(f)) then Number(f).value
                           else "N/A"
    ensures Callsign(f) != ""
  {
  }

  /** `toISOString().slice(0, 10)`. */
  function DatePart(iso: string): (r: string)
    ensures |r| == if |iso| < 10 then |iso| else 10
    ensures r == iso[..|r|]
  {
    if |iso| <= 10 then iso else iso[..10]
  }

  /**
   * The description's lines: the date, the flight, origin and destination,
   * the aircraft model when it is a non-empty string, and the tracking link.
   */
  function DescriptionLines(localDate: string, ident: string, airline: string,
                            dep: string, arr: string, model: Option<string>): (r: seq<string>)
    ensures |r| == if Truthy(model) then 6 else 5
  {
    [CalendarMark + " " + localDate,
     PlaneMark + " Flight of the day: " + ident + " (" + airline + ")",
     DepartureMark + " From: " + dep,
     ArrivalMark + " To: " + arr]
    + (if Truthy(model) then [ModelMark + " Aircraft model: " + model.value] else [])
    + [LinkMark + " Track live here: " + (TrackerBase + ident)]
  }

  /** The lines of the description of flight `f`. */
  function FlightLines(localDate: string, f: Flight, model: Option<string>): seq<string> {
    DescriptionLines(localDate, Callsign(f), OrElse(AirlineName(f), UnknownAirline),
                     OrElse(DepartureAirport(f), UnknownAirport),
                     OrElse(ArrivalAirport(f), UnknownAirport), model)
  }

  /** The description, built by appending one line after another. */
  method BuildDescription(localDate: string, ident: string, airline: string,
                          dep: string, arr: string, model: Option<string>)
    returns (description: string)
    ensures description == JoinLines(DescriptionLines(localDate, ident, airline, dep, arr, model))
  {
    var line := CalendarMark + " " + localDate;
    description := line;
    ghost var lines := [line];
    line := PlaneMark + " Flight of the day: " + ident + " (" + airline + ")";
    description := description + "\n" + line;
    JoinLinesSnoc(lines, line);
    lines := lines + [line];
    line := DepartureMark + " From: " + dep;
    description := description + "\n" + line;
    JoinLinesSnoc(lines, line);
    lines := lines + [line];
    line := ArrivalMark + " To: " + arr;
    description := description + "\n" + line;
    JoinLinesSnoc(lines, line);
    lines := lines + [line];
    if model.Some? && model.value != "" {
      line := ModelMark + " Aircraft model: " + model.value;
      description := description + "\n" + line;
      JoinLinesSnoc(lines, line);
      lines := lines + [line];
    }
    line := LinkMark + " Track live here: " + (TrackerBase + ident);
    description := description + "\n" + line;
    JoinLinesSnoc(lines, line);
    lines := lines + [line];
    assert lines == DescriptionLines(localDate, ident, airline, dep, arr, model);
  }

  /** The item for the chosen flight and its aircraft model, if any. */
  function ItemFor(f: Flight, model: Option<string>, c: Clock): Item {
    var ident := Callsign(f);
    Item("Flight " + ident + " del giorno - " + OrElse(AirlineName(f), UnknownAirline),
         TrackerBase + ident,
         JoinLines(FlightLines(c.localDate, f, model)),
         c.pubDate,
         ident + "-" + DatePart(c.isoNow))
  }

  /** The flight the run settles on: the primary choice, else the fallback's. */
  function ChosenFlight(key: Option<string>, c: Clock, net: Network): Option<Flight>
    requires ValidClock(c) && Covered(net)
  {
    var primary := SelectPrimary(key, FetchSpec(net.primary, 3).result, Patterns(c), c.scoreNow, c.dayStartUtc);
    if primary.Some? then primary
    else FallbackFlight(key, net.live, FetchSpec(net.lookup, 3).result, Patterns(c))
  }

  /** The aircraft model looked up for a flight: only when its ICAO code is truthy. */
  function ModelFor(key: Option<string>, f: Flight, net: Network): Option<string>
    requires Covered(net)
  {
    if Truthy(Icao(f)) then AircraftModel(key, Icao(f), FetchSpec(net.aircraft, 3).result) else None
  }

  /** What a run of `generateRSS` produces: an item, or nothing written. */
  function FeedItem(key: Option<string>, c: Clock, net: Network): Option<Item>
    requires ValidClock(c) && Covered(net)
  {
    match ChosenFlight(key, c, net)
    case None => None
    case Some(f) => Some(ItemFor(f, ModelFor(key, f, net), c))
  }

  /**
   * `generateRSS`: the primary source, the fallback only when it yields
   * nothing, then the display fields and the description built by appending.
   */
  method GenerateRss(key: Option<string>, c: Clock, net: Network) returns (item: Option<Item>)
    requires ValidClock(c) && Covered(net)
    ensures item == FeedItem(key, c, net)
  {
    var patterns := Dates.DatePatterns(c.day, c.month, c.weekday);
    var flight := FetchAviationstackFlight(key, net.primary, patterns, c.scoreNow, c.dayStartUtc);
    if flight.None? {
      flight := FetchOpenSkyFlight(key, net.live, net.lookup, patterns);
      if flight.None? {
        return None;
      }
    }
    var f := flight.value;

    var flightNumber := OrElse(Number(f), OrElse(Iata(f), "N/A"));
    var flightIata := OrElse(Iata(f), "");
    var airlineName := OrElse(AirlineName(f), UnknownAirline);
    var depAirport := OrElse(DepartureAirport(f), UnknownAirport);
    var arrAirport := OrElse(ArrivalAirport(f), UnknownAirport);
    var flightIcao := if Truthy(Icao(f)) then Icao(f) else None;

    var callsign := if flightIata != "" then flightIata else flightNumber;
    var ident := if flightIata != "" then flightIata else flightNumber;
    var link := TrackerBase + ident;
    var guid := callsign + "-" + DatePart(c.isoNow);

    var aircraftModel: Option<string> := None;
    if flightIcao.Some? {
      aircraftModel := FetchAircraftModel(key, flightIcao, net.aircraft);
    }

    var description := BuildDescription(c.localDate, ident, airlineName, depAirport, arrAirport, aircraftModel);
    item := Some(Item("Flight " + ident + " del giorno - " + airlineName, link, description, c.pubDate, guid));
  }

  // ------------------------------------------------------ properties

  /**
   * The fallback is consulted only when the primary source yields nothing:
   * with a primary choice, the run picks it whatever the live-state feed
   * and the lookup return.
   */
  lemma PrimaryComesFirst(key: Option<string>, c: Clock, net: Network,
                          live: Option<LiveData>, lookup: seq<Attempt<Json<Flight>>>)
    requires ValidClock(c) && Covered(net) && 3 <= |lookup|
    requires SelectPrimary(key, FetchSpec(net.primary, 3).result, Patterns(c), c.scoreNow, c.dayStartUtc).Some?
    ensures ChosenFlight(key, c, net) ==
      SelectPrimary(key, FetchSpec(net.primary, 3).result, Patterns(c), c.scoreNow, c.dayStartUtc)
    ensures ChosenFlight(key, c, net.(live := live, lookup := lookup)) == ChosenFlight(key, c, net)
  {
  }

  /** Nothing is written exactly when neither source yields a flight. */
  lemma NoFlightNoItem(key: Option<string>, c: Clock, net: Network)
    requires ValidClock(c) && Covered(net)
    ensures FeedItem(key, c, net).None? <==>
      SelectPrimary(key, FetchSpec(net.primary, 3).result, Patterns(c), c.scoreNow, c.dayStartUtc).None?
      && FallbackFlight(key, net.live, FetchSpec(net.lookup, 3).result, Patterns(c)).None?
  {
  }

  /**
   * Title, link and guid all use the same identifier, and the guid is that
   * identifier, a dash and the UTC date of the run.
   */
  lemma ItemIdentifiers(f: Flight, model: Option<string>, c: Clock)
    ensures var item := ItemFor(f, model, c);
      && item.link == TrackerBase + Callsign(f)
      && item.guid == Callsign(f) + "-" + DatePart(c.isoNow)
      && item.title == "Flight " + Callsign(f) + " del giorno - " + OrElse(AirlineName(f), UnknownAirline)
      && item.pubDate == c.pubDate
  {
  }

  /** The fields that go into the description, none of which holds a newline. */
  predicate SingleLineFields(f: Flight, model: Option<string>, c: Clock) {
    NoNewline(c.localDate) && NoNewline(Callsign(f))
    && NoNewline(OrElse(AirlineName(f), UnknownAirline))
    && NoNewline(OrElse(DepartureAirport(f), UnknownAirport))
    && NoNewline(OrElse(ArrivalAirport(f), UnknownAirport))
    && (Truthy(model) ==> NoNewline(model.value))
  }

  /**
   * Split at its newlines, the description gives back its lines in order:
   * date, flight, origin, destination, the aircraft model only when the model
   * string is non-empty, and the tracking link last.
   */
  lemma DescriptionLayout(f: Flight, model: Option<string>, c: Clock)
    requires SingleLineFields(f, model, c)
    ensures var lines := SplitLines(ItemFor(f, model, c).description);
      && lines == FlightLines(c.localDate, f, model)
      && |lines| == (if Truthy(model) then 6 else 5)
      && lines[1] == PlaneMark + " Flight of the day: " + Callsign(f) + " (" + OrElse(AirlineName(f), UnknownAirline) + ")"
      && lines[|lines| - 1] == LinkMark + " Track live here: " + ItemFor(f, model, c).link
  {
    var ident, airline := Callsign(f), OrElse(AirlineName(f), UnknownAirline);
    var dep, arr := OrElse(DepartureAirport(f), UnknownAirport), OrElse(ArrivalAirport(f), UnknownAirport);
    ItemParts(f, model, c);
    LinesSplitBack(c.localDate, ident, airline, dep, arr, model);
  }

  lemma ItemParts(f: Flight, model: Option<string>, c: Clock)
    ensures FlightLines(c.localDate, f, model)
      == DescriptionLines(c.localDate, Callsign(f), OrElse(AirlineName(f), UnknownAirline),
                          OrElse(DepartureAirport(f), UnknownAirport),
                          OrElse(ArrivalAirport(f), UnknownAirport), model)
    ensures ItemFor(f, model, c).description == JoinLines(FlightLines(c.localDate, f, model))
    ensures ItemFor(f, model, c).link == TrackerBase + Callsign(f)
  {
  }

  /** The description lines, joined and split again, come back unchanged. */
  lemma LinesSplitBack(localDate: string, ident: string, airline: string,
                       dep: string, arr: string, model: Option<string>)
    requires NoNewline(localDate) && NoNewline(ident) && NoNewline(airline)
    requires NoNewline(dep) && NoNewline(arr) && (Truthy(model) ==> NoNewline(model.value))
    ensures var lines := DescriptionLines(localDate, ident, airline, dep, arr, model);
      && SplitLines(JoinLines(lines)) == lines
      && |lines| == (if Truthy(model) then 6 else 5)
      && lines[1] == PlaneMark + " Flight of the day: " + ident + " (" + airline + ")"
      && lines[|lines| - 1] == LinkMark + " Track live here: " + (TrackerBase + ident)
  {
    LinesAreSingle(localDate, ident, airline, dep, arr, model);
    SplitJoinLines(DescriptionLines(localDate, ident, airline, dep, arr, model));
  }

  lemma LinesAreSingle(localDate: string, ident: string, airline: string,
                       dep: string, arr: string, model: Option<string>)
    requires NoNewline(localDate) && NoNewline(ident) && NoNewline(airline)
    requires NoNewline(dep) && NoNewline(arr) && (Truthy(model) ==> NoNewline(model.value))
    ensures var lines := DescriptionLines(localDate, ident, airline, dep, arr, model);
      forall k :: 0 <= k < |lines| ==> NoNewline(lines[k])
  {
    NoNewlineConcat(CalendarMark + " ", localDate);
    NoNewlineConcat(PlaneMark + " Flight of the day: ", ident);
    NoNewlineConcat(PlaneMark + " Flight of the day: " + ident, " (");
    NoNewlineConcat(PlaneMark + " Flight of the day: " + ident + " (", airline);
    NoNewlineConcat(PlaneMark + " Flight of the day: " + ident + " (" + airline, ")");
    NoNewlineConcat(DepartureMark + " From: ", dep);
    NoNewlineConcat(ArrivalMark + " To: ", arr);
    if Truthy(model) {
      NoNewlineConcat(ModelMark + " Aircraft model: ", model.value);
    }
    NoNewlineConcat(TrackerBase, ident);
    NoNewlineConcat(LinkMark + " Track live here: ", TrackerBase + ident);
  }

  lemma NoNewlineConcat(a: string, b: string)
    requires NoNewline(a) && NoNewline(b)
    ensures NoNewline(a + b)
  {
    forall k | 0 <= k < |a + b| ensures (a + b)[k] != '\n' {
      if k < |a| {
        assert (a + b)[k] == a[k];
      } else {
        assert (a + b)[k] == b[k - |a|];
      }
    }
  }
}
