/**
 * The live-state fallback (`fetchOpenSkyFlight`, generate_rss.js:103-146):
 * the first state whose trimmed callsign contains a date pattern becomes a
 * minimal flight record, which a lookup by that callsign on the primary
 * provider may then fill in, field by field.
 */
module Fallback {
  import opened Wrappers
  import opened Text
  import opened Flights
  import opened Fetch
  import opened Primary

  /** One entry of `states`; only `s[1]`, the callsign, is read. */
  datatype State = State(callsign: Option<string>)

  /**
   * The parsed live-state response; `states` is `None` when it is missing or
   * falsy, or is not an array (then `.find` throws and the catch returns `null`).
   */
  datatype LiveData = LiveData(states: Option<seq<State>>)

  /** The `find` callback: a truthy callsign whose trim contains a pattern, case-sensitively. */
  predicate StateMatches(s: State, patterns: seq<string>) {
    Truthy(s.callsign) && exists k | 0 <= k < |patterns| :: Contains(Trim(s.callsign.value), patterns[k])
  }

  /** The index of the first matching state at or after `from`. */
  function FirstMatchFrom(states: seq<State>, patterns: seq<string>, from: nat): (r: Option<nat>)
    requires from <= |states|
    ensures r.Some? ==> from <= r.value < |states| && StateMatches(states[r.value], patterns)
    ensures r.Some? ==> forall j :: from <= j < r.value ==> !StateMatches(states[j], patterns)
    ensures r.None? ==> forall j :: from <= j < |states| ==> !StateMatches(states[j], patterns)
    decreases |states| - from
  {
    if from == |states| then None
    else if StateMatches(states[from], patterns) then Some(from)
    else FirstMatchFrom(states, patterns, from + 1)
  }

  /** `states.find(...)`, as an index: the first state, in source order, that matches. */
  function FirstMatch(states: seq<State>, patterns: seq<string>): (r: Option<nat>)
    ensures r.Some? ==> r.value < |states| && StateMatches(states[r.value], patterns)
    ensures r.Some? ==> forall j :: 0 <= j < r.value ==> !StateMatches(states[j], patterns)
    ensures r.None? ==> forall j :: 0 <= j < |states| ==> !StateMatches(states[j], patterns)
  {
    FirstMatchFrom(states, patterns, 0)
  }

  const UnknownAirline: string := "Unknown Airline"
  const UnknownAirport: string := "Unknown"

  /** The record built from the match: its untrimmed callsign as IATA code, status `active`. */
  function BaseRecord(callsign: string): (r: Flight)
    ensures HasParts(r) && Iata(r) == Some(callsign) && r.status == Some("active")
    ensures Number(r) == None && Icao(r) == None && DepartureStamp(r) == None
    ensures AirlineName(r) == Some(UnknownAirline)
    ensures DepartureAirport(r) == Some(UnknownAirport) && ArrivalAirport(r) == Some(UnknownAirport)
  {
    Flight(Some(FlightIds(None, Some(callsign), None)),
           Some(Airline(Some(UnknownAirline))),
           Some(Departure(Some(UnknownAirport), None, None, None, None)),
           Some(Arrival(Some(UnknownAirport), None)),
           Some("active"))
  }

  predicate HasParts(f: Flight) {
    f.flight.Some? && f.airline.Some? && f.departure.Some? && f.arrival.Some?
  }

  /** The record after the six field writes that copy the lookup result `av` into it. */
  function Enriched(f: Flight, av: Flight): Flight
    requires HasParts(f)
  {
    f.(flight := Some(f.flight.value.(icao := if Truthy(Icao(av)) then Icao(av) else None)),
       airline := Some(f.airline.value.(name := OrOpt(AirlineName(av), f.airline.value.name))),
       departure := Some(f.departure.value.(airport := OrOpt(DepartureAirport(av), f.departure.value.airport),
                                            iata := Some(OrElse(DepartureIata(av), "")))),
       arrival := Some(f.arrival.value.(airport := OrOpt(ArrivalAirport(av), f.arrival.value.airport),
                                        iata := Some(OrElse(ArrivalIata(av), "")))))
  }

  /**
   * Enrichment replaces a name or airport only with a truthy lookup value,
   * always sets both airport codes (to `''` when the lookup lacks them),
   * sets the ICAO code or clears it, and leaves the rest of the record alone.
   */
  lemma EnrichedFields(f: Flight, av: Flight)
    requires HasParts(f)
    ensures var r := Enriched(f, av);
      && HasParts(r)
      && AirlineName(r) == (if Truthy(AirlineName(av)) then AirlineName(av) else AirlineName(f))
      && DepartureAirport(r) == (if Truthy(DepartureAirport(av)) then DepartureAirport(av) else DepartureAirport(f))
      && ArrivalAirport(r) == (if Truthy(ArrivalAirport(av)) then ArrivalAirport(av) else ArrivalAirport(f))
      && DepartureIata(r) == Some(if Truthy(DepartureIata(av)) then DepartureIata(av).value else "")
      && ArrivalIata(r) == Some(if Truthy(ArrivalIata(av)) then ArrivalIata(av).value else "")
      && (Truthy(Icao(av)) ==> Icao(r) == Icao(av)) && (!Truthy(Icao(av)) ==> Icao(r) == None)
      && Number(r) == Number(f) && Iata(r) == Iata(f) && r.status == f.status
      && DepartureStamp(r) == DepartureStamp(f)
      && r.departure.value.scheduled == f.departure.value.scheduled
      && r.departure.value.estimated == f.departure.value.estimated
      && r.departure.value.actual == f.departure.value.actual
  {
  }

  /**
   * What `fetchOpenSkyFlight` returns, given the live-state response and
   * what the lookup's `fetchJsonSafe` returned.
   */
  function FallbackFlight(key: Option<string>, live: Option<LiveData>, lookup: Option<Json<Flight>>,
                          patterns: seq<string>): Option<Flight>
  {
    if live.None? || live.value.states.None? then None
    else
      var states := live.value.states.value;
      match FirstMatch(states, patterns)
      case None => None
      case Some(i) =>
        var base := BaseRecord(states[i].callsign.value);
        if Truthy(key) && FirstItem(lookup).Some? then Some(Enriched(base, FirstItem(lookup).value))
        else Some(base)
  }

  /**
   * The fallback yields a record exactly when some state matches; the record
   * comes from the first matching state, keeps its callsign untrimmed as the
   * IATA code and has status `active`; without a key or a lookup result its
   * airline and airports are unknown.
   */
  lemma FallbackChoice(key: Option<string>, live: Option<LiveData>, lookup: Option<Json<Flight>>,
                       patterns: seq<string>)
    ensures var r := FallbackFlight(key, live, lookup, patterns);
      && (r.Some? <==> live.Some? && live.value.states.Some?
                       && exists j :: 0 <= j < |live.value.states.value|
                                      && StateMatches(live.value.states.value[j], patterns))
      && (r.Some? ==> exists k ::
            && 0 <= k < |live.value.states.value|
            && StateMatches(live.value.states.value[k], patterns)
            && (forall j :: 0 <= j < k ==> !StateMatches(live.value.states.value[j], patterns))
            && Iata(r.value) == live.value.states.value[k].callsign
            && r.value.status == Some("active")
            && Number(r.value) == None)
      && (r.Some? && (!Truthy(key) || FirstItem(lookup).None?) ==>
            && AirlineName(r.value) == Some(UnknownAirline)
            && DepartureAirport(r.value) == Some(UnknownAirport)
            && ArrivalAirport(r.value) == Some(UnknownAirport)
            && Icao(r.value) == None)
  {
    var r := FallbackFlight(key, live, lookup, patterns);
    if r.Some? {
      var states := live.value.states.value;
      var k := FirstMatch(states, patterns).value;
      var base := BaseRecord(states[k].callsign.value);
      if Truthy(key) && FirstItem(lookup).Some? {
        EnrichedFields(base, FirstItem(lookup).value);
      }
    }
  }

  /**
   * `fetchOpenSkyFlight`: find the match, build the record, and overwrite its
   * fields in place from the lookup, which runs only when a key is set.
   */
  method FetchOpenSkyFlight(key: Option<string>, live: Option<LiveData>,
                            lookupOutcomes: seq<Attempt<Json<Flight>>>, patterns: seq<string>)
    returns (result: Option<Flight>)
    requires 3 <= |lookupOutcomes|
    ensures result == FallbackFlight(key, live, FetchSpec(lookupOutcomes, 3).result, patterns)
  {
    if live.None? || live.value.states.None? {
      return None;
    }
    var states := live.value.states.value;
    var found := FirstMatch(states, patterns);
    if found.None? {
      return None;
    }
    var callsign := states[found.value].callsign.value;
    var flight := BaseRecord(callsign);
    if Truthy(key) {
      var avData, _ := FetchJsonSafe(lookupOutcomes, 3);
      var avFlight := FirstItem(avData);
      if avFlight.Some? {
        var av := avFlight.value;
        flight := flight.(airline := Some(flight.airline.value.(name := OrOpt(AirlineName(av), flight.airline.value.name))));
        flight := flight.(departure := Some(flight.departure.value.(airport := OrOpt(DepartureAirport(av), flight.departure.value.airport))));
        flight := flight.(departure := Some(flight.departure.value.(iata := Some(OrElse(DepartureIata(av), "")))));
        flight := flight.(arrival := Some(flight.arrival.value.(airport := OrOpt(ArrivalAirport(av), flight.arrival.value.airport))));
        flight := flight.(arrival := Some(flight.arrival.value.(iata := Some(OrElse(ArrivalIata(av), "")))));
        flight := flight.(flight := Some(flight.flight.value.(icao := if Truthy(Icao(av)) then Icao(av) else None)));
      }
    }
    return Some(flight);
  }
}
