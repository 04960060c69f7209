/**
 * The flight record the providers return and the feed consumes.  Every
 * field the program reads through optional chaining (`flight.departure?.iata`)
 * is an `Option`; a JavaScript `null` and an absent key are both `None`.
 */
module Flights {
  import opened Wrappers

  /**
   * A departure timestamp as the provider sends it: its text, and the
   * milliseconds since the epoch that `new Date(text).getTime()` gives for it.
   */
  datatype Stamp = Stamp(text: string, millis: int)

  datatype FlightIds = FlightIds(number: Option<string>, iata: Option<string>, icao: Option<string>)

  datatype Airline = Airline(name: Option<string>)

  datatype Departure = Departure(
    airport: Option<string>,
    iata: Option<string>,
    scheduled: Option<Stamp>,
    estimated: Option<Stamp>,
    actual: Option<Stamp>)

  datatype Arrival = Arrival(airport: Option<string>, iata: Option<string>)

  /** A flight record: `flight`, `airline`, `departure`, `arrival` and `flight_status`. */
  datatype Flight = Flight(
    flight: Option<FlightIds>,
    airline: Option<Airline>,
    departure: Option<Departure>,
    arrival: Option<Arrival>,
    status: Option<string>)

  /** A timestamp string is truthy when present and non-empty. */
  predicate StampTruthy(o: Option<Stamp>) {
    o.Some? && o.value.text != ""
  }

  // Optional-chaining reads, `undefined` where any link of the chain is missing.

  function Number(f: Flight): Option<string> {
    if f.flight.Some? then f.flight.value.number else None
  }

  function Iata(f: Flight): Option<string> {
    if f.flight.Some? then f.flight.value.iata else None
  }

  function Icao(f: Flight): Option<string> {
    if f.flight.Some? then f.flight.value.icao else None
  }

  function AirlineName(f: Flight): Option<string> {
    if f.airline.Some? then f.airline.value.name else None
  }

  function DepartureAirport(f: Flight): Option<string> {
    if f.departure.Some? then f.departure.value.airport else None
  }

  function DepartureIata(f: Flight): Option<string> {
    if f.departure.Some? then f.departure.value.iata else None
  }

  function ArrivalAirport(f: Flight): Option<string> {
    if f.arrival.Some? then f.arrival.value.airport else None
  }

  function ArrivalIata(f: Flight): Option<string> {
    if f.arrival.Some? then f.arrival.value.iata else None
  }

  /**
   * `departure?.scheduled || departure?.estimated || departure?.actual`,
   * `None` when none of the three is a non-empty string.
   */
  function DepartureStamp(f: Flight): (r: Option<Stamp>)
    ensures r.Some? ==> r.value.text != ""
    ensures r.None? <==> (f.departure.None? ||
      (!StampTruthy(f.departure.value.scheduled) && !StampTruthy(f.departure.value.estimated)
       && !StampTruthy(f.departure.value.actual)))
    ensures f.departure.Some? && StampTruthy(f.departure.value.scheduled) ==> r == f.departure.value.scheduled
    ensures f.departure.Some? && !StampTruthy(f.departure.value.scheduled) && StampTruthy(f.departure.value.estimated)
      ==> r == f.departure.value.estimated
    ensures (f.departure.Some? && !StampTruthy(f.departure.value.scheduled)
             && !StampTruthy(f.departure.value.estimated) && StampTruthy(f.departure.value.actual))
      ==> r == f.departure.value.actual
  {
    if f.departure.None? then None
    else
      var d := f.departure.value;
      if StampTruthy(d.scheduled) then d.scheduled
      else if StampTruthy(d.estimated) then d.estimated
      else if StampTruthy(d.actual) then d.actual
      else None
  }
}
