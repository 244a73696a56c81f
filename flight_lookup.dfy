/**
 * The pure part of the `/api/flight` handler: given the request's query
 * parameters and the list of flights the provider returned, either reject
 * the request or assemble the response record (without the airport details
 * fetched separately for each end).
 */
module FlightLookup {
  import opened Wrappers
  import opened JsText
  import opened AircraftType
  import opened Duration

  /** One end of a provider flight: `airport.iata`, `scheduledTime` and `terminal`. */
  datatype Leg = Leg(iata: Option<string>, schedule: Schedule, terminal: Option<string>)

  /** The fields of a provider flight that the handler reads. */
  datatype Flight = Flight(
    departure: Leg,
    arrival: Leg,
    airline: Option<string>,
    aircraftModel: Option<string>,
    aircraftReg: Option<string>)

  /** One end of the response: its code, its local scheduled time and its terminal. */
  datatype Endpoint = Endpoint(iata: string, scheduledLocal: Option<string>, terminal: Option<string>)

  /** The `aircraft` object of the response, with `type` as the string the server sends. */
  datatype Aircraft = Aircraft(model: Option<string>, typeName: string, reg: Option<string>)

  /** The response record. */
  datatype FlightRecord = FlightRecord(
    number: string,
    airline: Option<string>,
    date: string,
    departure: Endpoint,
    arrival: Endpoint,
    aircraft: Aircraft,
    durationMin: Option<int>)

  /** The rejections the handler itself makes (a 400 and two 404 responses). */
  datatype LookupError = MissingFlightNumber | NoFlightOnDate | AirportDataUnavailable

  /** The text of an optional timestamp (`scheduledTime?.local`). */
  function TextOf(t: Option<Timestamp>): Option<string> {
    if t.Some? then Some(t.value.text) else None
  }

  /** The response's view of one end, once its code is known to be truthy. */
  function EndpointOf(leg: Leg): (e: Endpoint)
    requires Truthy(leg.iata)
    ensures e.iata == leg.iata.value && e.iata != ""
    ensures e.scheduledLocal == OrNull(TextOf(leg.schedule.local))
    ensures e.terminal == OrNull(leg.terminal)
  {
    Endpoint(leg.iata.value, OrNull(TextOf(leg.schedule.local)), OrNull(leg.terminal))
  }

  /** The `aircraft` object: model and registration defaulted to `null`, type classified from the model. */
  function AircraftOf(f: Flight): (a: Aircraft)
    ensures a.typeName == Name(DetectAircraftType(f.aircraftModel))
    ensures a.model == OrNull(f.aircraftModel)
    ensures a.reg == OrNull(f.aircraftReg)
  {
    Aircraft(OrNull(f.aircraftModel), Name(DetectAircraftType(f.aircraftModel)), OrNull(f.aircraftReg))
  }

  /**
   * The handler: a falsy flight number is a 400, an empty flight list and a
   * first flight lacking either airport code are 404s, and otherwise the
   * record is built from the first flight. `today` stands for the current
   * date that the server reads from the clock.
   */
  function Lookup(number: Option<string>, date: Option<string>, today: string, flights: seq<Flight>)
    : (r: Result<FlightRecord, LookupError>)
    ensures !Truthy(number) ==> r == Failure(MissingFlightNumber)
    ensures Truthy(number) && flights == [] ==> r == Failure(NoFlightOnDate)
    ensures Truthy(number) && flights != [] ==>
      (r == Failure(AirportDataUnavailable) <==>
        !Truthy(flights[0].departure.iata) || !Truthy(flights[0].arrival.iata))
    ensures r.Success? ==>
      && Truthy(number) && flights != []
      && r.value.number == Upper(number.value)
      && r.value.date == (if Truthy(date) then date.value else today)
      && r.value.airline == OrNull(flights[0].airline)
      && r.value.departure == EndpointOf(flights[0].departure)
      && r.value.arrival == EndpointOf(flights[0].arrival)
      && r.value.aircraft == AircraftOf(flights[0])
      && r.value.durationMin == ScheduledDuration(flights[0].departure.schedule, flights[0].arrival.schedule)
  {
    if !Truthy(number) then Failure(MissingFlightNumber)
    else if flights == [] then Failure(NoFlightOnDate)
    else
      var f := flights[0];
      if !Truthy(f.departure.iata) || !Truthy(f.arrival.iata) then Failure(AirportDataUnavailable)
      else
        Success(FlightRecord(
          Upper(number.value),
          OrNull(f.airline),
          if Truthy(date) then date.value else today,
          EndpointOf(f.departure),
          EndpointOf(f.arrival),
          AircraftOf(f),
          ScheduledDuration(f.departure.schedule, f.arrival.schedule)))
  }

  // ---------------------------------------------------------------------------
  // Properties.

  /** Only the first flight of the provider's list is looked at. */
  lemma OnlyFirstFlightUsed(number: Option<string>, date: Option<string>, today: string, flights: seq<Flight>)
    requires flights != []
    ensures Lookup(number, date, today, flights) == Lookup(number, date, today, flights[..1])
  {
  }

  /** A record is produced exactly when the number is truthy, a flight exists and both its airport codes are truthy. */
  lemma RecordIffCodesPresent(number: Option<string>, date: Option<string>, today: string, flights: seq<Flight>)
    ensures Lookup(number, date, today, flights).Success? <==>
      Truthy(number) && flights != [] && Truthy(flights[0].departure.iata) && Truthy(flights[0].arrival.iata)
  {
  }

  /** In every record, an aircraft without a model is the baseline A320, and a model is never `""`. */
  lemma NoModelMeansBaseline(number: Option<string>, date: Option<string>, today: string, flights: seq<Flight>)
    requires Lookup(number, date, today, flights).Success?
    ensures Lookup(number, date, today, flights).value.aircraft.model == None ==>
      Lookup(number, date, today, flights).value.aircraft.typeName == "A320"
    ensures Lookup(number, date, today, flights).value.aircraft.model != Some("")
  {
  }
}
