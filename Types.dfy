/**
 * The entities the pages receive from the backend (src/lib/types.ts and its
 * duplicate src/types/index.ts) and the six flight statuses.
 */
module Types {
  import opened Wrappers

  /** The lifecycle of a flight: exactly six statuses. */
  datatype FlightStatus = Scheduled | Boarding | Departed | Delayed | Cancelled | Arrived
  {
    /** The wire spelling of the status. */
    function Code(): string
    {
      match this
      case Scheduled => "SCHEDULED"
      case Boarding => "BOARDING"
      case Departed => "DEPARTED"
      case Delayed => "DELAYED"
      case Cancelled => "CANCELLED"
      case Arrived => "ARRIVED"
    }
  }

  /** The status a raw string from the backend spells, if any. */
  function ParseStatus(raw: string): (r: Option<FlightStatus>)
    ensures r.Some? ==> r.value.Code() == raw
    ensures r.None? ==> forall s: FlightStatus :: s.Code() != raw
  {
    if raw == "SCHEDULED" then Some(Scheduled)
    else if raw == "BOARDING" then Some(Boarding)
    else if raw == "DEPARTED" then Some(Departed)
    else if raw == "DELAYED" then Some(Delayed)
    else if raw == "CANCELLED" then Some(Cancelled)
    else if raw == "ARRIVED" then Some(Arrived)
    else None
  }

  /** Every status is read back from its own code. */
  lemma ParseStatusOfCode(s: FlightStatus)
    ensures ParseStatus(s.Code()) == Some(s)
  {
  }

  datatype Airline = Airline(
    id: nat,
    code: string,
    name: string,
    logoUrl: Option<string>,
    country: string,
    isActive: bool)

  datatype Airport = Airport(
    id: nat,
    code: string,
    name: string,
    city: string,
    country: string,
    timezone: string,
    latitude: Option<real>,
    longitude: Option<real>,
    isActive: bool)

  /**
   * A flight as the backend sends it. `status` is kept as the raw string:
   * the pages must cope with values outside the six statuses.
   * `actual_departure`, `actual_arrival` and the timestamps are not used by
   * the modelled code and are left out.
   */
  datatype Flight = Flight(
    id: nat,
    airlineId: nat,
    flightNumber: string,
    originAirportId: nat,
    destinationAirportId: nat,
    scheduledDeparture: string,
    scheduledArrival: string,
    gate: Option<string>,
    terminal: Option<string>,
    status: string,
    remarks: Option<string>,
    delayMinutes: int,
    airline: Option<Airline>,
    originAirport: Option<Airport>,
    destinationAirport: Option<Airport>)
}
