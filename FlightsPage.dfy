/** The "all flights" table (src/app/flights/page.tsx). */
module FlightsPage {
  import opened Types
  import opened Wrappers
  import Api
  import StatusBadge
  import Decimal

  /** The colour chain written inline in the table's status cell. */
  function InlineStatusColor(status: string): (color: string)
    ensures status == "SCHEDULED" ==> color == "bg-blue-500"
    ensures status == "BOARDING" ==> color == "bg-yellow-500"
    ensures status == "DEPARTED" ==> color == "bg-green-500"
    ensures status == "DELAYED" ==> color == "bg-orange-500"
    ensures status == "CANCELLED" ==> color == "bg-red-500"
    ensures status == "ARRIVED" || ParseStatus(status).None? ==> color == "bg-gray-500"
  {
    if status == "SCHEDULED" then "bg-blue-500"
    else if status == "BOARDING" then "bg-yellow-500"
    else if status == "DEPARTED" then "bg-green-500"
    else if status == "DELAYED" then "bg-orange-500"
    else if status == "CANCELLED" then "bg-red-500"
    else "bg-gray-500"
  }

  /** The inline chain and `getStatusColor` agree on every string, ARRIVED included. */
  lemma InlineColorAgrees(status: string)
    ensures InlineStatusColor(status) == Api.GetStatusColor(status)
  {
  }

  /**
   * One table row. Times are the raw timestamps the row formats with
   * `toLocaleTimeString` (formatting is not modelled).
   */
  datatype Row = Row(
    flightNumber: string,
    detailHref: string,
    airline: Option<Airline>,
    origin: Option<Airport>,
    destination: Option<Airport>,
    departureTime: string,
    arrivalTime: string,
    badgeClass: string,
    badgeText: string)

  function TableRow(f: Flight): (r: Row)
    ensures r.badgeClass == StatusBadge.Render(f.status).className
    ensures r.badgeText == f.status
    ensures r.detailHref == "/flights/" + Decimal.NatToString(f.id)
  {
    Row(f.flightNumber, "/flights/" + Decimal.NatToString(f.id), f.airline, f.originAirport,
        f.destinationAirport, f.scheduledDeparture, f.scheduledArrival,
        StatusBadge.BadgeClasses + InlineStatusColor(f.status), f.status)
  }

  /** `flights.map(...)`: one row per flight, in order. */
  function Table(flights: seq<Flight>): (rows: seq<Row>)
    ensures |rows| == |flights|
    ensures forall i :: 0 <= i < |flights| ==> rows[i] == TableRow(flights[i])
  {
    if flights == [] then [] else [TableRow(flights[0])] + Table(flights[1..])
  }

  /**
   * The table's pill has the badge's colour but shows the raw code, never the
   * localized text, for each of the six statuses.
   */
  lemma TableBadgeShowsCode(f: Flight)
    requires ParseStatus(f.status).Some?
    ensures TableRow(f).badgeText != StatusBadge.Render(f.status).text
  {
  }
}
