/** The departure / arrival board (src/components/FlightBoard.tsx). */
module FlightBoard {
  import opened Wrappers
  import opened Types
  import Decimal
  import StatusBadge

  /** The board's `type` prop. */
  datatype BoardType = Departure | Arrival

  /** The board's heading. */
  function Title(t: BoardType): (title: string)
    ensures t == Departure ==> title == "KEBERANGKATAN"
    ensures t == Arrival ==> title == "KEDATANGAN"
  {
    if t == Departure then "KEBERANGKATAN" else "KEDATANGAN"
  }

  /** The header of the place column: where a departure goes, where an arrival comes from. */
  function PlaceHeader(t: BoardType): (header: string)
    ensures t == Departure ==> header == "TUJUAN"
    ensures t == Arrival ==> header == "ASAL"
  {
    if t == Departure then "TUJUAN" else "ASAL"
  }

  /** The line under the time: `+N menit` for a positive delay, nothing otherwise. */
  function DelayNote(delayMinutes: int): (note: Option<string>)
    ensures note.Some? <==> delayMinutes > 0
    ensures note.Some? ==> |note.value| > 7 && note.value[0] == '+'
                           && note.value[|note.value| - 6..] == " menit"
  {
    if delayMinutes > 0 then Some("+" + Decimal.NatToString(delayMinutes) + " menit") else None
  }

  /** The delay note reads back as the delay: the number after `+` is the minutes. */
  lemma DelayNoteShowsMinutes(delayMinutes: int)
    requires delayMinutes > 0
    ensures Decimal.ParseInt(DelayNote(delayMinutes).value[1..]) == Some(delayMinutes)
  {
    var note := DelayNote(delayMinutes).value;
    assert note[1..] == Decimal.NatToString(delayMinutes) + " menit";
    Decimal.ParseIntOfNumeralThen(delayMinutes, " menit");
  }

  /** `value || '-'`: a missing or empty text shows as a dash. */
  function OrDash(v: Option<string>): (shown: string)
    ensures shown == "-" || (v.Some? && shown == v.value)
    ensures v.Some? && v.value != "" ==> shown == v.value
    ensures shown != ""
  {
    if v.Some? && v.value != "" then v.value else "-"
  }

  /** `terminal && "Terminal " + terminal`: shown only for a non-empty terminal. */
  function TerminalNote(terminal: Option<string>): (note: Option<string>)
    ensures note.Some? <==> terminal.Some? && terminal.value != ""
    ensures note.Some? ==> note.value == "Terminal " + terminal.value
  {
    if terminal.Some? && terminal.value != "" then Some("Terminal " + terminal.value) else None
  }

  /** One board row, with the airport and the time chosen by the board type. */
  datatype Row = Row(
    time: string,
    delayNote: Option<string>,
    flightNumber: string,
    detailHref: string,
    place: Option<Airport>,
    airline: Option<Airline>,
    gate: string,
    terminalNote: Option<string>,
    badge: StatusBadge.Badge,
    remarks: string)

  /**
   * The row of one flight. `formatTime` stands for the locale time formatting
   * the board applies to the scheduled timestamp.
   */
  function BoardRow(f: Flight, t: BoardType, formatTime: string -> string): (r: Row)
    ensures r.place == (if t == Departure then f.destinationAirport else f.originAirport)
    ensures r.time == formatTime(if t == Departure then f.scheduledDeparture else f.scheduledArrival)
    ensures r.delayNote == DelayNote(f.delayMinutes)
    ensures r.flightNumber == f.flightNumber && r.airline == f.airline
    ensures r.detailHref == "/flights/" + Decimal.NatToString(f.id)
    ensures r.gate == OrDash(f.gate) && r.terminalNote == TerminalNote(f.terminal)
    ensures r.badge == StatusBadge.Render(f.status)
    ensures r.remarks == OrDash(f.remarks)
  {
    var place := if t == Departure then f.destinationAirport else f.originAirport;
    var time := formatTime(if t == Departure then f.scheduledDeparture else f.scheduledArrival);
    Row(time, DelayNote(f.delayMinutes), f.flightNumber, "/flights/" + Decimal.NatToString(f.id),
        place, f.airline, OrDash(f.gate), TerminalNote(f.terminal),
        StatusBadge.Render(f.status), OrDash(f.remarks))
  }

  /**
   * The same flight on the two boards: only the time and the place column
   * differ, and they swap departure for arrival and destination for origin.
   */
  lemma BoardsDifferOnlyInTimeAndPlace(f: Flight, formatTime: string -> string)
    ensures BoardRow(f, Departure, formatTime).(time := formatTime(f.scheduledArrival),
                                                place := f.originAirport)
            == BoardRow(f, Arrival, formatTime)
  {
  }

  /** The table body: a single "no flights" row, or one row per flight. */
  datatype Body = NoFlights | Rows(rows: seq<Row>)

  /** The whole board: heading, place-column header, body and footer total. */
  datatype Board = Board(title: string, placeHeader: string, body: Body, total: nat)

  /** `flights.map(...)`: one row per flight, in order. */
  function BoardRows(flights: seq<Flight>, t: BoardType, formatTime: string -> string): (rows: seq<Row>)
    ensures |rows| == |flights|
    ensures forall i :: 0 <= i < |flights| ==> rows[i] == BoardRow(flights[i], t, formatTime)
  {
    if flights == [] then [] else [BoardRow(flights[0], t, formatTime)] + BoardRows(flights[1..], t, formatTime)
  }

  /** `FlightBoard({flights, type})`. */
  function Render(flights: seq<Flight>, t: BoardType, formatTime: string -> string): (b: Board)
    ensures b.title == Title(t) && b.placeHeader == PlaceHeader(t)
    ensures b.total == |flights|
    ensures b.body.NoFlights? <==> flights == []
    ensures b.body.Rows? ==> |b.body.rows| == |flights|
    ensures b.body.Rows? ==> forall i :: 0 <= i < |flights| ==> b.body.rows[i] == BoardRow(flights[i], t, formatTime)
  {
    var body := if flights == [] then NoFlights else Rows(BoardRows(flights, t, formatTime));
    Board(Title(t), PlaceHeader(t), body, |flights|)
  }

  /** How many rows the table body shows. */
  function VisibleRows(b: Body): nat
  {
    if b.NoFlights? then 1 else |b.rows|
  }

  /** The body always shows at least one row, and exactly the total when there are flights. */
  lemma VisibleRowsMatchTotal(flights: seq<Flight>, t: BoardType, formatTime: string -> string)
    ensures VisibleRows(Render(flights, t, formatTime).body) == if flights == [] then 1 else |flights|
    ensures VisibleRows(Render(flights, t, formatTime).body) >= 1
  {
  }

  /** A row shows a delay note exactly for a delayed-minutes count above zero, and the right one. */
  lemma {:induction false} DelayedRowsAreMarked(flights: seq<Flight>, t: BoardType, formatTime: string -> string, i: nat)
    requires i < |flights|
    ensures Render(flights, t, formatTime).body.Rows?
    ensures Render(flights, t, formatTime).body.rows[i].delayNote.Some? <==> flights[i].delayMinutes > 0
    ensures flights[i].delayMinutes > 0 ==>
              Decimal.ParseInt(Render(flights, t, formatTime).body.rows[i].delayNote.value[1..])
              == Some(flights[i].delayMinutes)
  {
    if flights[i].delayMinutes > 0 {
      DelayNoteShowsMinutes(flights[i].delayMinutes);
    }
  }
}
