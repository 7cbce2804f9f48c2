/** The flight admin page (src/app/admin/flights/page.tsx). */
module AdminFlights {
  import opened Wrappers
  import opened Types
  import opened Json
  import Decimal
  import Text
  import AdminApi

  /** The form's fields, all held as the strings the inputs produce. */
  datatype FlightForm = FlightForm(
    airlineId: string,
    flightNumber: string,
    originAirportId: string,
    destinationAirportId: string,
    scheduledDeparture: string,
    scheduledArrival: string,
    gate: string,
    terminal: string,
    status: string,
    remarks: string)

  /** The form's first state, and the state `resetForm` restores. */
  const InitialForm: FlightForm := FlightForm("", "", "", "", "", "", "", "", "SCHEDULED", "")

  /** `submitData`: what is sent for a form. `None` is `null` (or `NaN`, which is sent as `null`). */
  datatype FlightPayload = FlightPayload(
    airlineId: Option<int>,
    flightNumber: string,
    originAirportId: Option<int>,
    destinationAirportId: Option<int>,
    scheduledDeparture: string,
    scheduledArrival: string,
    gate: Option<string>,
    terminal: Option<string>,
    status: string,
    remarks: Option<string>)

  /** `s || null`. */
  function OrNull(s: string): (r: Option<string>)
    ensures r.None? <==> s == ""
    ensures r.Some? ==> r.value == s
  {
    if s != "" then Some(s) else None
  }

  /** `s || ''` for a string that may be null. */
  function OrEmpty(s: Option<string>): (r: string)
    ensures r == "" <==> s.None? || s.value == ""
    ensures r != "" ==> s == Some(r)
  {
    if s.Some? then s.value else ""
  }

  /** A nullable string with the empty string also read as absent. */
  function NonEmpty(s: Option<string>): Option<string>
  {
    if s.Some? && s.value != "" then s else None
  }

  /**
   * `submitData`: the three ids go through `parseInt`, empty gate, terminal
   * and remarks become `null`, every other field is copied.
   */
  function SubmitData(f: FlightForm): (p: FlightPayload)
    ensures p.airlineId == Decimal.ParseInt(f.airlineId)
    ensures p.originAirportId == Decimal.ParseInt(f.originAirportId)
    ensures p.destinationAirportId == Decimal.ParseInt(f.destinationAirportId)
    ensures p.gate.None? <==> f.gate == ""
    ensures p.terminal.None? <==> f.terminal == ""
    ensures p.remarks.None? <==> f.remarks == ""
    ensures p.gate.Some? ==> p.gate.value == f.gate
    ensures p.terminal.Some? ==> p.terminal.value == f.terminal
    ensures p.remarks.Some? ==> p.remarks.value == f.remarks
    ensures p.flightNumber == f.flightNumber && p.status == f.status
    ensures p.scheduledDeparture == f.scheduledDeparture && p.scheduledArrival == f.scheduledArrival
  {
    FlightPayload(
      Decimal.ParseInt(f.airlineId), f.flightNumber,
      Decimal.ParseInt(f.originAirportId), Decimal.ParseInt(f.destinationAirportId),
      f.scheduledDeparture, f.scheduledArrival,
      OrNull(f.gate), OrNull(f.terminal), f.status, OrNull(f.remarks))
  }

  /** The members of the payload: those of the form, under the backend's names. */
  const PayloadKeys: set<string> := {"airline_id", "flight_number", "origin_airport_id", "destination_airport_id",
                                     "scheduled_departure", "scheduled_arrival", "gate", "terminal", "status", "remarks"}

  /** The JSON object `JSON.stringify` is given: the form's ten keys. */
  function PayloadJson(p: FlightPayload): (j: Json)
    ensures j.JObject?
    ensures j.fields.Keys == PayloadKeys
    ensures j.fields["gate"] == JNull <==> p.gate.None?
    ensures j.fields["terminal"] == JNull <==> p.terminal.None?
    ensures j.fields["remarks"] == JNull <==> p.remarks.None?
    ensures j.fields["airline_id"] == IntOrNull(p.airlineId)
    ensures j.fields["origin_airport_id"] == IntOrNull(p.originAirportId)
    ensures j.fields["destination_airport_id"] == IntOrNull(p.destinationAirportId)
    ensures j.fields["flight_number"] == JString(p.flightNumber) && j.fields["status"] == JString(p.status)
    ensures j.fields["scheduled_departure"] == JString(p.scheduledDeparture)
    ensures j.fields["scheduled_arrival"] == JString(p.scheduledArrival)
    ensures j.fields["gate"] == StringOrNull(p.gate) && j.fields["terminal"] == StringOrNull(p.terminal)
    ensures j.fields["remarks"] == StringOrNull(p.remarks)
  {
    var fields := map[
      "airline_id" := IntOrNull(p.airlineId),
      "flight_number" := JString(p.flightNumber),
      "origin_airport_id" := IntOrNull(p.originAirportId),
      "destination_airport_id" := IntOrNull(p.destinationAirportId),
      "scheduled_departure" := JString(p.scheduledDeparture),
      "scheduled_arrival" := JString(p.scheduledArrival),
      "gate" := StringOrNull(p.gate),
      "terminal" := StringOrNull(p.terminal),
      "status" := JString(p.status),
      "remarks" := StringOrNull(p.remarks)];
    JObject(fields)
  }

  /**
   * `handleSubmit`'s request: none when origin and destination are the same
   * string, else an update of the edit target or a create.
   */
  function SubmitRequest(f: FlightForm, editing: Option<Flight>): (r: Option<AdminApi.Request>)
    ensures r.None? <==> f.originAirportId == f.destinationAirportId
    ensures r.Some? ==> r.value.body == Some(PayloadJson(SubmitData(f)))
    ensures r.Some? ==> (r.value.verb == AdminApi.Put <==> editing.Some?)
    ensures r.Some? && editing.Some? ==> r.value.path == AdminApi.TargetPath(AdminApi.Item(AdminApi.Flights, editing.value.id))
    ensures r.Some? && editing.Some? ==> AdminApi.ParseTarget(r.value.path) == Some(AdminApi.Item(AdminApi.Flights, editing.value.id))
    ensures r.Some? && editing.None? ==> r.value.verb == AdminApi.Post
    ensures r.Some? && editing.None? ==> r.value.path == AdminApi.TargetPath(AdminApi.Whole(AdminApi.Flights))
    ensures r.Some? && editing.None? ==> AdminApi.ParseTarget(r.value.path) == Some(AdminApi.Whole(AdminApi.Flights))
  {
    if f.originAirportId == f.destinationAirportId then None
    else
      var body := PayloadJson(SubmitData(f));
      match editing
      case Some(flight) => Some(AdminApi.UpdateRequest(AdminApi.Flights, flight.id, body))
      case None => Some(AdminApi.CreateRequest(AdminApi.Flights, body))
  }

  /**
   * `handleEdit`'s form: ids written out, the two datetimes cut to their
   * first 16 characters (`YYYY-MM-DDTHH:mm`), null gate, terminal and
   * remarks shown as ''.
   */
  function FormFromFlight(fl: Flight): (f: FlightForm)
    ensures f.airlineId == Decimal.NatToString(fl.airlineId)
    ensures f.originAirportId == Decimal.NatToString(fl.originAirportId)
    ensures f.destinationAirportId == Decimal.NatToString(fl.destinationAirportId)
    ensures Decimal.AllDigits(f.airlineId) && Decimal.AllDigits(f.originAirportId) && Decimal.AllDigits(f.destinationAirportId)
    ensures |f.scheduledDeparture| == if |fl.scheduledDeparture| < 16 then |fl.scheduledDeparture| else 16
    ensures f.scheduledDeparture == fl.scheduledDeparture[..|f.scheduledDeparture|]
    ensures |f.scheduledArrival| == if |fl.scheduledArrival| < 16 then |fl.scheduledArrival| else 16
    ensures f.scheduledArrival == fl.scheduledArrival[..|f.scheduledArrival|]
    ensures f.gate == OrEmpty(fl.gate) && f.terminal == OrEmpty(fl.terminal) && f.remarks == OrEmpty(fl.remarks)
    ensures f.status == fl.status && f.flightNumber == fl.flightNumber
  {
    FlightForm(
      Decimal.NatToString(fl.airlineId), fl.flightNumber,
      Decimal.NatToString(fl.originAirportId), Decimal.NatToString(fl.destinationAirportId),
      Text.Prefix(fl.scheduledDeparture, 16), Text.Prefix(fl.scheduledArrival, 16),
      OrEmpty(fl.gate), OrEmpty(fl.terminal), fl.status, OrEmpty(fl.remarks))
  }

  /**
   * Editing a flight and saving it unchanged sends back its ids, its
   * non-empty gate, terminal and remarks (null stays null, '' becomes null),
   * its status and number, and its datetimes cut to 16 characters.
   */
  lemma EditThenSubmitRoundTrip(fl: Flight)
    ensures var p := SubmitData(FormFromFlight(fl));
            && p.airlineId == Some(fl.airlineId)
            && p.originAirportId == Some(fl.originAirportId)
            && p.destinationAirportId == Some(fl.destinationAirportId)
            && p.gate == NonEmpty(fl.gate)
            && p.terminal == NonEmpty(fl.terminal)
            && p.remarks == NonEmpty(fl.remarks)
            && p.flightNumber == fl.flightNumber && p.status == fl.status
            && p.scheduledDeparture == Text.Prefix(fl.scheduledDeparture, 16)
            && p.scheduledArrival == Text.Prefix(fl.scheduledArrival, 16)
  {
    Decimal.ParseIntOfString(fl.airlineId);
    Decimal.ParseIntOfString(fl.originAirportId);
    Decimal.ParseIntOfString(fl.destinationAirportId);
  }

  /**
   * An edited flight can be saved exactly when its stored origin and
   * destination differ, and then it goes as an update of that flight.
   */
  lemma EditedFlightSubmittable(fl: Flight)
    ensures SubmitRequest(FormFromFlight(fl), Some(fl)).Some? <==> fl.originAirportId != fl.destinationAirportId
  {
    if FormFromFlight(fl).originAirportId == FormFromFlight(fl).destinationAirportId {
      Decimal.NatToStringInjective(fl.originAirportId, fl.destinationAirportId);
    }
  }

  /** The page's state: the lists it shows and the form. */
  class AdminFlightsPage {
    var flights: seq<Flight>
    var airlines: seq<Airline>
    var airports: seq<Airport>
    var showForm: bool
    var editing: Option<Flight>
    var formData: FlightForm

    constructor ()
      ensures flights == [] && airlines == [] && airports == []
      ensures !showForm && editing.None? && formData == InitialForm
    {
      flights, airlines, airports := [], [], [];
      showForm, editing, formData := false, None, InitialForm;
    }

    /**
     * `loadData`: the three lists are replaced together when all three
     * fetches succeed (`Promise.all`); on a failure nothing changes.
     */
    method LoadData(fetched: Option<(seq<Flight>, seq<Airline>, seq<Airport>)>)
      modifies this`flights, this`airlines, this`airports
      ensures fetched.Some? ==> flights == fetched.value.0 && airlines == fetched.value.1 && airports == fetched.value.2
      ensures fetched.None? ==> flights == old(flights) && airlines == old(airlines) && airports == old(airports)
    {
      if fetched.Some? {
        flights, airlines, airports := fetched.value.0, fetched.value.1, fetched.value.2;
      }
    }

    /** The header button: `setShowForm(!showForm)`. */
    method ToggleForm()
      modifies this`showForm
      ensures showForm == !old(showForm)
    {
      showForm := !showForm;
    }

    /** `resetForm`: back to the initial form, no edit target, form hidden. */
    method ResetForm()
      modifies this`formData, this`editing, this`showForm
      ensures formData == InitialForm && editing.None? && !showForm
    {
      formData := InitialForm;
      editing := None;
      showForm := false;
    }

    /** `handleEdit`: the flight becomes the edit target and fills the shown form. */
    method HandleEdit(fl: Flight)
      modifies this`formData, this`editing, this`showForm
      ensures editing == Some(fl) && formData == FormFromFlight(fl) && showForm
    {
      editing := Some(fl);
      formData := FormFromFlight(fl);
      showForm := true;
    }

    /**
     * `handleSubmit`: `sent` is the request issued, if any; `saved` is
     * whether the backend accepted it. Only a save that succeeded resets
     * the form; a refused route or a failed save leaves it as it was. (The
     * list is then reloaded by a separate `LoadData`.)
     */
    method HandleSubmit(saved: bool) returns (sent: Option<AdminApi.Request>)
      modifies this`formData, this`editing, this`showForm
      ensures sent == SubmitRequest(old(formData), old(editing))
      ensures sent.Some? && saved ==> formData == InitialForm && editing.None? && !showForm
      ensures sent.None? || !saved ==>
                formData == old(formData) && editing == old(editing) && showForm == old(showForm)
    {
      if formData.originAirportId == formData.destinationAirportId {
        return None;
      }
      var body := PayloadJson(SubmitData(formData));
      if editing.Some? {
        sent := Some(AdminApi.UpdateRequest(AdminApi.Flights, editing.value.id, body));
      } else {
        sent := Some(AdminApi.CreateRequest(AdminApi.Flights, body));
      }
      if saved {
        ResetForm();
      }
    }

    /** `handleDelete`: a DELETE of the flight when the user confirms, nothing otherwise. */
    method HandleDelete(id: nat, confirmed: bool) returns (sent: Option<AdminApi.Request>)
      ensures sent.Some? <==> confirmed
      ensures sent.Some? ==> sent.value.verb == AdminApi.Delete && sent.value.body.None?
      ensures sent.Some? ==> sent.value.path == AdminApi.TargetPath(AdminApi.Item(AdminApi.Flights, id))
      ensures sent.Some? ==> AdminApi.ParseTarget(sent.value.path) == Some(AdminApi.Item(AdminApi.Flights, id))
    {
      if !confirmed {
        return None;
      }
      sent := Some(AdminApi.DeleteRequest(AdminApi.Flights, id));
    }
  }
}
