/**
 * The airport admin page (src/app/admin/airports/page.tsx). Coordinates are
 * numbers; reading one from text (`parseFloat`) and writing one as text
 * (`String`) are given as functions, `None` standing for `NaN`.
 */
module AdminAirports {
  import opened Wrappers
  import opened Types
  import opened Json
  import Text
  import AdminApi

  datatype AirportForm = AirportForm(
    code: string,
    name: string,
    city: string,
    country: string,
    timezone: string,
    latitude: string,
    longitude: string,
    isActive: bool)

  /** The form's first state, and the state `resetForm` restores. */
  const InitialForm: AirportForm := AirportForm("", "", "", "Indonesia", "Asia/Jakarta", "", "", true)

  /** The airport code input: `maxLength={3}`, upper-cased on change. */
  const CodeMaxLength: nat := 3

  /** `text ? parseFloat(text) : null`: an empty coordinate is sent as null. */
  function Coordinate(text: string, parseFloat: string -> Option<real>): (x: Option<real>)
    ensures text == "" ==> x.None?
    ensures text != "" ==> x == parseFloat(text)
  {
    if text != "" then parseFloat(text) else None
  }

  /** `submitData`: the form with the two coordinates read as numbers. */
  function PayloadJson(f: AirportForm, parseFloat: string -> Option<real>): (j: Json)
    ensures j.JObject?
    ensures j.fields.Keys == {"code", "name", "city", "country", "timezone", "latitude", "longitude", "is_active"}
    ensures j.fields["latitude"] == RealOrNull(Coordinate(f.latitude, parseFloat))
    ensures j.fields["longitude"] == RealOrNull(Coordinate(f.longitude, parseFloat))
    ensures f.latitude == "" ==> j.fields["latitude"] == JNull
    ensures f.longitude == "" ==> j.fields["longitude"] == JNull
    ensures j.fields["code"] == JString(f.code) && j.fields["is_active"] == JBool(f.isActive)
    ensures j.fields["name"] == JString(f.name) && j.fields["city"] == JString(f.city)
    ensures j.fields["country"] == JString(f.country) && j.fields["timezone"] == JString(f.timezone)
  {
    JObject(map[
      "code" := JString(f.code),
      "name" := JString(f.name),
      "city" := JString(f.city),
      "country" := JString(f.country),
      "timezone" := JString(f.timezone),
      "latitude" := RealOrNull(Coordinate(f.latitude, parseFloat)),
      "longitude" := RealOrNull(Coordinate(f.longitude, parseFloat)),
      "is_active" := JBool(f.isActive)])
  }

  /** `handleSubmit`'s request: an update of the edit target, else a create. */
  function SubmitRequest(f: AirportForm, editing: Option<Airport>, parseFloat: string -> Option<real>): (r: AdminApi.Request)
    ensures r.body == Some(PayloadJson(f, parseFloat))
    ensures r.verb == AdminApi.Put <==> editing.Some?
    ensures editing.Some? ==> r.path == AdminApi.TargetPath(AdminApi.Item(AdminApi.Airports, editing.value.id))
    ensures editing.Some? ==> AdminApi.ParseTarget(r.path) == Some(AdminApi.Item(AdminApi.Airports, editing.value.id))
    ensures editing.None? ==> r.verb == AdminApi.Post
    ensures editing.None? ==> r.path == AdminApi.TargetPath(AdminApi.Whole(AdminApi.Airports))
    ensures editing.None? ==> AdminApi.ParseTarget(r.path) == Some(AdminApi.Whole(AdminApi.Airports))
  {
    match editing
    case Some(a) => AdminApi.UpdateRequest(AdminApi.Airports, a.id, PayloadJson(f, parseFloat))
    case None => AdminApi.CreateRequest(AdminApi.Airports, PayloadJson(f, parseFloat))
  }

  /** `x ? String(x) : ''`: a null coordinate and a zero one both show as ''. */
  function CoordinateText(x: Option<real>, show: real -> string): (t: string)
    ensures x.None? || x.value == 0.0 ==> t == ""
    ensures x.Some? && x.value != 0.0 ==> t == show(x.value)
  {
    if x.Some? && x.value != 0.0 then show(x.value) else ""
  }

  /** `handleEdit`'s form: the airport's fields, coordinates as text. */
  function FormFromAirport(a: Airport, show: real -> string): (f: AirportForm)
    ensures f.code == a.code && f.name == a.name && f.city == a.city
    ensures f.country == a.country && f.timezone == a.timezone && f.isActive == a.isActive
    ensures f.latitude == CoordinateText(a.latitude, show)
    ensures f.longitude == CoordinateText(a.longitude, show)
  {
    AirportForm(a.code, a.name, a.city, a.country, a.timezone,
                CoordinateText(a.latitude, show), CoordinateText(a.longitude, show), a.isActive)
  }

  /** The coordinate an edit followed by a save sends back: itself, unless it was null or zero. */
  function KeptCoordinate(x: Option<real>): Json
  {
    if x.Some? && x.value != 0.0 then JNumber(x.value) else JNull
  }

  /**
   * Editing an airport and saving it unchanged sends its non-zero
   * coordinates back, provided printing and re-parsing each of them is exact; a
   * coordinate of exactly 0 is sent back as null.
   */
  lemma {:induction false} EditThenSubmitCoordinates(a: Airport, show: real -> string, parseFloat: string -> Option<real>)
    requires a.latitude.Some? && a.latitude.value != 0.0 ==>
               show(a.latitude.value) != "" && parseFloat(show(a.latitude.value)) == a.latitude
    requires a.longitude.Some? && a.longitude.value != 0.0 ==>
               show(a.longitude.value) != "" && parseFloat(show(a.longitude.value)) == a.longitude
    ensures var j := PayloadJson(FormFromAirport(a, show), parseFloat);
            && j.fields["latitude"] == KeptCoordinate(a.latitude)
            && j.fields["longitude"] == KeptCoordinate(a.longitude)
            && j.fields["code"] == JString(a.code)
            && j.fields["is_active"] == JBool(a.isActive)
  {
    var f := FormFromAirport(a, show);
    if a.latitude.Some? && a.latitude.value != 0.0 {
      assert f.latitude == show(a.latitude.value);
      assert Coordinate(f.latitude, parseFloat) == a.latitude;
    }
    if a.longitude.Some? && a.longitude.value != 0.0 {
      assert f.longitude == show(a.longitude.value);
      assert Coordinate(f.longitude, parseFloat) == a.longitude;
    }
  }

  /** An airport on the equator loses its latitude when it is edited and saved. */
  lemma ZeroLatitudeSentAsNull(a: Airport, show: real -> string, parseFloat: string -> Option<real>)
    requires a.latitude == Some(0.0)
    ensures PayloadJson(FormFromAirport(a, show), parseFloat).fields["latitude"] == JNull
  {
  }

  /** The page's state: the list it shows and the form. */
  class AdminAirportsPage {
    var airports: seq<Airport>
    var showForm: bool
    var editing: Option<Airport>
    var formData: AirportForm

    constructor ()
      ensures airports == [] && !showForm && editing.None? && formData == InitialForm
    {
      airports := [];
      showForm, editing, formData := false, None, InitialForm;
    }

    /** `loadAirports`: the list is replaced when the fetch succeeds. */
    method LoadAirports(fetched: Option<seq<Airport>>)
      modifies this`airports
      ensures airports == if fetched.Some? then fetched.value else old(airports)
    {
      if fetched.Some? {
        airports := fetched.value;
      }
    }

    /** The header button: `setShowForm(!showForm)`. */
    method ToggleForm()
      modifies this`showForm
      ensures showForm == !old(showForm)
    {
      showForm := !showForm;
    }

    /** The code input's `onChange`: at most three characters, upper-cased; the rest of the form is kept. */
    method ChangeCode(typed: string)
      modifies this`formData
      ensures formData == old(formData).(code := Text.CodeFieldValue(typed, CodeMaxLength))
      ensures |formData.code| <= CodeMaxLength && Text.HasNoLowerCase(formData.code)
    {
      formData := formData.(code := Text.CodeFieldValue(typed, CodeMaxLength));
    }

    /** `resetForm`: the initial defaults, no edit target, form hidden. */
    method ResetForm()
      modifies this`formData, this`editing, this`showForm
      ensures formData == InitialForm && editing.None? && !showForm
    {
      formData := InitialForm;
      editing := None;
      showForm := false;
    }

    /** `handleEdit`: the airport becomes the edit target and fills the shown form. */
    method HandleEdit(a: Airport, show: real -> string)
      modifies this`formData, this`editing, this`showForm
      ensures editing == Some(a) && formData == FormFromAirport(a, show) && showForm
    {
      editing := Some(a);
      formData := FormFromAirport(a, show);
      showForm := true;
    }

    /**
     * `handleSubmit`: the payload is always sent; `saved` is whether the
     * backend accepted it. Only a successful save resets the form.
     */
    method HandleSubmit(saved: bool, parseFloat: string -> Option<real>) returns (sent: AdminApi.Request)
      modifies this`formData, this`editing, this`showForm
      ensures sent == SubmitRequest(old(formData), old(editing), parseFloat)
      ensures saved ==> formData == InitialForm && editing.None? && !showForm
      ensures !saved ==> formData == old(formData) && editing == old(editing) && showForm == old(showForm)
    {
      var body := PayloadJson(formData, parseFloat);
      if editing.Some? {
        sent := AdminApi.UpdateRequest(AdminApi.Airports, editing.value.id, body);
      } else {
        sent := AdminApi.CreateRequest(AdminApi.Airports, body);
      }
      if saved {
        ResetForm();
      }
    }

    /** `handleDelete`: a DELETE of the airport when the user confirms, nothing otherwise. */
    method HandleDelete(id: nat, confirmed: bool) returns (sent: Option<AdminApi.Request>)
      ensures sent.Some? <==> confirmed
      ensures sent.Some? ==> sent.value.verb == AdminApi.Delete && sent.value.body.None?
      ensures sent.Some? ==> sent.value.path == AdminApi.TargetPath(AdminApi.Item(AdminApi.Airports, id))
      ensures sent.Some? ==> AdminApi.ParseTarget(sent.value.path) == Some(AdminApi.Item(AdminApi.Airports, id))
    {
      if !confirmed {
        return None;
      }
      sent := Some(AdminApi.DeleteRequest(AdminApi.Airports, id));
    }
  }
}
