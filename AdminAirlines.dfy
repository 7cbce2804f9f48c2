/** The airline admin page (src/app/admin/airlines/page.tsx). */
module AdminAirlines {
  import opened Wrappers
  import opened Types
  import opened Json
  import Text
  import AdminApi

  datatype AirlineForm = AirlineForm(code: string, name: string, logoUrl: string, country: string, isActive: bool)

  /** The form's first state, and the state `resetForm` restores. */
  const InitialForm: AirlineForm := AirlineForm("", "", "", "Indonesia", true)

  /** The airline code input: `maxLength={2}`, upper-cased on change. */
  const CodeMaxLength: nat := 2

  /** `formData` as sent: every field as it stands, `logo_url` included even when ''. */
  function FormJson(f: AirlineForm): (j: Json)
    ensures j.JObject? && j.fields.Keys == {"code", "name", "logo_url", "country", "is_active"}
    ensures j.fields["logo_url"] == JString(f.logoUrl) && j.fields["is_active"] == JBool(f.isActive)
    ensures j.fields["code"] == JString(f.code) && j.fields["name"] == JString(f.name)
    ensures j.fields["country"] == JString(f.country)
  {
    JObject(map[
      "code" := JString(f.code),
      "name" := JString(f.name),
      "logo_url" := JString(f.logoUrl),
      "country" := JString(f.country),
      "is_active" := JBool(f.isActive)])
  }

  /** `handleSubmit`'s request: an update of the edit target, else a create; no other check. */
  function SubmitRequest(f: AirlineForm, editing: Option<Airline>): (r: AdminApi.Request)
    ensures r.body == Some(FormJson(f))
    ensures r.verb == AdminApi.Put <==> editing.Some?
    ensures editing.Some? ==> r.path == AdminApi.TargetPath(AdminApi.Item(AdminApi.Airlines, editing.value.id))
    ensures editing.Some? ==> AdminApi.ParseTarget(r.path) == Some(AdminApi.Item(AdminApi.Airlines, editing.value.id))
    ensures editing.None? ==> r.verb == AdminApi.Post
    ensures editing.None? ==> r.path == AdminApi.TargetPath(AdminApi.Whole(AdminApi.Airlines))
    ensures editing.None? ==> AdminApi.ParseTarget(r.path) == Some(AdminApi.Whole(AdminApi.Airlines))
  {
    match editing
    case Some(a) => AdminApi.UpdateRequest(AdminApi.Airlines, a.id, FormJson(f))
    case None => AdminApi.CreateRequest(AdminApi.Airlines, FormJson(f))
  }

  /** `handleEdit`'s form: the airline's fields, a null logo shown as ''. */
  function FormFromAirline(a: Airline): (f: AirlineForm)
    ensures f.code == a.code && f.name == a.name && f.country == a.country && f.isActive == a.isActive
    ensures a.logoUrl.None? ==> f.logoUrl == ""
    ensures a.logoUrl.Some? ==> f.logoUrl == a.logoUrl.value
  {
    AirlineForm(a.code, a.name, if a.logoUrl.Some? then a.logoUrl.value else "", a.country, a.isActive)
  }

  /**
   * Editing an airline and saving it unchanged sends its fields back, with
   * a missing logo sent as '' rather than null.
   */
  lemma EditThenSubmitAirline(a: Airline)
    ensures var j := FormJson(FormFromAirline(a));
            && j.fields["code"] == JString(a.code)
            && j.fields["name"] == JString(a.name)
            && j.fields["country"] == JString(a.country)
            && j.fields["is_active"] == JBool(a.isActive)
            && j.fields["logo_url"] == JString(if a.logoUrl.Some? then a.logoUrl.value else "")
  {
  }

  /** The page's state: the list it shows and the form. */
  class AdminAirlinesPage {
    var airlines: seq<Airline>
    var showForm: bool
    var editing: Option<Airline>
    var formData: AirlineForm

    constructor ()
      ensures airlines == [] && !showForm && editing.None? && formData == InitialForm
    {
      airlines := [];
      showForm, editing, formData := false, None, InitialForm;
    }

    /** `loadAirlines`: the list is replaced when the fetch succeeds. */
    method LoadAirlines(fetched: Option<seq<Airline>>)
      modifies this`airlines
      ensures airlines == if fetched.Some? then fetched.value else old(airlines)
    {
      if fetched.Some? {
        airlines := fetched.value;
      }
    }

    /** The header button: `setShowForm(!showForm)`. */
    method ToggleForm()
      modifies this`showForm
      ensures showForm == !old(showForm)
    {
      showForm := !showForm;
    }

    /** The code input's `onChange`: at most two characters, upper-cased; the rest of the form is kept. */
    method ChangeCode(typed: string)
      modifies this`formData
      ensures formData == old(formData).(code := Text.CodeFieldValue(typed, CodeMaxLength))
      ensures |formData.code| <= CodeMaxLength && Text.HasNoLowerCase(formData.code)
    {
      formData := formData.(code := Text.CodeFieldValue(typed, CodeMaxLength));
    }

    /** `resetForm`: the initial defaults, no edit target, form hidden. */
    method ResetForm()
      modifies this`formData, this`editing, this`showForm
      ensures formData == InitialForm && editing.None? && !showForm
    {
      formData := InitialForm;
      editing := None;
      showForm := false;
    }

    /** `handleEdit`: the airline becomes the edit target and fills the shown form. */
    method HandleEdit(a: Airline)
      modifies this`formData, this`editing, this`showForm
      ensures editing == Some(a) && formData == FormFromAirline(a) && showForm
    {
      editing := Some(a);
      formData := FormFromAirline(a);
      showForm := true;
    }

    /**
     * `handleSubmit`: the form is always sent; `saved` is whether the
     * backend accepted it. Only a successful save resets the form.
     */
    method HandleSubmit(saved: bool) returns (sent: AdminApi.Request)
      modifies this`formData, this`editing, this`showForm
      ensures sent == SubmitRequest(old(formData), old(editing))
      ensures saved ==> formData == InitialForm && editing.None? && !showForm
      ensures !saved ==> formData == old(formData) && editing == old(editing) && showForm == old(showForm)
    {
      if editing.Some? {
        sent := AdminApi.UpdateRequest(AdminApi.Airlines, editing.value.id, FormJson(formData));
      } else {
        sent := AdminApi.CreateRequest(AdminApi.Airlines, FormJson(formData));
      }
      if saved {
        ResetForm();
      }
    }

    /** `handleDelete`: a DELETE of the airline when the user confirms, nothing otherwise. */
    method HandleDelete(id: nat, confirmed: bool) returns (sent: Option<AdminApi.Request>)
      ensures sent.Some? <==> confirmed
      ensures sent.Some? ==> sent.value.verb == AdminApi.Delete && sent.value.body.None?
      ensures sent.Some? ==> sent.value.path == AdminApi.TargetPath(AdminApi.Item(AdminApi.Airlines, id))
      ensures sent.Some? ==> AdminApi.ParseTarget(sent.value.path) == Some(AdminApi.Item(AdminApi.Airlines, id))
    {
      if !confirmed {
        return None;
      }
      sent := Some(AdminApi.DeleteRequest(AdminApi.Airlines, id));
    }
  }
}
