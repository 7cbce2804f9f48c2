/**
 * The admin write layer (src/lib/admin-api.ts): how each create, update,
 * delete and status change is turned into a request, the header merge of
 * `fetchApi`, and the error a failed request ends with.
 */
module AdminApi {
  import opened Wrappers
  import opened Json
  import opened Http
  import Decimal

  datatype HttpMethod = Post | Put | Patch | Delete

  /** The three resources the admin console manages. */
  datatype Collection = Airlines | Airports | Flights

  function CollectionPath(c: Collection): string
  {
    match c
    case Airlines => "/airlines"
    case Airports => "/airports"
    case Flights => "/flights"
  }

  /** What a request acts on: a whole collection, one record, or a flight's status. */
  datatype Target =
    | Whole(collection: Collection)
    | Item(collection: Collection, id: nat)
    | StatusOf(flightId: nat)

  /** The endpoint of a target; ids are written with `String(id)`. */
  function TargetPath(t: Target): (p: string)
    ensures t.Whole? ==> p == CollectionPath(t.collection)
    ensures t.Item? ==> p == CollectionPath(t.collection) + "/" + Decimal.NatToString(t.id)
    ensures t.StatusOf? ==> p == "/flights/" + Decimal.NatToString(t.flightId) + "/status"
  {
    match t
    case Whole(c) => CollectionPath(c)
    case Item(c, id) => CollectionPath(c) + "/" + Decimal.NatToString(id)
    case StatusOf(id) => "/flights/" + Decimal.NatToString(id) + "/status"
  }

  predicate StartsWith(s: string, prefix: string)
  {
    |prefix| <= |s| && s[..|prefix|] == prefix
  }

  /** The target an endpoint names, if any: the reading a router gives it. */
  function ParseTarget(path: string): (t: Option<Target>)
  {
    if path == "/airlines" then Some(Whole(Airlines))
    else if path == "/airports" then Some(Whole(Airports))
    else if path == "/flights" then Some(Whole(Flights))
    else if StartsWith(path, "/airlines/") then ParseItem(Airlines, path[10..])
    else if StartsWith(path, "/airports/") then ParseItem(Airports, path[10..])
    else if StartsWith(path, "/flights/") then ParseItem(Flights, path[9..])
    else None
  }

  /** The part of an endpoint after `<collection>/`: an id, or for flights `<id>/status`. */
  function ParseItem(c: Collection, rest: string): Option<Target>
  {
    var digits := Decimal.DigitRun(rest);
    if digits == [] then None
    else if digits == rest then Some(Item(c, Decimal.DigitsValue(digits)))
    else if c == Flights && rest[|digits|..] == "/status" then Some(StatusOf(Decimal.DigitsValue(digits)))
    else None
  }

  /** The numeral of an id, after `<collection>/`, reads back as that record. */
  lemma ParseItemOfId(c: Collection, id: nat)
    ensures ParseItem(c, Decimal.NatToString(id)) == Some(Item(c, id))
  {
    var n := Decimal.NatToString(id);
    Decimal.DigitRunStops(n, []);
    assert n + [] == n;
    Decimal.NatToStringValue(id);
  }

  /** `<id>/status` after `/flights/` reads back as that flight's status. */
  lemma ParseStatusOfId(id: nat)
    ensures ParseItem(Flights, Decimal.NatToString(id) + "/status") == Some(StatusOf(id))
  {
    var n := Decimal.NatToString(id);
    Decimal.DigitRunStops(n, "/status");
    assert (n + "/status")[|n|..] == "/status";
    assert |n + "/status"| > |n|;
    Decimal.NatToStringValue(id);
  }

  lemma ParseTargetItem(c: Collection, id: nat)
    ensures ParseTarget(TargetPath(Item(c, id))) == Some(Item(c, id))
  {
    var n := Decimal.NatToString(id);
    var head := CollectionPath(c) + "/";
    var path := head + n;
    assert TargetPath(Item(c, id)) == path;
    assert path[..|head|] == head;
    assert path[|head|..] == n;
    assert |path| >= 10;
    ParseItemOfId(c, id);
    if c == Airlines {
      assert StartsWith(path, "/airlines/");
    } else if c == Airports {
      assert path[4] == 'p';
      assert !StartsWith(path, "/airlines/");
      assert StartsWith(path, "/airports/");
    } else {
      assert path[1] == 'f';
      assert !StartsWith(path, "/airlines/") && !StartsWith(path, "/airports/");
      assert StartsWith(path, "/flights/");
    }
  }

  lemma ParseTargetStatus(id: nat)
    ensures ParseTarget(TargetPath(StatusOf(id))) == Some(StatusOf(id))
  {
    var n := Decimal.NatToString(id);
    var path := "/flights/" + (n + "/status");
    assert TargetPath(StatusOf(id)) == path;
    assert path[..9] == "/flights/";
    assert path[9..] == n + "/status";
    assert |path| >= 10 && path[1] == 'f';
    assert !StartsWith(path, "/airlines/") && !StartsWith(path, "/airports/");
    ParseStatusOfId(id);
  }

  /** Every endpoint the admin layer builds is read back as the target it was built for. */
  lemma ParseTargetPath(t: Target)
    ensures ParseTarget(TargetPath(t)) == Some(t)
  {
    match t
    case Whole(c) =>
    case Item(c, id) => ParseTargetItem(c, id);
    case StatusOf(id) => ParseTargetStatus(id);
  }

  /** Different targets have different endpoints. */
  lemma TargetPathInjective(t: Target, u: Target)
    requires TargetPath(t) == TargetPath(u)
    ensures t == u
  {
    ParseTargetPath(t);
    ParseTargetPath(u);
  }

  // ----- fetchApi -----

  /** The headers every admin request starts from. */
  const DefaultHeaders: map<string, string> := map["Accept" := "application/json", "Content-Type" := "application/json"]

  /** `{ 'Accept': ..., 'Content-Type': ..., ...options?.headers }`: the caller's headers win. */
  function MergeHeaders(custom: map<string, string>): (h: map<string, string>)
    ensures h.Keys == DefaultHeaders.Keys + custom.Keys
    ensures forall k :: k in custom ==> h[k] == custom[k]
    ensures forall k :: k in DefaultHeaders && k !in custom ==> h[k] == DefaultHeaders[k]
  {
    DefaultHeaders + custom
  }

  /** A request as `fetch` receives it; the base URL is prepended to `path`. */
  datatype Request = Request(verb: HttpMethod, path: string, headers: map<string, string>, body: Option<Json>)

  /** `fetchApi(endpoint, { verb, body, headers })`. */
  function Prepare(endpoint: string, verb: HttpMethod, custom: map<string, string>, body: Option<Json>): (r: Request)
    ensures r.path == endpoint && r.verb == verb && r.body == body
    ensures r.headers == MergeHeaders(custom)
  {
    Request(verb, endpoint, MergeHeaders(custom), body)
  }

  /** Without headers of the caller's own, a request carries exactly the two JSON headers. */
  lemma PlainRequestHeaders(endpoint: string, verb: HttpMethod, body: Option<Json>)
    ensures Prepare(endpoint, verb, map[], body).headers == DefaultHeaders
    ensures Prepare(endpoint, verb, map[], body).headers["Accept"] == "application/json"
    ensures Prepare(endpoint, verb, map[], body).headers["Content-Type"] == "application/json"
  {
  }

  /** The error body carries a non-empty string `message` member. */
  predicate HasMessage(body: Option<Json>)
  {
    body.Some? && body.value.JObject? && "message" in body.value.fields
    && body.value.fields["message"].JString? && body.value.fields["message"].s != ""
  }

  /**
   * The error of a response that is not ok. Its body is read as JSON, `{}`
   * when that fails (`None`); a non-empty string `message` member is the
   * message, anything else gives `API Error: <status>`. A body that is
   * JSON `null` makes the `.message` access itself throw.
   */
  function ResponseError(status: nat, body: Option<Json>): (e: FetchError)
    ensures body == Some(JNull) <==> e == NullErrorBody
    ensures HasMessage(body) ==> e == ApiError(body.value.fields["message"].s)
    ensures body != Some(JNull) && !HasMessage(body) ==> e == ApiError("API Error: " + Decimal.NatToString(status))
    ensures e.ApiError? && e.message != "API Error: " + Decimal.NatToString(status)
            ==> body.Some? && body.value.JObject? && "message" in body.value.fields
                && body.value.fields["message"] == JString(e.message) && e.message != ""
  {
    match body
    case Some(JNull) => NullErrorBody
    case Some(JObject(fields)) =>
      if "message" in fields && fields["message"].JString? && fields["message"].s != ""
      then ApiError(fields["message"].s)
      else ApiError("API Error: " + Decimal.NatToString(status))
    case _ => ApiError("API Error: " + Decimal.NatToString(status))
  }

  /**
   * `fetchApi`'s outcome for one answer: the parsed body of an ok response,
   * else the error, which the `catch` logs and rethrows unchanged.
   */
  function FetchApi(reply: Reply<Json>): (r: Result<Json, FetchError>)
    ensures r.Success? <==> reply.Response? && reply.ok && reply.body.Some?
    ensures r.Success? ==> r.value == reply.body.value
    ensures reply.Response? && !reply.ok ==> r == Failure(ResponseError(reply.status, reply.body))
    ensures reply.NetworkError? ==> r == Failure(NetworkFailure)
  {
    match reply
    case NetworkError => Failure(NetworkFailure)
    case Response(ok, status, _, body) =>
      if !ok then Failure(ResponseError(status, body))
      else if body.None? then Failure(InvalidJson)
      else Success(body.value)
  }

  // ----- the operations -----

  /** `createAirline` / `createAirport` / `createFlight`: POST to the collection. */
  function CreateRequest(c: Collection, data: Json): (r: Request)
    ensures r.verb == Post && r.path == TargetPath(Whole(c)) && ParseTarget(r.path) == Some(Whole(c))
    ensures r.body == Some(data) && r.headers == DefaultHeaders
  {
    ParseTargetPath(Whole(c));
    Prepare(TargetPath(Whole(c)), Post, map[], Some(data))
  }

  /** `updateAirline` / `updateAirport` / `updateFlight`: PUT the whole record to `/<collection>/<id>`. */
  function UpdateRequest(c: Collection, id: nat, data: Json): (r: Request)
    ensures r.verb == Put && r.path == TargetPath(Item(c, id)) && ParseTarget(r.path) == Some(Item(c, id))
    ensures r.body == Some(data) && r.headers == DefaultHeaders
  {
    ParseTargetPath(Item(c, id));
    Prepare(TargetPath(Item(c, id)), Put, map[], Some(data))
  }

  /** `deleteAirline` / `deleteAirport` / `deleteFlight`: DELETE `/<collection>/<id>`, no body. */
  function DeleteRequest(c: Collection, id: nat): (r: Request)
    ensures r.verb == Delete && r.path == TargetPath(Item(c, id)) && ParseTarget(r.path) == Some(Item(c, id))
    ensures r.body.None? && r.headers == DefaultHeaders
  {
    ParseTargetPath(Item(c, id));
    Prepare(TargetPath(Item(c, id)), Delete, map[], None)
  }

  /**
   * `updateFlightStatus`: PATCH `/flights/<id>/status` with `{status, remarks}`;
   * `JSON.stringify` drops `remarks` when it is undefined.
   */
  function UpdateFlightStatusRequest(id: nat, status: string, remarks: Option<string>): (r: Request)
    ensures r.verb == Patch && r.path == TargetPath(StatusOf(id)) && ParseTarget(r.path) == Some(StatusOf(id))
    ensures r.headers == DefaultHeaders
    ensures r.body.Some? && r.body.value.JObject?
    ensures r.body.value.fields.Keys == if remarks.Some? then {"status", "remarks"} else {"status"}
    ensures r.body.value.fields["status"] == JString(status)
    ensures remarks.Some? ==> r.body.value.fields["remarks"] == JString(remarks.value)
  {
    ParseTargetPath(StatusOf(id));
    var remarksMember := MemberIfDefined("remarks", if remarks.Some? then Some(JString(remarks.value)) else None);
    Prepare(TargetPath(StatusOf(id)), Patch, map[], Some(JObject(map["status" := JString(status)] + remarksMember)))
  }
}
