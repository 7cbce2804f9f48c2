/**
 * The public data layer (src/lib/api.ts): the GET endpoints, the unwrapping
 * of the `{success, data}` envelope, and the status colour and label lookups.
 */
module Api {
  import opened Wrappers
  import opened Types
  import opened Http

  /** The `{ success, data, message?, total? }` wrapper around every answer. */
  datatype Envelope<T> = Envelope(success: bool, data: T, message: Option<string>, total: Option<int>)

  /**
   * `fetchApi`: a response that is not ok fails with `API Error: ` and the
   * status text, before its body is read; otherwise the parsed body is the
   * result.
   */
  function FetchApi<B>(reply: Reply<B>): (r: Result<B, FetchError>)
    ensures r.Success? <==> reply.Response? && reply.ok && reply.body.Some?
    ensures r.Success? ==> r.value == reply.body.value
    ensures reply.NetworkError? ==> r == Failure(NetworkFailure)
    ensures reply.Response? && !reply.ok ==> r == Failure(ApiError("API Error: " + reply.statusText))
  {
    match reply
    case NetworkError => Failure(NetworkFailure)
    case Response(ok, _, statusText, body) =>
      if !ok then Failure(ApiError("API Error: " + statusText))
      else if body.None? then Failure(InvalidJson)
      else Success(body.value)
  }

  /** `response.data`: the getters hand on the envelope's payload, errors unchanged. */
  function Data<T>(r: Result<Envelope<T>, FetchError>): (u: Result<T, FetchError>)
    ensures u.Success? <==> r.Success?
    ensures r.Success? ==> u.value == r.value.data
    ensures r.Failure? ==> u.error == r.error
  {
    match r
    case Success(envelope) => Success(envelope.data)
    case Failure(e) => Failure(e)
  }

  /** The endpoint answered ok with a body that parsed. */
  predicate Delivered<B>(reply: Reply<B>)
  {
    reply.Response? && reply.ok && reply.body.Some?
  }

  // The getters. `server` stands for the backend: it maps the endpoint the
  // getter requests to the answer it receives.

  function GetAirlines(server: string -> Reply<Envelope<seq<Airline>>>): (r: Result<seq<Airline>, FetchError>)
    ensures r.Success? <==> Delivered(server("/airlines"))
    ensures r.Success? ==> r.value == server("/airlines").body.value.data
  {
    Data(FetchApi(server("/airlines")))
  }

  function GetAirline(id: string, server: string -> Reply<Envelope<Airline>>): (r: Result<Airline, FetchError>)
    ensures r.Success? <==> Delivered(server("/airlines/" + id))
    ensures r.Success? ==> r.value == server("/airlines/" + id).body.value.data
  {
    Data(FetchApi(server("/airlines/" + id)))
  }

  /** The body is read as an envelope and its `data` returned, like the other lists. */
  function GetAirports(server: string -> Reply<Envelope<seq<Airport>>>): (r: Result<seq<Airport>, FetchError>)
    ensures r.Success? <==> Delivered(server("/airports"))
    ensures r.Success? ==> r.value == server("/airports").body.value.data
  {
    Data(FetchApi(server("/airports")))
  }

  /** `getAirport` returns the parsed body itself: no envelope is removed. */
  function GetAirport<B>(id: string, server: string -> Reply<B>): (r: Result<B, FetchError>)
    ensures r.Success? <==> Delivered(server("/airports/" + id))
    ensures r.Success? ==> r.value == server("/airports/" + id).body.value
  {
    FetchApi(server("/airports/" + id))
  }

  function GetFlights(server: string -> Reply<Envelope<seq<Flight>>>): (r: Result<seq<Flight>, FetchError>)
    ensures r.Success? <==> Delivered(server("/flights"))
    ensures r.Success? ==> r.value == server("/flights").body.value.data
  {
    Data(FetchApi(server("/flights")))
  }

  function GetFlight(id: string, server: string -> Reply<Envelope<Flight>>): (r: Result<Flight, FetchError>)
    ensures r.Success? <==> Delivered(server("/flights/" + id))
    ensures r.Success? ==> r.value == server("/flights/" + id).body.value.data
  {
    Data(FetchApi(server("/flights/" + id)))
  }

  // ----- departures and arrivals boards -----

  /** The airport a board shows when the caller gives none. */
  const DefaultAirport: string := "CGK"

  /** The `airport` parameter after its default (`= 'CGK'`, applied only when undefined). */
  function AirportParam(airport: Option<string>): string
  {
    if airport.Some? then airport.value else DefaultAirport
  }

  /** A JavaScript string is truthy when it is defined and not empty. */
  predicate Truthy(v: Option<string>) { v.Some? && v.value != "" }

  /**
   * The endpoint of a board: `<path>?airport=<airport>`, followed by
   * `&date=<date>` only when a non-empty date is given. The airport parameter
   * defaults to `CGK` when undefined; nothing is URL-encoded.
   */
  function BoardEndpoint(path: string, airport: Option<string>, date: Option<string>): (e: string)
    ensures var head := path + "?airport=";
            var a := AirportParam(airport);
            && |e| >= |head| + |a|
            && e[..|head|] == head
            && e[|head|..|head| + |a|] == a
            && (Truthy(date) ==> e[|head| + |a|..] == "&date=" + date.value)
            && (!Truthy(date) ==> |e| == |head| + |a|)
  {
    var endpoint := path + "?airport=" + AirportParam(airport);
    if Truthy(date) then endpoint + "&date=" + date.value else endpoint
  }

  const DeparturesPath: string := "/flights/departures"
  const ArrivalsPath: string := "/flights/arrivals"

  /** `getDepartures`' endpoint: the departures path, then the board query. */
  function DeparturesEndpoint(airport: Option<string>, date: Option<string>): (e: string)
    ensures |e| > |DeparturesPath| && e[..|DeparturesPath|] == DeparturesPath
    ensures e[|DeparturesPath|..] == BoardEndpoint("", airport, date)
  {
    BoardEndpoint(DeparturesPath, airport, date)
  }

  /** `getArrivals`' endpoint: the arrivals path, then the same board query. */
  function ArrivalsEndpoint(airport: Option<string>, date: Option<string>): (e: string)
    ensures |e| > |ArrivalsPath| && e[..|ArrivalsPath|] == ArrivalsPath
    ensures e[|ArrivalsPath|..] == BoardEndpoint("", airport, date)
  {
    BoardEndpoint(ArrivalsPath, airport, date)
  }

  function GetDepartures(airport: Option<string>, date: Option<string>,
                         server: string -> Reply<Envelope<seq<Flight>>>): (r: Result<seq<Flight>, FetchError>)
    ensures r.Success? <==> Delivered(server(DeparturesEndpoint(airport, date)))
    ensures r.Success? ==> r.value == server(DeparturesEndpoint(airport, date)).body.value.data
  {
    Data(FetchApi(server(DeparturesEndpoint(airport, date))))
  }

  function GetArrivals(airport: Option<string>, date: Option<string>,
                       server: string -> Reply<Envelope<seq<Flight>>>): (r: Result<seq<Flight>, FetchError>)
    ensures r.Success? <==> Delivered(server(ArrivalsEndpoint(airport, date)))
    ensures r.Success? ==> r.value == server(ArrivalsEndpoint(airport, date)).body.value.data
  {
    Data(FetchApi(server(ArrivalsEndpoint(airport, date))))
  }

  /** Without a date the endpoint is the path and the airport query alone. */
  lemma BoardEndpointWithoutDate(path: string, airport: string)
    ensures BoardEndpoint(path, Some(airport), None) == path + "?airport=" + airport
  {
  }

  /** The two boards differ only in the path they request. */
  lemma DeparturesAndArrivalsAgree(airport: Option<string>, date: Option<string>)
    ensures DeparturesEndpoint(airport, date)[|DeparturesPath|..]
         == ArrivalsEndpoint(airport, date)[|ArrivalsPath|..]
  {
  }

  /**
   * Because nothing is encoded, an airport containing `&date=` cannot be told
   * apart from a date argument.
   */
  lemma BoardEndpointUnencoded()
    ensures DeparturesEndpoint(Some("CGK&date=2025-01-01"), None)
         == DeparturesEndpoint(Some("CGK"), Some("2025-01-01"))
  {
    BoardEndpointSplit(DeparturesPath, Some("CGK&date=2025-01-01"), None);
    BoardEndpointSplit(DeparturesPath, Some("CGK"), Some("2025-01-01"));
    assert Truthy(Some("2025-01-01")) && !Truthy(None);
    assert "CGK&date=2025-01-01" + "" == "CGK" + ("&date=" + "2025-01-01");
  }

  /**
   * For airports without `&`, the endpoint determines the airport requested
   * and the date sent (if any).
   */
  lemma {:induction false} BoardEndpointInjective(path: string, a1: Option<string>, d1: Option<string>,
                                                  a2: Option<string>, d2: Option<string>)
    requires '&' !in AirportParam(a1) && '&' !in AirportParam(a2)
    requires BoardEndpoint(path, a1, d1) == BoardEndpoint(path, a2, d2)
    ensures AirportParam(a1) == AirportParam(a2)
    ensures Truthy(d1) == Truthy(d2)
    ensures Truthy(d1) ==> d1.value == d2.value
  {
    var head := path + "?airport=";
    var x1, x2 := AirportParam(a1), AirportParam(a2);
    var t1 := if Truthy(d1) then "&date=" + d1.value else "";
    var t2 := if Truthy(d2) then "&date=" + d2.value else "";
    BoardEndpointSplit(path, a1, d1);
    BoardEndpointSplit(path, a2, d2);
    SameHeadSplit(head, x1 + t1, x2 + t2);
    AmpersandSplit(x1, t1, x2, t2);
    if Truthy(d1) {
      assert t1[6..] == d1.value;
      assert t2[6..] == d2.value;
    }
  }

  /** The endpoint as head, airport and optional date tail. */
  lemma BoardEndpointSplit(path: string, airport: Option<string>, date: Option<string>)
    ensures BoardEndpoint(path, airport, date)
         == (path + "?airport=") + (AirportParam(airport) + (if Truthy(date) then "&date=" + date.value else ""))
  {
    var head, a := path + "?airport=", AirportParam(airport);
    if Truthy(date) {
      assert head + a + "&date=" + date.value == head + (a + ("&date=" + date.value));
    } else {
      assert head + a == head + (a + "");
    }
  }

  /** Strings that start with the same head are equal after it. */
  lemma SameHeadSplit(head: string, r1: string, r2: string)
    requires head + r1 == head + r2
    ensures r1 == r2
  {
    assert r1 == (head + r1)[|head|..];
    assert r2 == (head + r2)[|head|..];
  }

  /** `x1 + t1 == x2 + t2` with `&`-free heads and tails empty or starting with `&` splits uniquely. */
  lemma AmpersandSplit(x1: string, t1: string, x2: string, t2: string)
    requires '&' !in x1 && '&' !in x2
    requires t1 == [] || t1[0] == '&'
    requires t2 == [] || t2[0] == '&'
    requires x1 + t1 == x2 + t2
    ensures x1 == x2 && t1 == t2
  {
    assert x1 == (x1 + t1)[..|x1|];
    assert x2 == (x2 + t2)[..|x2|];
  }

  // ----- status colour and label -----

  /** The colour class per status code (`colors` in `getStatusColor`). */
  const StatusColors: map<string, string> := map[
    "SCHEDULED" := "bg-blue-500",
    "BOARDING" := "bg-yellow-500",
    "DEPARTED" := "bg-green-500",
    "DELAYED" := "bg-orange-500",
    "CANCELLED" := "bg-red-500",
    "ARRIVED" := "bg-gray-500"]

  /** The colour of a status that is not one of the six. */
  const FallbackColor: string := "bg-gray-500"

  /** The label per status code (`texts` in `getStatusText`). */
  const StatusTexts: map<string, string> := map[
    "SCHEDULED" := "Terjadwal",
    "BOARDING" := "Boarding",
    "DEPARTED" := "Berangkat",
    "DELAYED" := "Tertunda",
    "CANCELLED" := "Dibatalkan",
    "ARRIVED" := "Tiba"]

  /** The colour each status is meant to have: the reference for `GetStatusColor`. */
  function ColorOf(s: FlightStatus): string
  {
    match s
    case Scheduled => "bg-blue-500"
    case Boarding => "bg-yellow-500"
    case Departed => "bg-green-500"
    case Delayed => "bg-orange-500"
    case Cancelled => "bg-red-500"
    case Arrived => "bg-gray-500"
  }

  /** The Indonesian label each status is meant to have: the reference for `GetStatusText`. */
  function LabelOf(s: FlightStatus): string
  {
    match s
    case Scheduled => "Terjadwal"
    case Boarding => "Boarding"
    case Departed => "Berangkat"
    case Delayed => "Tertunda"
    case Cancelled => "Dibatalkan"
    case Arrived => "Tiba"
  }

  /** Every colour `GetStatusColor` can produce. */
  const Palette: set<string> := {"bg-blue-500", "bg-yellow-500", "bg-green-500", "bg-orange-500", "bg-red-500", "bg-gray-500"}

  /** `colors[status] || 'bg-gray-500'`: total, gray for anything unknown. */
  function GetStatusColor(status: string): (color: string)
    ensures color in Palette
    ensures ParseStatus(status).Some? ==> color == ColorOf(ParseStatus(status).value)
    ensures ParseStatus(status).None? ==> color == FallbackColor
  {
    if status in StatusColors && StatusColors[status] != "" then StatusColors[status] else FallbackColor
  }

  /** `texts[status] || status`: total, the raw input for anything unknown. */
  function GetStatusText(status: string): (text: string)
    ensures ParseStatus(status).Some? ==> text == LabelOf(ParseStatus(status).value)
    ensures ParseStatus(status).None? ==> text == status
  {
    if status in StatusTexts && StatusTexts[status] != "" then StatusTexts[status] else status
  }

  /** The six statuses get six different colours. */
  lemma StatusColorsDistinct(s: FlightStatus, t: FlightStatus)
    ensures GetStatusColor(s.Code()) == GetStatusColor(t.Code()) ==> s == t
  {
    ParseStatusOfCode(s);
    ParseStatusOfCode(t);
  }

  /** The six statuses get six different, non-empty labels. */
  lemma StatusTextsDistinct(s: FlightStatus, t: FlightStatus)
    ensures GetStatusText(s.Code()) != ""
    ensures GetStatusText(s.Code()) == GetStatusText(t.Code()) ==> s == t
  {
    ParseStatusOfCode(s);
    ParseStatusOfCode(t);
  }

  /**
   * The fallback colour is ARRIVED's, so an unknown status looks arrived;
   * its label still shows the raw value.
   */
  lemma UnknownStatusLooksArrived(status: string)
    requires ParseStatus(status).None?
    ensures GetStatusColor(status) == GetStatusColor(Arrived.Code())
    ensures GetStatusText(status) == status
  {
    ParseStatusOfCode(Arrived);
  }
}
