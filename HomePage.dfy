/** The landing page (src/app/page.tsx): CGK boards preview and quick stats. */
module HomePage {
  import opened Wrappers
  import opened Types
  import opened Http
  import Api
  import FlightBoard

  /** The airport the landing page shows. */
  const HomeAirport: string := "CGK"

  /** How many flights each preview board shows. */
  const PreviewSize: nat := 5

  /** `flights.slice(0, 5)`: the first five flights, or all of them when there are fewer. */
  function Preview(flights: seq<Flight>): (p: seq<Flight>)
    ensures |p| == if |flights| < PreviewSize then |flights| else PreviewSize
    ensures p == flights[..|p|]
  {
    if |flights| < PreviewSize then flights else flights[..PreviewSize]
  }

  /** `flights.filter(f => f.status === code).length`. */
  function CountStatus(flights: seq<Flight>, code: string): (n: nat)
    ensures n <= |flights|
  {
    if flights == [] then 0
    else (if flights[0].status == code then 1 else 0) + CountStatus(flights[1..], code)
  }

  /** The status codes of the flights, in order. */
  function Statuses(flights: seq<Flight>): (codes: seq<string>)
    ensures |codes| == |flights|
    ensures forall i :: 0 <= i < |flights| ==> codes[i] == flights[i].status
  {
    if flights == [] then [] else [flights[0].status] + Statuses(flights[1..])
  }

  /** The count is the number of times the code occurs among the flights' statuses. */
  lemma {:induction false} CountStatusIsMultiplicity(flights: seq<Flight>, code: string)
    ensures CountStatus(flights, code) == multiset(Statuses(flights))[code]
  {
    if flights != [] {
      CountStatusIsMultiplicity(flights[1..], code);
      assert Statuses(flights) == [flights[0].status] + Statuses(flights[1..]);
    }
  }

  /** A count is positive exactly when some flight carries the code. */
  lemma {:induction false} CountStatusPositive(flights: seq<Flight>, code: string)
    ensures CountStatus(flights, code) > 0 <==> exists i :: 0 <= i < |flights| && flights[i].status == code
  {
    if flights != [] {
      CountStatusPositive(flights[1..], code);
      if flights[0].status != code && CountStatus(flights, code) == 0 {
        forall i | 0 <= i < |flights|
          ensures flights[i].status != code
        {
          if i > 0 {
            assert flights[i] == flights[1..][i - 1];
          }
        }
      }
      if CountStatus(flights[1..], code) > 0 {
        var j :| 0 <= j < |flights[1..]| && flights[1..][j].status == code;
        assert flights[j + 1].status == code;
      }
    }
  }

  /** No departure is counted both as departed and as delayed. */
  lemma {:induction false} DepartedAndDelayedWithinTotal(flights: seq<Flight>)
    ensures CountStatus(flights, "DEPARTED") + CountStatus(flights, "DELAYED") <= |flights|
  {
    if flights != [] {
      DepartedAndDelayedWithinTotal(flights[1..]);
    }
  }

  /** What the landing page shows. */
  datatype Home = Home(
    departuresTotal: nat,
    arrivalsTotal: nat,
    departedCount: nat,
    delayedCount: nat,
    recentDepartures: FlightBoard.Board,
    recentArrivals: FlightBoard.Board)

  /** The page built from the two fetched lists. */
  function View(departures: seq<Flight>, arrivals: seq<Flight>, formatTime: string -> string): (h: Home)
    ensures h.departuresTotal == |departures| && h.arrivalsTotal == |arrivals|
    ensures h.departedCount == CountStatus(departures, "DEPARTED")
    ensures h.delayedCount == CountStatus(departures, "DELAYED")
    ensures h.departedCount + h.delayedCount <= h.departuresTotal
    ensures h.recentDepartures == FlightBoard.Render(Preview(departures), FlightBoard.Departure, formatTime)
    ensures h.recentArrivals == FlightBoard.Render(Preview(arrivals), FlightBoard.Arrival, formatTime)
    ensures h.recentDepartures.total <= PreviewSize && h.recentArrivals.total <= PreviewSize
  {
    DepartedAndDelayedWithinTotal(departures);
    Home(|departures|, |arrivals|,
         CountStatus(departures, "DEPARTED"), CountStatus(departures, "DELAYED"),
         FlightBoard.Render(Preview(departures), FlightBoard.Departure, formatTime),
         FlightBoard.Render(Preview(arrivals), FlightBoard.Arrival, formatTime))
  }

  /**
   * `Home()`: the departures are awaited first, then the arrivals, both for
   * CGK without a date; a failed fetch fails the page with its error.
   */
  function Render(server: string -> Reply<Api.Envelope<seq<Flight>>>, formatTime: string -> string)
    : (r: Result<Home, FetchError>)
    ensures r.Success? <==> Api.Delivered(server("/flights/departures?airport=CGK"))
                            && Api.Delivered(server("/flights/arrivals?airport=CGK"))
    ensures r.Success? ==> r.value == View(server("/flights/departures?airport=CGK").body.value.data,
                                           server("/flights/arrivals?airport=CGK").body.value.data,
                                           formatTime)
    ensures Api.GetDepartures(Some(HomeAirport), None, server).Failure?
            ==> r == Failure(Api.GetDepartures(Some(HomeAirport), None, server).error)
    ensures Api.GetDepartures(Some(HomeAirport), None, server).Success?
            && Api.GetArrivals(Some(HomeAirport), None, server).Failure?
            ==> r == Failure(Api.GetArrivals(Some(HomeAirport), None, server).error)
  {
    HomeEndpoints();
    var departures := Api.GetDepartures(Some(HomeAirport), None, server);
    if departures.Failure? then Failure(departures.error)
    else
      var arrivals := Api.GetArrivals(Some(HomeAirport), None, server);
      if arrivals.Failure? then Failure(arrivals.error)
      else Success(View(departures.value, arrivals.value, formatTime))
  }

  /** The two requests the landing page makes. */
  lemma HomeEndpoints()
    ensures Api.DeparturesEndpoint(Some(HomeAirport), None) == "/flights/departures?airport=CGK"
    ensures Api.ArrivalsEndpoint(Some(HomeAirport), None) == "/flights/arrivals?airport=CGK"
  {
    Api.BoardEndpointWithoutDate(Api.DeparturesPath, HomeAirport);
    Api.BoardEndpointWithoutDate(Api.ArrivalsPath, HomeAirport);
  }
}
