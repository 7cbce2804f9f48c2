# Flight-UI: a verified model of the flight information front end

Flight-UI is a Next.js front end for an airport flight information system
(Soekarno-Hatta, CGK) over a REST backend. This project models the logic the
front end adds on top of the backend:

- the six-valued flight status and how it is presented: the colour and
  Indonesian label lookups, the status badge, and the second colour chain
  written inline in the flights table;
- the endpoints of the public data layer, including the departures and
  arrivals board query strings, and how each getter unwraps the backend's
  `{success, data}` envelope;
- the admin write layer: the method, path, headers and JSON body of each
  create, update, delete and status change, and the error a failed request
  ends with;
- the three admin pages (flights, airlines, airports) as classes whose
  fields are the page state (`formData`, the edit target, `showForm`, the
  loaded lists) and whose methods are the handlers (`handleEdit`,
  `resetForm`, `handleSubmit`, `handleDelete`, the show/hide toggle and the
  upper-casing code inputs);
- the departure/arrival board component and the landing page's previews
  and counts.

The backend is a function from endpoint to answer (`server`), or a boolean
saying whether a save succeeded (`saved`); the user's answer to a
confirmation dialog is a boolean (`confirmed`). Locale time formatting
(`formatTime`), number parsing (`parseFloat`) and number printing
(`String(x)`) of coordinates are function parameters. JavaScript's
`parseInt` and `String(n)` on whole numbers, `toUpperCase` on ASCII and
`slice` are written out in modules `Decimal` and `Text`, within the limits
listed under "## Left out".

Modules: `Types` (entities, `FlightStatus`), `Http` (base URL, one answer),
`Json` (request bodies), `Api` (src/lib/api.ts), `StatusBadge`,
`FlightsPage` (src/app/flights/page.tsx), `AdminApi` (src/lib/admin-api.ts),
`AdminFlights`, `AdminAirlines`, `AdminAirports` (the admin pages),
`FlightBoard`, `HomePage` (src/app/page.tsx); `Wrappers`, `Decimal` and
`Text` are helpers.

The code has no per-status "needs attention" / pulse rule and no
validation of status transitions; the airport getters do not tolerate an
answer without the envelope (`getAirports` unwraps `data`, `getAirport`
returns the parsed body itself), and airline logos are sent as a plain
`logo_url` string, with no multipart upload.

## Model

| member | source | states |
|---|---|---|
| Types.ParseStatus | src/lib/types.ts:50-56 | a string is read as a status exactly when it is that status's code; any other string is none of the six |
| Types.ParseStatusOfCode | src/types/index.ts:42 | each of the six statuses is read back from its own code |
| Http.ApiUrl | src/lib/api.ts:5 | the configured base URL when set and non-empty, else `http://localhost:8000/api/v1` |
| Api.FetchApi | src/lib/api.ts:7-17 | success exactly for an ok response whose body parsed, with that body; a response that is not ok fails with `API Error: ` and its status text; a network failure is passed on |
| Api.Data | src/lib/api.ts:20-23 | the getters return the envelope's `data` and pass errors on unchanged |
| Api.GetAirlines | src/lib/api.ts:20-23 | requests `/airlines`; succeeds exactly when that answer is delivered, with its `data` |
| Api.GetAirline | src/lib/api.ts:25-28 | requests `/airlines/<id>`; succeeds exactly when delivered, with its `data` |
| Api.GetAirports | src/lib/api.ts:31-34 | requests `/airports`; succeeds exactly when delivered, with its `data` |
| Api.GetAirport | src/lib/api.ts:36-39 | requests `/airports/<id>` and returns the parsed body itself, no envelope removed |
| Api.GetFlights | src/lib/api.ts:42-45 | requests `/flights`; succeeds exactly when delivered, with its `data` |
| Api.GetFlight | src/lib/api.ts:47-50 | requests `/flights/<id>`; succeeds exactly when delivered, with its `data` |
| Api.GetDepartures | src/lib/api.ts:52-58 | requests the departures board endpoint; succeeds exactly when delivered, with its `data` |
| Api.GetArrivals | src/lib/api.ts:60-66 | requests the arrivals board endpoint; succeeds exactly when delivered, with its `data` |
| Api.BoardEndpoint | src/lib/api.ts:53-54 | a board endpoint is the path, `?airport=`, the airport (`CGK` when undefined), then `&date=<date>` exactly when the date is non-empty |
| Api.DeparturesEndpoint | src/lib/api.ts:52-54 | `/flights/departures` followed by the board query |
| Api.ArrivalsEndpoint | src/lib/api.ts:60-62 | `/flights/arrivals` followed by the same board query |
| Api.DeparturesAndArrivalsAgree | src/lib/api.ts:60-62 | the arrivals endpoint follows the departures rule, differing only in its path |
| Api.BoardEndpointUnencoded | src/lib/api.ts:53-54 | nothing is URL-encoded: an airport containing `&date=` gives the same endpoint as a date argument |
| Api.BoardEndpointInjective | src/lib/api.ts:52-54 | for airports without `&`, the endpoint determines the airport and whether and which date was sent |
| Api.GetStatusColor | src/lib/api.ts:84-94 | always one of six colours; each known status gets its own colour, any other string `bg-gray-500` |
| Api.GetStatusText | src/lib/api.ts:96-106 | each known status gets its Indonesian label; any other string is returned unchanged |
| Api.StatusColorsDistinct | src/lib/api.ts:85-92 | the six statuses have pairwise different colours |
| Api.StatusTextsDistinct | src/lib/api.ts:97-104 | the six labels are non-empty and pairwise different |
| Api.UnknownStatusLooksArrived | src/lib/api.ts:91-93 | an unknown status gets ARRIVED's colour but keeps its raw text |
| StatusBadge.Render | src/components/StatusBadge.tsx:8-16 | the class string is the fixed prefix followed by `getStatusColor(status)`, the text is `getStatusText(status)` |
| StatusBadge.RenderUnknown | src/components/StatusBadge.tsx:11-13 | an unknown status renders gray with its raw text |
| StatusBadge.RenderDistinguishesStatuses | src/components/StatusBadge.tsx:11-13 | two different statuses never share a badge class nor a badge text |
| FlightsPage.InlineStatusColor | src/app/flights/page.tsx:95-107 | SCHEDULED, BOARDING, DEPARTED, DELAYED and CANCELLED get blue, yellow, green, orange and red; ARRIVED and every other string get `bg-gray-500` |
| FlightsPage.InlineColorAgrees | src/app/flights/page.tsx:95-107 | the inline colour chain equals `getStatusColor` on every string, ARRIVED and unknown values included |
| FlightsPage.TableRow | src/app/flights/page.tsx:40-109 | a row links to `/flights/<id>` and its pill has the status colour but the raw status code as text |
| FlightsPage.Table | src/app/flights/page.tsx:40 | one row per flight, in order |
| FlightsPage.TableBadgeShowsCode | src/app/flights/page.tsx:109 | for each of the six statuses the table pill shows a text other than the badge's label |
| AdminApi.TargetPath | src/lib/admin-api.ts:34-100 | the endpoint templates: `/<collection>`, `/<collection>/<id>` and `/flights/<id>/status`, with the id written as `String(id)` |
| AdminApi.ParseTargetPath | src/lib/admin-api.ts:33-104 | every endpoint the admin layer builds is read back as the collection, record or status it was built for |
| AdminApi.TargetPathInjective | src/lib/admin-api.ts:33-104 | different targets have different endpoints |
| AdminApi.MergeHeaders | src/lib/admin-api.ts:13-17 | both JSON headers are present; caller headers override them; defaults stay where not overridden |
| AdminApi.Prepare | src/lib/admin-api.ts:6-18 | a request keeps the endpoint, verb and body and carries the merged headers |
| AdminApi.PlainRequestHeaders | src/lib/admin-api.ts:13-15 | without caller headers, `Accept` and `Content-Type` are exactly `application/json` |
| AdminApi.ResponseError | src/lib/admin-api.ts:20-23 | a body with a non-empty string `message` gives exactly that message; every other body, an unparseable one (read as `{}`) included, gives `API Error: <status>`; only a `null` body fails the `.message` read |
| AdminApi.FetchApi | src/lib/admin-api.ts:6-30 | success exactly for an ok response whose body parsed; a failed response ends with its response error; a network failure is rethrown unchanged |
| AdminApi.CreateRequest | src/lib/admin-api.ts:33-38 | POST to exactly `/<collection>`, which reads back as that collection, with the JSON body and the default headers (also lines 54-59, 75-80) |
| AdminApi.UpdateRequest | src/lib/admin-api.ts:40-45 | PUT to exactly `/<collection>/<id>`, which reads back as that record, with the JSON body and the default headers (also lines 61-66, 82-87) |
| AdminApi.DeleteRequest | src/lib/admin-api.ts:47-51 | DELETE of exactly `/<collection>/<id>`, which reads back as that record, with no body (also lines 68-72, 89-93) |
| AdminApi.UpdateFlightStatusRequest | src/lib/admin-api.ts:95-104 | PATCH of exactly `/flights/<id>/status` with `status`, and `remarks` only when it is defined |
| AdminFlights.SubmitData | src/app/admin/flights/page.tsx:61-69 | ids go through `parseInt`; empty gate, terminal and remarks become null, non-empty ones pass unchanged; all other fields are copied |
| AdminFlights.PayloadJson | src/app/admin/flights/page.tsx:61-69 | the body has exactly the form's ten keys; each id is its parsed number or null for `NaN`, gate, terminal and remarks are null exactly when absent, and number, datetimes and status are the payload's strings |
| AdminFlights.SubmitRequest | src/app/admin/flights/page.tsx:55-77 | no request exactly when origin and destination are the same string; else a PUT to `/flights/<id>` of the edit target if there is one, a POST to `/flights` otherwise, with the payload |
| AdminFlights.FormFromFlight | src/app/admin/flights/page.tsx:88-99 | the three ids are `String(id)`, datetimes cut to 16 characters, null gate, terminal and remarks shown as '', number and status copied |
| AdminFlights.EditThenSubmitRoundTrip | src/app/admin/flights/page.tsx:61-69 | editing a flight and saving it unchanged sends back its ids, its non-empty gate/terminal/remarks (null stays null) and its other fields |
| AdminFlights.EditedFlightSubmittable | src/app/admin/flights/page.tsx:55-58 | an edited flight can be saved exactly when its stored origin and destination differ |
| AdminFlights.AdminFlightsPage.constructor | src/app/admin/flights/page.tsx:17-28 | empty lists, form hidden, no edit target, initial form with status `SCHEDULED` |
| AdminFlights.AdminFlightsPage.LoadData | src/app/admin/flights/page.tsx:34-50 | all three lists are replaced together on success; nothing changes on failure |
| AdminFlights.AdminFlightsPage.ToggleForm | src/app/admin/flights/page.tsx:165 | the form's visibility flips |
| AdminFlights.AdminFlightsPage.ResetForm | src/app/admin/flights/page.tsx:116-131 | initial form, no edit target, form hidden |
| AdminFlights.AdminFlightsPage.HandleEdit | src/app/admin/flights/page.tsx:86-101 | the flight becomes the edit target, fills the form, and the form is shown |
| AdminFlights.AdminFlightsPage.HandleSubmit | src/app/admin/flights/page.tsx:52-84 | sends the submit request of the current form and target; resets only after a successful save; a refused route or failed save changes nothing |
| AdminFlights.AdminFlightsPage.HandleDelete | src/app/admin/flights/page.tsx:103-114 | a DELETE of exactly `/flights/<id>` when confirmed, nothing otherwise |
| AdminAirlines.FormJson | src/app/admin/airlines/page.tsx:41-46 | the form is sent as it stands, with its five keys, `logo_url` included even when '' |
| AdminAirlines.SubmitRequest | src/app/admin/airlines/page.tsx:41-47 | the form as it stands, PUT to `/airlines/<id>` of the edit target if there is one, POST to `/airlines` otherwise |
| AdminAirlines.FormFromAirline | src/app/admin/airlines/page.tsx:58-64 | the airline's fields, a null logo shown as '' |
| AdminAirlines.EditThenSubmitAirline | src/app/admin/airlines/page.tsx:56-66 | editing an airline and saving it unchanged sends its fields back, a null logo as '' |
| AdminAirlines.AdminAirlinesPage.constructor | src/app/admin/airlines/page.tsx:10-20 | empty list, hidden form, no edit target, country `Indonesia`, active |
| AdminAirlines.AdminAirlinesPage.LoadAirlines | src/app/admin/airlines/page.tsx:26-36 | the list is replaced on success and kept on failure |
| AdminAirlines.AdminAirlinesPage.ToggleForm | src/app/admin/airlines/page.tsx:115 | the form's visibility flips |
| AdminAirlines.AdminAirlinesPage.ChangeCode | src/app/admin/airlines/page.tsx:135-143 | the code becomes the first two typed characters upper-cased; the rest of the form is kept |
| AdminAirlines.AdminAirlinesPage.ResetForm | src/app/admin/airlines/page.tsx:81-91 | initial defaults, no edit target, form hidden |
| AdminAirlines.AdminAirlinesPage.HandleEdit | src/app/admin/airlines/page.tsx:56-66 | the airline becomes the edit target, fills the form, and the form is shown |
| AdminAirlines.AdminAirlinesPage.HandleSubmit | src/app/admin/airlines/page.tsx:38-54 | sends the submit request; resets only after a successful save, a failed save changes nothing |
| AdminAirlines.AdminAirlinesPage.HandleDelete | src/app/admin/airlines/page.tsx:68-79 | a DELETE of exactly `/airlines/<id>` when confirmed, nothing otherwise |
| AdminAirports.Coordinate | src/app/admin/airports/page.tsx:46-47 | an empty coordinate is null, any other is parsed |
| AdminAirports.PayloadJson | src/app/admin/airports/page.tsx:44-48 | the form's eight keys: code, name, city, country, timezone and `is_active` copied, the coordinates read as numbers (empty or `NaN` as null) |
| AdminAirports.SubmitRequest | src/app/admin/airports/page.tsx:50-56 | the payload, PUT to `/airports/<id>` of the edit target if there is one, POST to `/airports` otherwise |
| AdminAirports.CoordinateText | src/app/admin/airports/page.tsx:73-74 | a null or zero coordinate shows as '', any other as its text |
| AdminAirports.FormFromAirport | src/app/admin/airports/page.tsx:67-76 | the airport's fields, coordinates as text |
| AdminAirports.EditThenSubmitCoordinates | src/app/admin/airports/page.tsx:44-48 | editing and saving unchanged sends back each non-zero coordinate whose printed text parses back to it; null and zero go back as null |
| AdminAirports.ZeroLatitudeSentAsNull | src/app/admin/airports/page.tsx:73 | an airport at latitude exactly 0 loses it on edit and save |
| AdminAirports.AdminAirportsPage.constructor | src/app/admin/airports/page.tsx:14-23 | empty list, hidden form, no edit target, `Indonesia`, `Asia/Jakarta`, active |
| AdminAirports.AdminAirportsPage.LoadAirports | src/app/admin/airports/page.tsx:29-39 | the list is replaced on success and kept on failure |
| AdminAirports.AdminAirportsPage.ToggleForm | src/app/admin/airports/page.tsx:130 | the form's visibility flips |
| AdminAirports.AdminAirportsPage.ChangeCode | src/app/admin/airports/page.tsx:150-158 | the code becomes the first three typed characters upper-cased; the rest of the form is kept |
| AdminAirports.AdminAirportsPage.ResetForm | src/app/admin/airports/page.tsx:93-106 | initial defaults, no edit target, form hidden |
| AdminAirports.AdminAirportsPage.HandleEdit | src/app/admin/airports/page.tsx:65-78 | the airport becomes the edit target, fills the form, and the form is shown |
| AdminAirports.AdminAirportsPage.HandleSubmit | src/app/admin/airports/page.tsx:41-63 | sends the submit request; resets only after a successful save, a failed save changes nothing |
| AdminAirports.AdminAirportsPage.HandleDelete | src/app/admin/airports/page.tsx:80-91 | a DELETE of exactly `/airports/<id>` when confirmed, nothing otherwise |
| Text.CodeFieldValue | src/app/admin/airlines/page.tsx:137-140 | the first `maxLength` typed characters (all of them when fewer were typed), each upper-cased, so none lower-case |
| Text.CodeFieldValueStable | src/app/admin/airports/page.tsx:152-155 | feeding a stored code back through the input changes nothing |
| Decimal.NatToString | src/app/admin/flights/page.tsx:89-92 | `String(n)`: a non-empty string of digits with a leading `0` only for zero |
| Decimal.NatToStringValue | src/app/admin/flights/page.tsx:89-92 | the digits of `String(n)` have the value `n` |
| Decimal.ParseInt | src/app/admin/flights/page.tsx:63-65 | `parseInt` of the empty string is `NaN` |
| Decimal.ParseIntWithoutDigits | src/app/admin/flights/page.tsx:63-65 | `parseInt` of a string without a decimal digit is `NaN` |
| Decimal.ParseIntOfDigits | src/app/admin/flights/page.tsx:63-65 | `parseInt` of a decimal numeral is its value |
| Decimal.ParseIntOfString | src/app/admin/flights/page.tsx:63-65 | `parseInt(String(n))` is `n` for every natural `n` |
| Decimal.NatToStringInjective | src/app/admin/flights/page.tsx:89-92 | different ids are written as different strings |
| FlightBoard.Title | src/components/FlightBoard.tsx:18 | `KEBERANGKATAN` for a departure board, `KEDATANGAN` for an arrival board |
| FlightBoard.PlaceHeader | src/components/FlightBoard.tsx:32 | `TUJUAN` for a departure board, `ASAL` for an arrival board |
| FlightBoard.DelayNote | src/components/FlightBoard.tsx:65-69 | a `+… menit` note exactly when the delay is positive |
| FlightBoard.DelayNoteShowsMinutes | src/components/FlightBoard.tsx:67 | the number after `+` reads back as the delay in minutes |
| FlightBoard.OrDash | src/components/FlightBoard.tsx:98 | a missing or empty gate or remarks shows `-`, any other shows itself |
| FlightBoard.TerminalNote | src/components/FlightBoard.tsx:100-104 | the terminal line appears exactly for a non-empty terminal |
| FlightBoard.BoardRow | src/components/FlightBoard.tsx:47-116 | a departure row shows the destination and departure time, an arrival row the origin and arrival time, with the delay note, gate/remarks fallbacks, terminal line and status badge |
| FlightBoard.BoardsDifferOnlyInTimeAndPlace | src/components/FlightBoard.tsx:48-54 | the same flight's departure and arrival rows differ only in time and place |
| FlightBoard.Render | src/components/FlightBoard.tsx:12-129 | title and place header by board type; no-flights body exactly for an empty list, else one row per flight in order; total is the number of flights |
| FlightBoard.VisibleRowsMatchTotal | src/components/FlightBoard.tsx:40-47 | the body shows a single row for no flights, else exactly one per flight |
| FlightBoard.DelayedRowsAreMarked | src/components/FlightBoard.tsx:65-69 | on a board, a row carries a delay note exactly when its flight is delayed, and the note reads back as the delay |
| HomePage.Preview | src/app/page.tsx:12-13 | the first min(5, n) flights, in order |
| HomePage.CountStatus | src/app/page.tsx:73 | never more than the number of flights |
| HomePage.CountStatusIsMultiplicity | src/app/page.tsx:73 | the count is how often the code occurs among the flights' statuses |
| HomePage.CountStatusPositive | src/app/page.tsx:83 | the count is positive exactly when some flight has that status |
| HomePage.DepartedAndDelayedWithinTotal | src/app/page.tsx:53-83 | departed plus delayed is at most the departures total |
| HomePage.View | src/app/page.tsx:12-120 | totals are the list lengths, counts are the DEPARTED and DELAYED counts and fit the total, the boards show the previews |
| HomePage.Render | src/app/page.tsx:8-9 | the page asks for the CGK departures and arrivals without a date; it fails with the departures error when that fetch fails, else with the arrivals error when that one fails |
| HomePage.HomeEndpoints | src/app/page.tsx:8-9 | the two requests are `/flights/departures?airport=CGK` and `/flights/arrivals?airport=CGK` |

## Left out

- Network transport: `fetch` and response parsing are not modelled; an answer is an input (`Reply`). A request records its path relative to the base URL `Http.ApiUrl` gives; the concatenation of the two is not modelled.
- Date and locale formatting (`formatTime`, `formatDate`, `toLocaleString`): times are opaque strings, and the board's time formatting is a function parameter.
- Floating point: `parseFloat` and `String(x)` for coordinates are function parameters; coordinates are real numbers.
- Browser dialogs, logging and React plumbing (`alert`, `confirm`, `console`, `useEffect`, `loading` flags, the `Promise.all` concurrency): a confirmation is a boolean input and a save's outcome is the `saved` input.
- The list reload after a save or delete is not part of `HandleSubmit`/`HandleDelete`; it is a separate call to the page's `Load…` method.
- `HandleDelete` returns the request it issues and does not model the reload that follows a successful delete.
- Field edits other than the two code inputs (plain `setFormData({...formData, x: value})` handlers) are not modelled as separate methods.
- JSON serialisation: bodies are JSON values with unordered members; the text `JSON.stringify` produces, key order and JSON arrays are not modelled.
- The prototype-key quirk of object-literal lookups (`colors['constructor']`): the lookups are finite maps over the six codes.
- `Decimal.ParseInt` trims only the common ASCII and a few Unicode spaces, and upper-casing is ASCII only: other Unicode whitespace and case mappings are not modelled.
- AdminApi.ResponseError: a `message` member that is truthy but not a string (a number, an object) is treated as absent rather than used as the message.
- JavaScript numbers are doubles, while the model's ids and delays are unbounded integers: `String(n)` is exponential for n of 10^21 and more, and `parseInt` rounds numerals above 2^53. The model assumes ids and delays below 2^53.
- `slice(0, 16)` and `maxLength` count UTF-16 code units, while Dafny strings are sequences of Unicode scalar values; timestamps and codes are assumed to be ASCII.
- Presentational files (navigation, layout, cards, directory pages, the admin dashboard) and all CSS layout.
- The duplicate status type in src/types/index.ts is the same six-member `FlightStatus`.
- The missing `Link` import in src/app/flights/page.tsx is a build error, not behaviour.
- Un-enveloped airport responses, a per-status attention rule and logo uploads do not exist in the code and are not modelled.
