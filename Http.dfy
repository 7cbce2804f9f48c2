/**
 * What the pages see of the REST backend: the base URL and the answer to
 * one `fetch`. The transport itself is not modelled; an answer is an input.
 */
module Http {
  import opened Wrappers

  /** The default base URL when `NEXT_PUBLIC_API_URL` is unset or empty. */
  const DefaultApiUrl: string := "http://localhost:8000/api/v1"

  /** `process.env.NEXT_PUBLIC_API_URL || 'http://localhost:8000/api/v1'`. */
  function ApiUrl(configured: Option<string>): (url: string)
    ensures configured.Some? && configured.value != "" ==> url == configured.value
    ensures configured.None? || configured.value == "" ==> url == DefaultApiUrl
  {
    if configured.Some? && configured.value != "" then configured.value else DefaultApiUrl
  }

  /**
   * The answer to one request: either `fetch` rejected (no response), or a
   * response with its `ok` flag, numeric status, status text and parsed body
   * (`None` when the body is not valid JSON).
   */
  datatype Reply<B> =
    | NetworkError
    | Response(ok: bool, status: nat, statusText: string, body: Option<B>)

  /** The errors a request can end with, as the callers see them. */
  datatype FetchError =
    | NetworkFailure        // the rejection of `fetch`, passed on
    | InvalidJson           // the rejection of `res.json()` on an ok response
    | NullErrorBody         // reading `.message` of a `null` error body throws a TypeError
    | ApiError(message: string)
}
