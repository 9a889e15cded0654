/**
 * The error records of the HTTP layer and the response interceptor that turns
 * every transport failure into one of them.
 */
module ApiErrors {
  import opened Wrappers
  import Strings

  /** The normalised error every rejected request carries. */
  datatype ApiError = ApiError(
    message: string,
    statusCode: int,
    errors: Option<map<string, seq<string>>>,
    code: Option<string>)

  /**
   * A value a `catch` clause can receive: an `ApiError` record, or a plain
   * `Error` such as the store's "Candidate not found", which has a message
   * but no status code.
   */
  datatype Thrown = Api(error: ApiError) | Plain(message: string)

  /**
   * The isApiError type guard: the value carries both a message and a status
   * code. An ApiError record does; a plain Error has no status code.
   */
  function IsApiError(t: Thrown): (b: bool)
    ensures b <==> t.Api?
    ensures t.Plain? ==> !b
  {
    t.Api?
  }

  /** The JSON error body a server response may carry; each field may be missing. */
  datatype ErrorBody = ErrorBody(
    message: Option<string>,
    errors: Option<map<string, seq<string>>>,
    code: Option<string>)

  datatype HttpResponse = HttpResponse(status: int, data: Option<ErrorBody>)

  /** A failed request as the HTTP client reports it; `response` is `None` when no response arrived. */
  datatype TransportError = TransportError(message: string, response: Option<HttpResponse>)

  /** What reaches the interceptor: a response, or a failure. */
  datatype Exchange<R> = Received(response: R) | Failed(failure: TransportError)

  const NETWORK_ERROR_MESSAGE := "Network Error"
  const CONNECTION_TEXT := "Unable to connect to the server. Please check your internet connection."
  const NETWORK_FALLBACK_TEXT := "Network error occurred"
  const UNEXPECTED_TEXT := "An unexpected error occurred"

  /** `a || fallback` on a string that may be missing: an absent or empty `a` yields `fallback`. */
  function OrElse(a: Option<string>, fallback: string): (r: string)
    ensures a.Some? && a.value != "" ==> r == a.value
    ensures a.None? || a.value == "" ==> r == fallback
  {
    if a.Some? && a.value != "" then a.value else fallback
  }

  /** The message field of an optional body (`data?.message`). */
  function BodyMessage(data: Option<ErrorBody>): Option<string> {
    if data.Some? then data.value.message else None
  }

  /** The error rejection handler: the `ApiError` a transport failure becomes. */
  function ToApiError(e: TransportError): (r: ApiError)
    // no response: a network error with status 0
    ensures e.response.None? ==> r.statusCode == 0 && r.code == Some("NETWORK_ERROR") && r.errors == None
    ensures e.response.None? && e.message == NETWORK_ERROR_MESSAGE ==> r.message == CONNECTION_TEXT
    ensures e.response.None? && e.message != NETWORK_ERROR_MESSAGE && e.message != "" ==> r.message == e.message
    ensures e.response.None? && e.message == "" ==> r.message == NETWORK_FALLBACK_TEXT
    // a response: its status, its body's errors, and the message and code fallbacks
    ensures e.response.Some? ==> r.statusCode == e.response.value.status
    ensures e.response.Some? && e.response.value.data.Some? ==> r.errors == e.response.value.data.value.errors
    ensures e.response.Some? && e.response.value.data.None? ==> r.errors == None
    ensures e.response.Some? ==>
      r.message == OrElse(BodyMessage(e.response.value.data), OrElse(Some(e.message), UNEXPECTED_TEXT))
    ensures e.response.Some? ==>
      r.code == Some(OrElse(if e.response.value.data.Some? then e.response.value.data.value.code else None,
                            "HTTP_" + Strings.IntToString(e.response.value.status)))
    // the message is never empty
    ensures r.message != ""
  {
    match e.response
    case None =>
      ApiError(
        if e.message == NETWORK_ERROR_MESSAGE then CONNECTION_TEXT else OrElse(Some(e.message), NETWORK_FALLBACK_TEXT),
        0, None, Some("NETWORK_ERROR"))
    case Some(resp) =>
      ApiError(
        OrElse(BodyMessage(resp.data), OrElse(Some(e.message), UNEXPECTED_TEXT)),
        resp.status,
        if resp.data.Some? then resp.data.value.errors else None,
        Some(OrElse(if resp.data.Some? then resp.data.value.code else None, "HTTP_" + Strings.IntToString(resp.status))))
  }

  /**
   * The response interceptor: a response passes through unchanged, and every
   * failure is rejected with a value that satisfies isApiError.
   */
  function Intercept<R>(x: Exchange<R>): (r: Result<R, Thrown>)
    ensures r.Success? <==> x.Received?
    ensures x.Received? ==> r.value == x.response
    ensures r.Failure? ==> IsApiError(r.error) && r.error.error == ToApiError(x.failure)
  {
    match x
    case Received(resp) => Success(resp)
    case Failed(e) => Failure(Api(ToApiError(e)))
  }
}
