/**
 * The HTTP boundary as the API functions see it: the GET requests they
 * issue, the duck-typed error value axios rejects with, and the message
 * resolution shared by the data-fetching API functions.
 */
module Http {
  import opened Wrappers
  import opened Js

  /** A GET request: the path under the client's base URL and the query parameters. */
  datatype Request<Q> = Get(path: string, query: Q)

  /** `error.response.data`: the fields the code reads from a server error body. */
  datatype ErrorBody = ErrorBody(message: Option<string>, error: Option<string>, responseMessage: Option<string>)

  /** `error.response`: the HTTP status and the (possibly absent) body. */
  datatype ErrorResponse = ErrorResponse(status: int, data: Option<ErrorBody>)

  /** A thrown value as the catch blocks see it: its own `message` and, for an HTTP error, its `response`. */
  datatype Thrown = Thrown(message: Option<string>, response: Option<ErrorResponse>)

  /** The text axios puts in `message` when no response came back. */
  const NetworkErrorText := "Network Error"

  /** The login and registration messages shown for the cases the server did not word. */
  const ConnectionMessage := "Unable to connect to the server. Please check your connection or try again later."
  const InvalidCredentialsMessage := "Invalid phone number or password"
  const UnexpectedMessage := "An unexpected error occurred. Please try again."

  /** A thrown value whose own message mentions `Network Error`. */
  predicate MentionsNetworkError(e: Thrown) {
    e.message.Some? && Contains(e.message.value, NetworkErrorText)
  }

  /** `error?.response?.status === 401` */
  predicate IsUnauthorized(e: Thrown) {
    e.response.Some? && e.response.value.status == 401
  }

  /** `error.response.data ?? {}` */
  function BodyOf(r: ErrorResponse): ErrorBody {
    r.data.GetOr(ErrorBody(None, None, None))
  }

  /** `e?.response?.data?.message` */
  function ServerMessage(e: Thrown): Option<string> {
    if e.response.Some? then BodyOf(e.response.value).message else None
  }

  /** An error raised by the client's own code inside a `try`: a message and no response. */
  function LocalError(message: string): Thrown {
    Thrown(Some(message), None)
  }

  /**
   * The catch block of the data-fetching API functions: a non-empty server
   * `message` first, then the error's own non-empty `message`, then the
   * operation's fallback text. The HTTP status plays no part.
   */
  function FetchErrorMessage(e: Thrown, fallback: string): (r: string)
    ensures Present(ServerMessage(e)) ==> r == ServerMessage(e).value
    ensures !Present(ServerMessage(e)) && Present(e.message) ==> r == e.message.value
    ensures !Present(ServerMessage(e)) && !Present(e.message) ==> r == fallback
    ensures fallback != "" ==> r != ""
  {
    if Present(ServerMessage(e)) then ServerMessage(e).value
    else OrElse(e.message, fallback)
  }

  /** The status of a failed request never changes the message the data-fetching functions report. */
  lemma FetchErrorIgnoresStatus(message: Option<string>, data: Option<ErrorBody>, s1: int, s2: int, fallback: string)
    ensures FetchErrorMessage(Thrown(message, Some(ErrorResponse(s1, data))), fallback)
         == FetchErrorMessage(Thrown(message, Some(ErrorResponse(s2, data))), fallback)
  {
  }

  /** Only the body's `message` field is consulted; `error` and `responseMessage` are ignored. */
  lemma FetchErrorIgnoresOtherFields(e: Thrown, fallback: string, status: int, m: Option<string>, x1: Option<string>, r1: Option<string>, x2: Option<string>, r2: Option<string>)
    ensures FetchErrorMessage(Thrown(e.message, Some(ErrorResponse(status, Some(ErrorBody(m, x1, r1))))), fallback)
         == FetchErrorMessage(Thrown(e.message, Some(ErrorResponse(status, Some(ErrorBody(m, x2, r2))))), fallback)
  {
  }
}
