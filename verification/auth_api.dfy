/**
 * src/lib/api/auth.api.ts: the token store of the main API client, `login`,
 * `registerUser` and `logout`. The response interceptor of this client is a
 * no-op (its clearing call is commented out).
 */
module AuthApi {
  import opened Wrappers
  import opened Js
  import opened Http
  import TokenStore

  datatype Credentials = Credentials(phone: string, password: string)

  /** The login response body; the whole body is what `login` returns as the user. */
  datatype LoginResponse = LoginResponse(accessToken: Option<string>, fields: map<string, Json>)

  datatype RegisterPayload = RegisterPayload(name: string, phone: string, email: string, address: Option<string>, password: string)

  /** What a call to the API did: whether a request went out, and what it returned or threw. */
  datatype Call<T> = Call(requested: bool, result: Result<T, string>)

  const RequiredMessage := "Phone and password are required"
  const NoTokenMessage := "Authentication failed: No token received"
  const RegisterRequiredMessage := "Please fill all required fields"

  /** `data.responseMessage || data.message || data.error || fallback` */
  function ServerText(b: ErrorBody, fallback: string): (r: string)
    ensures Present(b.responseMessage) ==> r == b.responseMessage.value
    ensures !Present(b.responseMessage) && Present(b.message) ==> r == b.message.value
    ensures !Present(b.responseMessage) && !Present(b.message) && Present(b.error) ==> r == b.error.value
    ensures !Present(b.responseMessage) && !Present(b.message) && !Present(b.error) ==> r == fallback
    ensures fallback != "" ==> r != ""
  {
    OrElse(b.responseMessage, OrElse(b.message, OrElse(b.error, fallback)))
  }

  /**
   * The catch block of `login`: a network failure first, then any HTTP
   * response (401 always reads as bad credentials, whatever the server
   * wrote), and everything else, including the function's own throws, as
   * the generic message.
   */
  function LoginErrorMessage(e: Thrown): (r: string)
    ensures r != ""
    ensures MentionsNetworkError(e) ==> r == ConnectionMessage
    ensures !MentionsNetworkError(e) && e.response.None? ==> r == UnexpectedMessage
    ensures !MentionsNetworkError(e) && IsUnauthorized(e) ==> r == InvalidCredentialsMessage
    ensures !MentionsNetworkError(e) && e.response.Some? && !IsUnauthorized(e) ==>
              r == ServerText(BodyOf(e.response.value), "Login failed")
  {
    if MentionsNetworkError(e) then ConnectionMessage
    else if e.response.Some? then
      if e.response.value.status == 401 then InvalidCredentialsMessage
      else ServerText(BodyOf(e.response.value), "Login failed")
    else UnexpectedMessage
  }

  /** The catch block of `registerUser`: as for login, but a 401 has no special case. */
  function RegisterErrorMessage(e: Thrown): (r: string)
    ensures r != ""
    ensures MentionsNetworkError(e) ==> r == ConnectionMessage
    ensures !MentionsNetworkError(e) && e.response.None? ==> r == UnexpectedMessage
    ensures !MentionsNetworkError(e) && e.response.Some? ==> r == ServerText(BodyOf(e.response.value), "Registration failed")
  {
    if MentionsNetworkError(e) then ConnectionMessage
    else if e.response.Some? then ServerText(BodyOf(e.response.value), "Registration failed")
    else UnexpectedMessage
  }

  /** The client's own validation messages never mention a network error, so its catch turns them into the generic message. */
  lemma LocalErrorsAreUnexpected()
    ensures LoginErrorMessage(LocalError(RequiredMessage)) == UnexpectedMessage
    ensures LoginErrorMessage(LocalError(NoTokenMessage)) == UnexpectedMessage
    ensures RegisterErrorMessage(LocalError(RegisterRequiredMessage)) == UnexpectedMessage
  {
    assert NetworkErrorText[8] == 'E';
    MissingCharNotContained(RequiredMessage, NetworkErrorText, 8);
    MissingCharNotContained(NoTokenMessage, NetworkErrorText, 8);
    MissingCharNotContained(RegisterRequiredMessage, NetworkErrorText, 8);
  }

  /**
   * `login(credentials)` as a value: whether it sends the request, and what
   * it returns or throws, given the reply the server would give.
   */
  function LoginCall(c: Credentials, reply: Result<LoginResponse, Thrown>): (r: Call<LoginResponse>)
    ensures r.requested <==> c.phone != "" && c.password != ""
    ensures !r.requested ==> r.result == Failure(UnexpectedMessage)
    ensures r.result.Success? <==> r.requested && reply.Success? && Present(reply.value.accessToken)
    ensures r.result.Success? ==> r.result.value == reply.value
    ensures r.requested && reply.Success? && !Present(reply.value.accessToken) ==> r.result == Failure(UnexpectedMessage)
    ensures r.requested && reply.Failure? ==> r.result == Failure(LoginErrorMessage(reply.error))
  {
    LocalErrorsAreUnexpected();
    if c.phone == "" || c.password == "" then
      Call(false, Failure(LoginErrorMessage(LocalError(RequiredMessage))))
    else
      match reply
      case Success(body) =>
        if Present(body.accessToken) then Call(true, Success(body))
        else Call(true, Failure(LoginErrorMessage(LocalError(NoTokenMessage))))
      case Failure(e) => Call(true, Failure(LoginErrorMessage(e)))
  }

  /**
   * `registerUser(payload)`: a missing required field sends nothing and ends
   * in the generic message; a reply body is returned unchanged. It has no
   * access to the token store, so registering never logs anyone in.
   */
  function RegisterCall<B>(p: RegisterPayload, reply: Result<B, Thrown>): (r: Call<B>)
    ensures r.requested <==> p.name != "" && p.phone != "" && p.email != "" && p.password != ""
    ensures !r.requested ==> r.result == Failure(UnexpectedMessage)
    ensures r.requested ==> r.result == (if reply.Success? then Success(reply.value) else Failure(RegisterErrorMessage(reply.error)))
  {
    LocalErrorsAreUnexpected();
    if p.name == "" || p.phone == "" || p.email == "" || p.password == "" then
      Call(false, Failure(RegisterErrorMessage(LocalError(RegisterRequiredMessage))))
    else
      match reply
      case Success(body) => Call(true, Success(body))
      case Failure(e) => Call(true, Failure(RegisterErrorMessage(e)))
  }

  /** A 401 hides the server's wording at login, but registration reports it. */
  lemma UnauthorizedWordingDiffers(e: Thrown, text: string)
    requires !MentionsNetworkError(e) && IsUnauthorized(e)
    requires BodyOf(e.response.value).responseMessage == Some(text) && text != ""
    ensures LoginErrorMessage(e) == InvalidCredentialsMessage
    ensures RegisterErrorMessage(e) == text
  {
  }

  /** The main API client: its persisted token and its default `Authorization` header. */
  class AuthClient {
    var authToken: Option<string>
    var authorization: Option<string>

    function State(): TokenStore.Store
      reads this
    {
      TokenStore.Store(authToken, authorization)
    }

    /** A client created at page load sees whatever token an earlier session persisted, and no header. */
    constructor (persisted: Option<string>)
      ensures State() == TokenStore.Store(persisted, None)
    {
      authToken := persisted;
      authorization := None;
    }

    method SetAuthToken(token: Option<string>)
      modifies this
      ensures State() == TokenStore.SetAuthToken(old(State()), token)
    {
      if Present(token) {
        authToken := token;
        authorization := Some(TokenStore.Bearer(token.value));
      }
    }

    method ClearAuthToken()
      modifies this
      ensures State() == TokenStore.ClearAuthToken(old(State()))
    {
      authToken := None;
      authorization := None;
    }

    method IsLoggedIn() returns (b: bool)
      ensures b <==> TokenStore.IsLoggedIn(State())
    {
      b := authToken.Some? && authToken.value != "";
    }

    /** The rejection handler of the response interceptor: the 401 branch does nothing, and the error goes on unchanged. */
    method OnRejected(e: Thrown) returns (r: Thrown)
      ensures r == e
    {
      if IsUnauthorized(e) {
      }
      r := e;
    }

    /** `login`: on success the access token is stored and the whole body returned; otherwise nothing changes. */
    method Login(c: Credentials, reply: Result<LoginResponse, Thrown>) returns (r: Result<LoginResponse, string>)
      modifies this
      ensures r == LoginCall(c, reply).result
      ensures State() == (if r.Success? then TokenStore.SetAuthToken(old(State()), r.value.accessToken) else old(State()))
      ensures r.Success? ==> TokenStore.IsLoggedIn(State())
    {
      LocalErrorsAreUnexpected();
      if c.phone == "" || c.password == "" {
        r := Failure(LoginErrorMessage(LocalError(RequiredMessage)));
        return;
      }
      match reply {
        case Success(body) =>
          if !Present(body.accessToken) {
            r := Failure(LoginErrorMessage(LocalError(NoTokenMessage)));
          } else {
            SetAuthToken(body.accessToken);
            r := Success(body);
          }
        case Failure(e) =>
          var passed := OnRejected(e);
          r := Failure(LoginErrorMessage(passed));
      }
    }

    /** `logout`: local only; no request is sent and no server confirmation is awaited. */
    method Logout()
      modifies this
      ensures State() == TokenStore.Cleared
      ensures !TokenStore.IsLoggedIn(State())
    {
      ClearAuthToken();
    }
  }
}
