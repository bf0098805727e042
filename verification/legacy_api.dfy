/**
 * src/lib/api.ts: the older API client. Same token store as the main
 * client, but its response interceptor clears the session on any 401, and
 * its `login` reads `{token, user}` and never consults `responseMessage`.
 */
module LegacyApi {
  import opened Wrappers
  import opened Js
  import opened Http
  import TokenStore
  import AuthApi

  datatype LegacyLoginResponse = LegacyLoginResponse(token: Option<string>, user: map<string, Json>, message: Option<string>)

  /**
   * The catch block of this `login`: network failure, then 401, then
   * `data.message || data.error || 'Login failed'` for every other status
   * (400 included, through an identical branch).
   */
  function LegacyLoginErrorMessage(e: Thrown): (r: string)
    ensures r != ""
    ensures MentionsNetworkError(e) ==> r == ConnectionMessage
    ensures !MentionsNetworkError(e) && e.response.None? ==> r == UnexpectedMessage
    ensures !MentionsNetworkError(e) && IsUnauthorized(e) ==> r == InvalidCredentialsMessage
    ensures !MentionsNetworkError(e) && e.response.Some? && !IsUnauthorized(e) ==>
              r == OrElse(BodyOf(e.response.value).message, OrElse(BodyOf(e.response.value).error, "Login failed"))
  {
    if MentionsNetworkError(e) then ConnectionMessage
    else if e.response.Some? then
      var b := BodyOf(e.response.value);
      var message := OrElse(b.message, OrElse(b.error, "Login failed"));
      if e.response.value.status == 401 then InvalidCredentialsMessage
      else if e.response.value.status == 400 then message
      else message
    else UnexpectedMessage
  }

  /** The server's `responseMessage` never reaches the caller of this login. */
  lemma ResponseMessageIgnored(m: Option<string>, status: int, msg: Option<string>, err: Option<string>, r1: Option<string>, r2: Option<string>)
    ensures LegacyLoginErrorMessage(Thrown(m, Some(ErrorResponse(status, Some(ErrorBody(msg, err, r1))))))
         == LegacyLoginErrorMessage(Thrown(m, Some(ErrorResponse(status, Some(ErrorBody(msg, err, r2))))))
  {
  }

  /** The two login functions word the same server error differently when only `responseMessage` is set. */
  lemma ClientsDisagreeOnResponseMessage(text: string)
    requires text != ""
    ensures var e := Thrown(None, Some(ErrorResponse(500, Some(ErrorBody(None, None, Some(text))))));
            AuthApi.LoginErrorMessage(e) == text && LegacyLoginErrorMessage(e) == "Login failed"
  {
  }

  /** `login(credentials)` of this client as a value: request sent or not, user returned or message thrown. */
  function LegacyLoginCall(c: AuthApi.Credentials, reply: Result<LegacyLoginResponse, Thrown>): (r: AuthApi.Call<map<string, Json>>)
    ensures r.requested <==> c.phone != "" && c.password != ""
    ensures !r.requested ==> r.result == Failure(UnexpectedMessage)
    ensures r.result.Success? <==> r.requested && reply.Success? && Present(reply.value.token)
    ensures r.result.Success? ==> r.result.value == reply.value.user
    ensures r.requested && reply.Success? && !Present(reply.value.token) ==> r.result == Failure(UnexpectedMessage)
    ensures r.requested && reply.Failure? ==> r.result == Failure(LegacyLoginErrorMessage(reply.error))
  {
    AuthApi.LocalErrorsAreUnexpected();
    if c.phone == "" || c.password == "" then
      AuthApi.Call(false, Failure(LegacyLoginErrorMessage(LocalError(AuthApi.RequiredMessage))))
    else
      match reply
      case Success(body) =>
        if Present(body.token) then AuthApi.Call(true, Success(body.user))
        else AuthApi.Call(true, Failure(LegacyLoginErrorMessage(LocalError(AuthApi.NoTokenMessage))))
      case Failure(e) => AuthApi.Call(true, Failure(LegacyLoginErrorMessage(e)))
  }

  /** The older client, with its own default header. */
  class LegacyClient {
    var authToken: Option<string>
    var authorization: Option<string>

    function State(): TokenStore.Store
      reads this
    {
      TokenStore.Store(authToken, authorization)
    }

    constructor (persisted: Option<string>)
      ensures State() == TokenStore.Store(persisted, None)
    {
      authToken := persisted;
      authorization := None;
    }

    method SetAuthToken(token: Option<string>)
      modifies this
      ensures State() == TokenStore.SetAuthToken(old(State()), token)
    {
      if Present(token) {
        authToken := token;
        authorization := Some(TokenStore.Bearer(token.value));
      }
    }

    method ClearAuthToken()
      modifies this
      ensures State() == TokenStore.ClearAuthToken(old(State()))
    {
      authToken := None;
      authorization := None;
    }

    method IsLoggedIn() returns (b: bool)
      ensures b <==> TokenStore.IsLoggedIn(State())
    {
      b := authToken.Some? && authToken.value != "";
    }

    /** The rejection handler of this client's interceptor: a 401 ends the session; the error goes on unchanged. */
    method OnRejected(e: Thrown) returns (r: Thrown)
      modifies this
      ensures r == e
      ensures State() == (if IsUnauthorized(e) then TokenStore.Cleared else old(State()))
    {
      if IsUnauthorized(e) {
        ClearAuthToken();
      }
      r := e;
    }

    /**
     * `login`: on success `token` is stored and `user` returned. A 401 reply
     * passes the interceptor first, so a rejected login also ends any
     * session that was active.
     */
    method Login(c: AuthApi.Credentials, reply: Result<LegacyLoginResponse, Thrown>) returns (r: Result<map<string, Json>, string>)
      modifies this
      ensures r == LegacyLoginCall(c, reply).result
      ensures r.Success? ==> State() == TokenStore.SetAuthToken(old(State()), reply.value.token)
      ensures r.Success? ==> TokenStore.IsLoggedIn(State())
      ensures r.Failure? ==>
                State() == (if LegacyLoginCall(c, reply).requested && reply.Failure? && IsUnauthorized(reply.error)
                            then TokenStore.Cleared else old(State()))
    {
      AuthApi.LocalErrorsAreUnexpected();
      if c.phone == "" || c.password == "" {
        r := Failure(LegacyLoginErrorMessage(LocalError(AuthApi.RequiredMessage)));
        return;
      }
      match reply {
        case Success(body) =>
          if !Present(body.token) {
            r := Failure(LegacyLoginErrorMessage(LocalError(AuthApi.NoTokenMessage)));
          } else {
            SetAuthToken(body.token);
            r := Success(body.user);
          }
        case Failure(e) =>
          var passed := OnRejected(e);
          r := Failure(LegacyLoginErrorMessage(passed));
      }
    }

    /** `logout`: clears the local token state only. */
    method Logout()
      modifies this
      ensures State() == TokenStore.Cleared
    {
      ClearAuthToken();
    }
  }
}
