/**
 * src/components/login-form.tsx: the phone and password rules, and
 * `onSubmit`, which logs in through the auth provider and navigates home.
 */
module LoginForm {
  import opened Wrappers
  import opened FormRules
  import Http
  import TokenStore
  import AuthApi
  import AuthContext

  /** The message shown under each input, if any. */
  datatype LoginErrors = LoginErrors(phone: Option<string>, password: Option<string>)

  const NoErrors := LoginErrors(None, None)
  const HomePath := "/"

  /** `required: "Phone number is required"`, then the ten-to-thirteen-digit pattern. */
  function PhoneError(s: string): (r: Option<string>)
    ensures r.None? <==> IsPhone(s)
    ensures s == "" ==> r == Some("Phone number is required")
    ensures s != "" && !IsPhone(s) ==> r == Some("Please enter a valid phone number")
  {
    if s == "" then Some("Phone number is required")
    else if !IsPhone(s) then Some("Please enter a valid phone number")
    else None
  }

  /** `required`, then `minLength: 6`. */
  function PasswordError(s: string): (r: Option<string>)
    ensures r.None? <==> MinLength(s, 6)
    ensures s == "" ==> r == Some("Password is required")
    ensures s != "" && !MinLength(s, 6) ==> r == Some("Password must be at least 6 characters")
  {
    if s == "" then Some("Password is required")
    else if !MinLength(s, 6) then Some("Password must be at least 6 characters")
    else None
  }

  function Validate(c: AuthApi.Credentials): (e: LoginErrors)
    ensures e == NoErrors <==> IsPhone(c.phone) && MinLength(c.password, 6)
  {
    LoginErrors(PhoneError(c.phone), PasswordError(c.password))
  }

  /** Credentials that pass the form's rules always reach the server. */
  lemma ValidCredentialsAreSent(c: AuthApi.Credentials, reply: Result<AuthApi.LoginResponse, Http.Thrown>)
    requires Validate(c) == NoErrors
    ensures AuthApi.LoginCall(c, reply).requested
  {
    assert |c.phone| >= 10;
  }

  class LoginFormState {
    const auth: AuthContext.AuthProvider
    var fieldErrors: LoginErrors
    var error: Option<string>
    var isLoading: bool
    var navigatedTo: Option<string>

    constructor (auth: AuthContext.AuthProvider)
      ensures this.auth == auth
      ensures fieldErrors == NoErrors && error == None && !isLoading && navigatedTo == None
    {
      this.auth := auth;
      fieldErrors, error, isLoading, navigatedTo := NoErrors, None, false, None;
    }

    /**
     * `handleSubmit(onSubmit)`: credentials that break a rule only show their
     * messages; otherwise the provider's `login` runs, success navigates to
     * "/" and failure shows the thrown message without navigating. Loading
     * is over whenever `onSubmit` ran.
     */
    method Submit(c: AuthApi.Credentials, reply: Result<AuthApi.LoginResponse, Http.Thrown>)
      modifies this, auth, auth.api
      ensures fieldErrors == Validate(c)
      ensures fieldErrors != NoErrors ==>
                error == old(error) && isLoading == old(isLoading) && navigatedTo == old(navigatedTo) &&
                auth.isAuthenticated == old(auth.isAuthenticated) && auth.user == old(auth.user) &&
                auth.api.State() == old(auth.api.State())
      ensures fieldErrors == NoErrors ==> !isLoading
      ensures fieldErrors == NoErrors && AuthApi.LoginCall(c, reply).result.Success? ==>
                error == None && navigatedTo == Some(HomePath) &&
                auth.isAuthenticated && auth.user == Some(AuthApi.LoginCall(c, reply).result.value) &&
                TokenStore.IsLoggedIn(auth.api.State())
      ensures fieldErrors == NoErrors && AuthApi.LoginCall(c, reply).result.Failure? ==>
                error == Some(AuthApi.LoginCall(c, reply).result.error) && navigatedTo == old(navigatedTo) &&
                auth.isAuthenticated == old(auth.isAuthenticated) && auth.user == old(auth.user) &&
                auth.api.State() == old(auth.api.State())
    {
      fieldErrors := Validate(c);
      if fieldErrors != NoErrors {
        return;
      }
      error := None;
      isLoading := true;
      var r := auth.Login(c, reply);
      match r {
        case Success(_) => navigatedTo := Some(HomePath);
        case Failure(message) => error := Some(message);
      }
      isLoading := false;
    }
  }
}
