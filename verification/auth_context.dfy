/**
 * src/context/AuthContext.tsx: the provider's `isAuthenticated` and `user`
 * state, read from the main client's token store at mount and updated by
 * `login` and `logout`.
 */
module AuthContext {
  import opened Wrappers
  import TokenStore
  import Http
  import AuthApi

  class AuthProvider {
    const api: AuthApi.AuthClient
    var isAuthenticated: bool
    var user: Option<AuthApi.LoginResponse>

    /** Mounting: the flag starts from `isLoggedIn()` (and the mount effect re-reads the same value); no user yet. */
    constructor (api: AuthApi.AuthClient)
      ensures this.api == api
      ensures isAuthenticated == TokenStore.IsLoggedIn(api.State())
      ensures user == None
    {
      this.api := api;
      var loggedIn := api.IsLoggedIn();
      isAuthenticated := loggedIn;
      user := None;
    }

    /** `login`: a thrown API error leaves both fields alone; success marks the session and records the returned user. */
    method Login(c: AuthApi.Credentials, reply: Result<AuthApi.LoginResponse, Http.Thrown>) returns (r: Result<AuthApi.LoginResponse, string>)
      modifies this, api
      ensures r == AuthApi.LoginCall(c, reply).result
      ensures r.Success? ==> isAuthenticated && user == Some(r.value) && TokenStore.IsLoggedIn(api.State())
      ensures r.Success? ==> api.State() == TokenStore.SetAuthToken(old(api.State()), r.value.accessToken)
      ensures r.Failure? ==> isAuthenticated == old(isAuthenticated) && user == old(user) && api.State() == old(api.State())
    {
      r := api.Login(c, reply);
      if r.Success? {
        isAuthenticated := true;
        user := Some(r.value);
      }
    }

    /** `logout`: clears the token, the flag and the user. */
    method Logout()
      modifies this, api
      ensures !isAuthenticated && user == None
      ensures api.State() == TokenStore.Cleared
    {
      api.Logout();
      isAuthenticated := false;
      user := None;
    }
  }

  /**
   * The flag is held state: clearing the token behind the provider's back
   * (as anything holding the client may do) leaves the provider reporting an
   * authenticated session while the store says otherwise.
   */
  method HeldFlagOutlivesClear(token: string) returns (held: bool, stored: bool)
    requires token != ""
    ensures held && !stored
  {
    var client := new AuthApi.AuthClient(Some(token));
    var provider := new AuthProvider(client);
    client.ClearAuthToken();
    held := provider.isAuthenticated;
    stored := client.IsLoggedIn();
  }
}
