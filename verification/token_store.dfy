/**
 * The observable session state behind `setAuthToken`, `clearAuthToken` and
 * `isLoggedIn`: the value persisted under the storage key `authToken` and
 * the HTTP client's default `Authorization` header. Both API modules
 * implement these transitions on their own client; this module states them once.
 */
module TokenStore {
  import opened Wrappers
  import opened Js

  /** The storage key the token is persisted under. */
  const StorageKey := "authToken"

  datatype Store = Store(authToken: Option<string>, authorization: Option<string>)

  /** Nothing stored, no default header. */
  const Cleared := Store(None, None)

  /** `isLoggedIn()`: a non-empty string is stored under `authToken`. */
  predicate IsLoggedIn(s: Store) {
    Present(s.authToken)
  }

  /** The header value `setAuthToken` installs for a token. */
  function Bearer(token: string): string {
    "Bearer " + token
  }

  /** `setAuthToken(token)`: a falsy token (null or "") changes nothing. */
  function SetAuthToken(s: Store, token: Option<string>): (r: Store)
    ensures !Present(token) ==> r == s
    ensures Present(token) ==> r.authToken == token && r.authorization == Some(Bearer(token.value))
  {
    if Present(token) then Store(token, Some(Bearer(token.value))) else s
  }

  /** `clearAuthToken()`: removes the stored token and deletes the default header. */
  function ClearAuthToken(s: Store): (r: Store)
    ensures r.authToken.None? && r.authorization.None?
    ensures !IsLoggedIn(r)
  {
    Cleared
  }

  /** The header carries exactly the stored token, or is absent when none is stored. */
  predicate HeaderInSync(s: Store) {
    s.authorization == (if IsLoggedIn(s) then Some(Bearer(s.authToken.value)) else None)
  }

  /** After storing a non-empty token the session reads as logged in and requests carry it. */
  lemma SetLogsIn(s: Store, token: string)
    requires token != ""
    ensures IsLoggedIn(SetAuthToken(s, Some(token)))
    ensures HeaderInSync(SetAuthToken(s, Some(token)))
    ensures SetAuthToken(s, Some(token)).authorization == Some("Bearer " + token)
  {
  }

  /** After clearing, the session reads as logged out and no header remains. */
  lemma ClearLogsOut(s: Store)
    ensures !IsLoggedIn(ClearAuthToken(s)) && HeaderInSync(ClearAuthToken(s))
  {
  }

  /** Both transitions keep the header in step with the stored token. */
  lemma TransitionsKeepHeaderInSync(s: Store, token: Option<string>)
    requires HeaderInSync(s)
    ensures HeaderInSync(SetAuthToken(s, token))
    ensures HeaderInSync(ClearAuthToken(s))
  {
  }

  /**
   * A token persisted by an earlier page load makes `isLoggedIn()` true, but
   * the freshly created client has no default header: nothing re-installs it
   * from storage, so the state is logged in yet out of sync.
   */
  lemma RestoredTokenHasNoHeader(token: string)
    requires token != ""
    ensures IsLoggedIn(Store(Some(token), None))
    ensures !HeaderInSync(Store(Some(token), None))
  {
  }
}
