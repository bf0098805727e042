/**
 * src/lib/api/profile.api.ts: `getProfile`, a pass-through GET of the
 * signed-in user's profile with the shared error resolution.
 */
module ProfileApi {
  import opened Wrappers
  import opened Http

  const ProfilePath := "/v1/auth/profile"
  const ProfileFallback := "Failed to fetch profile"

  /** The request `getProfile` sends: a GET with no query. */
  function ProfileRequest(): Request<()> {
    Get(ProfilePath, ())
  }

  /**
   * `getProfile` against a server: the profile body unchanged, or a
   * non-empty server `message`, else the error's own `message`, else the
   * fallback.
   */
  function GetProfile<B>(server: Request<()> -> Result<B, Thrown>): (r: Result<B, string>)
    ensures r.Success? <==> server(Get(ProfilePath, ())).Success?
    ensures r.Success? ==> r.value == server(Get(ProfilePath, ())).value
    ensures r.Failure? ==> r.error == FetchErrorMessage(server(Get(ProfilePath, ())).error, ProfileFallback)
    ensures r.Failure? ==> r.error != ""
  {
    match server(ProfileRequest())
    case Success(body) => Success(body)
    case Failure(e) => Failure(FetchErrorMessage(e, ProfileFallback))
  }
}
