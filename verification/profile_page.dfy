/**
 * src/Pages/Dashbaord/Profile/profile-page.tsx: the mount effect that loads
 * the profile under a `mounted` liveness flag, the avatar initials, and the
 * display fallbacks of the two cards.
 */
module ProfilePage {
  import opened Wrappers
  import opened Js
  import opened Http
  import ProfileApi

  /** The page's `Profile` type: every field optional. */
  datatype Profile = Profile(
    name: Option<string>,
    phone: Option<string>,
    email: Option<string>,
    address: Option<string>,
    profileImage: Option<string>,
    roleName: Option<string>)

  /** `n[0]` of one part, read as text by `join`: the empty string for an empty part. */
  function FirstChar(p: string): (r: string)
    ensures |r| <= 1
    ensures p != "" ==> r == [p[0]]
  {
    if p == "" then "" else [p[0]]
  }

  /** `.map(n => n[0]).slice(0, 2).join("")` */
  function Heads(parts: seq<string>): (r: string)
    ensures |r| <= 2
  {
    if parts == [] then ""
    else if |parts| == 1 then FirstChar(parts[0])
    else FirstChar(parts[0]) + FirstChar(parts[1])
  }

  /** The avatar fallback: the initials of the first two space-separated parts of a non-empty name, else "U". */
  function Initials(name: Option<string>): (r: string)
    ensures !Present(name) ==> r == "U"
    ensures 1 <= |r| <= 2 || (Present(name) && r == "")
  {
    if Present(name) then Heads(Split(name.value, ' ')) else "U"
  }

  /** A name written as words joined by single spaces: the initials are the first letters of its first two words, and an empty word (a leading or doubled space) contributes nothing but still counts as one of the two. */
  lemma InitialsOfWords(words: seq<string>)
    requires |words| >= 1
    requires forall w :: w in words ==> ' ' !in w
    requires Join(words, ' ') != ""
    ensures Initials(Some(Join(words, ' '))) == Heads(words)
  {
    SplitJoin(words, ' ');
  }

  /** Two examples: "Ada Lovelace King" gives "AL", and " Ada" (leading space) gives "A". */
  lemma InitialsExamples()
    ensures Initials(Some("Ada Lovelace King")) == "AL"
    ensures Initials(Some(" Ada")) == "A"
  {
    assert Join(["Ada", "Lovelace", "King"], ' ') == "Ada Lovelace King";
    InitialsOfWords(["Ada", "Lovelace", "King"]);
    assert Join(["", "Ada"], ' ') == " Ada";
    InitialsOfWords(["", "Ada"]);
  }

  const LoadFallback := "Failed to load profile"

  /** `e?.message ?? "Failed to load profile"`: only a missing message falls back; an empty one is kept. */
  function LoadErrorText(message: Option<string>): (r: string)
    ensures message.Some? ==> r == message.value
    ensures message.None? ==> r == LoadFallback
  {
    message.GetOr(LoadFallback)
  }

  /** `profile?.name ?? (loading ? "Loading..." : "No name")` */
  function Title(profile: Option<Profile>, loading: bool): (r: string)
    ensures profile.Some? && profile.value.name.Some? ==> r == profile.value.name.value
    ensures (profile.None? || profile.value.name.None?) && loading ==> r == "Loading..."
    ensures (profile.None? || profile.value.name.None?) && !loading ==> r == "No name"
  {
    if profile.Some? && profile.value.name.Some? then profile.value.name.value
    else if loading then "Loading..." else "No name"
  }

  /** `profile?.<field> ?? '-'` */
  function FieldText(profile: Option<Profile>, field: Profile -> Option<string>): (r: string)
    ensures profile.Some? && field(profile.value).Some? ==> r == field(profile.value).value
    ensures profile.None? || field(profile.value).None? ==> r == "-"
  {
    if profile.Some? then field(profile.value).GetOr("-") else "-"
  }

  /** The account-details card. */
  datatype Panel = LoadingProfile | ErrorText(message: string) | Details(name: string, email: string, phone: string, status: string)

  /** Loading first, then a (truthy) error, then the four fields with their "-" fallbacks. */
  function AccountPanel(profile: Option<Profile>, loading: bool, error: Option<string>): (p: Panel)
    ensures p.LoadingProfile? <==> loading
    ensures p.ErrorText? <==> !loading && Present(error)
    ensures p.ErrorText? ==> p.message == error.value
    ensures p.Details? ==>
              p.name == FieldText(profile, (x: Profile) => x.name) &&
              p.email == FieldText(profile, (x: Profile) => x.email) &&
              p.phone == FieldText(profile, (x: Profile) => x.phone) &&
              p.status == FieldText(profile, (x: Profile) => x.roleName)
  {
    if loading then LoadingProfile
    else if Present(error) then ErrorText(error.value)
    else Details(
      FieldText(profile, (x: Profile) => x.name),
      FieldText(profile, (x: Profile) => x.email),
      FieldText(profile, (x: Profile) => x.phone),
      FieldText(profile, (x: Profile) => x.roleName))
  }

  class ProfilePageState {
    var profile: Option<Profile>
    var loading: bool
    var error: Option<string>
    /**
     * The `mounted` variable of each run of the effect, oldest first: every
     * run has its own, which only that run's cleanup clears. Under
     * `<StrictMode>` in development React runs the effect, its cleanup and
     * the effect again, so there can be more than one run.
     */
    var alive: seq<bool>

    constructor ()
      ensures profile == None && !loading && error == None && alive == []
    {
      profile, loading, error, alive := None, false, None, [];
    }

    /** One run of the effect up to its `await`: a new live run whose load has gone out, the page loading with no error. */
    method RunEffect() returns (run: nat)
      modifies this
      ensures run == |old(alive)| && alive == old(alive) + [true]
      ensures loading && error == None && profile == old(profile)
    {
      run := |alive|;
      alive := alive + [true];
      loading := true;
      error := None;
    }

    /** The cleanup of run `run`: its own flag goes false, and nothing else changes. */
    method Cleanup(run: nat)
      modifies this
      requires run < |alive|
      ensures alive == old(alive)[run := false]
      ensures profile == old(profile) && loading == old(loading) && error == old(error)
    {
      alive := alive[run := false];
    }

    /**
     * The rest of run `run`'s `load` once its `getProfile` settles against
     * `server`: while that run is live, the profile or the error is recorded
     * and loading ends; after its cleanup nothing is touched.
     */
    method Settle(run: nat, server: Request<()> -> Result<Profile, Thrown>)
      modifies this
      requires run < |alive|
      ensures alive == old(alive)
      ensures !alive[run] ==> profile == old(profile) && loading == old(loading) && error == old(error)
      ensures alive[run] ==> !loading
      ensures alive[run] && ProfileApi.GetProfile(server).Success? ==>
                profile == Some(ProfileApi.GetProfile(server).value) && error == old(error)
      ensures alive[run] && ProfileApi.GetProfile(server).Failure? ==>
                error == Some(LoadErrorText(Some(ProfileApi.GetProfile(server).error))) && profile == old(profile)
    {
      var mounted := alive[run];
      var r := ProfileApi.GetProfile(server);
      match r {
        case Success(data) =>
          if mounted { profile := Some(data); }
        case Failure(message) =>
          var thrown := LocalError(message);
          if mounted { error := Some(LoadErrorText(thrown.message)); }
      }
      if mounted { loading := false; }
    }
  }

  /** A page unmounted before the profile arrives keeps showing its loading state and never records the profile. */
  method LateReplyIsDropped(server: Request<()> -> Result<Profile, Thrown>) returns (profile: Option<Profile>, loading: bool)
    ensures profile == None && loading
  {
    var page := new ProfilePageState();
    var run := page.RunEffect();
    page.Cleanup(run);
    page.Settle(run, server);
    profile, loading := page.profile, page.loading;
  }

  /**
   * The development double run of `<StrictMode>`: effect, cleanup, effect.
   * Two loads go out; the first run's reply is dropped whenever it arrives,
   * and the page shows what the second run's reply brings.
   */
  method StrictModeLoadsTwice(first: Request<()> -> Result<Profile, Thrown>, second: Request<()> -> Result<Profile, Thrown>)
    returns (loads: nat, profile: Option<Profile>, loading: bool, error: Option<string>)
    ensures loads == 2 && !loading
    ensures ProfileApi.GetProfile(second).Success? ==> profile == Some(ProfileApi.GetProfile(second).value) && error == None
    ensures ProfileApi.GetProfile(second).Failure? ==>
              profile == None && error == Some(LoadErrorText(Some(ProfileApi.GetProfile(second).error)))
  {
    var page := new ProfilePageState();
    var run0 := page.RunEffect();
    page.Cleanup(run0);
    var run1 := page.RunEffect();
    page.Settle(run1, second);
    page.Settle(run0, first);
    loads, profile, loading, error := |page.alive|, page.profile, page.loading, page.error;
  }
}
