/**
 * The session store (src/contexts/AuthContext.jsx): the `user`, `profile` and
 * `loading` cells of `AuthProvider` and the handlers that move them. Every call
 * into the backend's auth and `profiles` APIs is an `Outcome` parameter; whether
 * a backend is configured at all (`supabase` being null or not) is `configured`.
 */
module AuthContext {
  import opened Wrappers

  /** The message `signIn` and `signUp` throw when no backend is configured. */
  const NOT_CONFIGURED: string := "Supabase not configured"

  /** The tier that grants the admin pages and controls. */
  const ADMIN_TIER: string := "admin"

  /** The authenticated identity of a session (`session.user`). */
  datatype User = User(id: string, email: Option<string>)

  /** A row of the `profiles` collection. */
  datatype Profile = Profile(id: string, email: Option<string>, tier: string, createdAt: string)

  /**
   * `profile?.tier === 'admin'`, the one authorization test of the client:
   * a missing profile is never admin.
   */
  predicate IsAdmin(profile: Option<Profile>)
    ensures profile.None? ==> !IsAdmin(profile)
    ensures profile.Some? ==> (IsAdmin(profile) <==> profile.value.tier == ADMIN_TIER)
  {
    profile.Some? && profile.value.tier == ADMIN_TIER
  }

  /** What `fetchProfile` leaves in `profile`: the fetched row when there is one, else the previous value. */
  function ProfileAfterFetch(previous: Option<Profile>, fetched: Outcome<Option<Profile>>): (p: Option<Profile>)
    ensures fetched.Ok? && fetched.data.Some? ==> p == fetched.data
    ensures fetched.Err? || fetched.data.None? ==> p == previous
  {
    if fetched.Ok? && fetched.data.Some? then fetched.data else previous
  }

  /**
   * What `signIn` and `signUp` give their caller: without a backend they throw
   * `NOT_CONFIGURED` before any call; with one, the backend's answer.
   */
  function SignInAnswer(configured: bool, response: Outcome<()>): (r: Outcome<()>)
    ensures !configured ==> r == Err(NOT_CONFIGURED)
    ensures configured ==> r == response
  {
    if configured then response else Err(NOT_CONFIGURED)
  }

  /** A profile once loaded is never lost by a failed or empty fetch, so an admin stays an admin. */
  lemma FetchKeepsKnownProfile(previous: Option<Profile>, fetched: Outcome<Option<Profile>>)
    ensures previous.Some? ==> ProfileAfterFetch(previous, fetched).Some?
    ensures IsAdmin(previous) && (fetched.Err? || fetched.data.None?) ==> IsAdmin(ProfileAfterFetch(previous, fetched))
  {
  }

  class AuthProvider {
    /** Whether a backend client exists (`supabase` is not null). */
    const configured: bool
    var user: Option<User>
    var profile: Option<Profile>
    var loading: bool

    /** The three `useState` cells: no user, no profile, loading. */
    constructor (configured: bool)
      ensures this.configured == configured
      ensures user == None && profile == None && loading
      ensures !RendersChildren()
    {
      this.configured := configured;
      user, profile, loading := None, None, true;
    }

    /**
     * The mount effect. Without a backend it ends loading and leaves user and profile
     * null; with one it only starts the session check and the subscription, whose
     * results arrive as `OnInitialSession` and `OnAuthStateChange`.
     */
    method Mount()
      modifies this
      ensures user == old(user) && profile == old(profile)
      ensures !configured ==> !loading
      ensures configured ==> loading == old(loading)
    {
      if !configured {
        loading := false;
      }
    }

    /**
     * `fetchProfile(userId)`: keep the fetched row if there is one; loading ends
     * whatever the outcome. The query selects the one row whose id is `userId`.
     */
    method FetchProfile(userId: string, fetched: Outcome<Option<Profile>>)
      requires fetched.Ok? && fetched.data.Some? ==> fetched.data.value.id == userId
      modifies this
      ensures profile == ProfileAfterFetch(old(profile), fetched)
      ensures fetched.Ok? && fetched.data.Some? ==> profile.Some? && profile.value.id == userId
      ensures user == old(user) && !loading
    {
      if fetched.Ok? && fetched.data.Some? {
        profile := fetched.data;
      }
      loading := false;
    }

    /**
     * The `getSession()` callback: record the session's user; fetch its profile
     * if there is one, otherwise just end loading (the profile is not cleared here).
     */
    method OnInitialSession(sessionUser: Option<User>, fetched: Outcome<Option<Profile>>)
      requires sessionUser.Some? && fetched.Ok? && fetched.data.Some? ==> fetched.data.value.id == sessionUser.value.id
      modifies this
      ensures user == sessionUser && !loading
      ensures sessionUser.Some? ==> profile == ProfileAfterFetch(old(profile), fetched)
      ensures sessionUser.Some? && fetched.Ok? && fetched.data.Some? ==> profile.Some? && profile.value.id == user.value.id
      ensures sessionUser.None? ==> profile == old(profile)
    {
      user := sessionUser;
      if sessionUser.Some? {
        FetchProfile(sessionUser.value.id, fetched);
      } else {
        loading := false;
      }
    }

    /**
     * The `onAuthStateChange` callback: record the session's user; fetch its profile
     * if there is one, otherwise clear the profile and end loading.
     */
    method OnAuthStateChange(sessionUser: Option<User>, fetched: Outcome<Option<Profile>>)
      requires sessionUser.Some? && fetched.Ok? && fetched.data.Some? ==> fetched.data.value.id == sessionUser.value.id
      modifies this
      ensures user == sessionUser && !loading
      ensures sessionUser.Some? ==> profile == ProfileAfterFetch(old(profile), fetched)
      ensures sessionUser.Some? && fetched.Ok? && fetched.data.Some? ==> profile.Some? && profile.value.id == user.value.id
      ensures sessionUser.None? ==> profile == None
    {
      user := sessionUser;
      if sessionUser.Some? {
        FetchProfile(sessionUser.value.id, fetched);
      } else {
        profile := None;
        loading := false;
      }
    }

    /** `signUp(email, password)`: what the caller receives; the state is not touched. */
    method SignUp(email: string, password: string, response: Outcome<()>) returns (r: Outcome<()>)
      ensures r == SignInAnswer(configured, response)
    {
      if !configured {
        return Err(NOT_CONFIGURED);
      }
      r := response;
    }

    /** `signIn(email, password)`: what the caller receives; the state is not touched. */
    method SignIn(email: string, password: string, response: Outcome<()>) returns (r: Outcome<()>)
      ensures r == SignInAnswer(configured, response)
    {
      if !configured {
        return Err(NOT_CONFIGURED);
      }
      r := response;
    }

    /**
     * `signOut()`: calls the backend when there is one, and is a no-op otherwise;
     * it clears nothing itself (the auth-change event that follows does).
     * Returns whether the backend was called.
     */
    method SignOut() returns (called: bool)
      ensures called == configured
    {
      called := configured;
    }

    /** `{!loading && children}`: the application is rendered only once loading has ended. */
    predicate RendersChildren()
      reads this
      ensures RendersChildren() <==> !loading
    {
      !loading
    }
  }
}
