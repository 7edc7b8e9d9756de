/** The session store of src/contexts/AuthContext.tsx: the provider's three state
    fields and the operations that change them. Every Supabase call is a parameter
    holding its outcome; the `await`s of initialisation, the auth listener, `login` and
    `register` split each into two steps, so that the states in between are states of
    the model. `refreshProfile` changes nothing before its `await` and is one step. */
module AuthContext {
  import opened Base

  /** A row of the `profiles` table. */
  datatype Profile = Profile(
    id: string,
    name: string,
    email: string,
    role: string,
    bio: Option<string>,
    avatar_url: Option<string>,
    preferred_module: Option<string>)

  /** The identity the provider attaches to a session (Supabase's own `User`). */
  datatype AuthUser = AuthUser(id: string, email: string, metadata: map<string, string>)

  /** A Supabase session; `user` is read through optional chaining (`session?.user`). */
  datatype Session = Session(accessToken: string, user: Option<AuthUser>)

  /** The application's `User`: the provider's user spread, plus profile attributes. */
  datatype User = User(
    base: AuthUser,
    name: Option<string>,
    role: Option<string>,
    bio: Option<string>,
    avatarUrl: Option<string>,
    profile: Option<Profile>)

  /** What the awaited `profiles` query did: a row, an `error` result, or an exception. */
  datatype ProfileQuery = Found(row: Profile) | QueryError(message: string) | Threw

  /** How an awaited Supabase auth call settled: it resolved with a value, it resolved
      with an `error` in its result, or the promise itself rejected. */
  datatype Answer<+T> = Resolved(value: T) | Errored(message: string) | Rejected(reason: string)

  /** `useAuth`'s error message. */
  const OutsideProvider := "useAuth must be used within an AuthProvider"

  /** `fetchUserProfile`: the row, or null on a query error or an exception; never throws. */
  function FetchUserProfile(q: ProfileQuery): (p: Option<Profile>)
    ensures p.Some? <==> q.Found?
    ensures q.Found? ==> p.value == q.row
  {
    match q
    case Found(row) => Some(row)
    case QueryError(_) => None
    case Threw => None
  }

  /** `useAuth`: the context value, or an error when there is no enclosing provider. */
  function UseAuth<C>(context: Option<C>): (r: Result<C, string>)
    ensures r.Ok? <==> context.Some?
    ensures r.Ok? ==> r.value == context.value
    ensures r.Err? ==> r.error == OutsideProvider
  {
    if context.None? then Err(OutsideProvider) else Ok(context.value)
  }

  /** The record built by the listener and by initialisation: the session's user with
      the attributes of the (possibly missing) profile. */
  function WithProfile(u: AuthUser, p: Option<Profile>): (r: User)
    ensures r.base == u
    ensures r.profile == p
    ensures p.None? ==> r.name.None? && r.role.None? && r.bio.None? && r.avatarUrl.None?
    ensures p.Some? ==> r.name == Some(p.value.name) && r.role == Some(p.value.role)
    ensures p.Some? ==> r.bio == p.value.bio && r.avatarUrl == p.value.avatar_url
  {
    if p.None? then User(u, None, None, None, None, None)
    else User(u, Some(p.value.name), Some(p.value.role), p.value.bio, p.value.avatar_url, p)
  }

  /** The user value the listener stores for a new session. */
  function SessionUser(current: Option<Session>, fetched: ProfileQuery): (r: Option<User>)
    ensures r.Some? <==> current.Some? && current.value.user.Some?
    ensures r.Some? ==> r.value == WithProfile(current.value.user.value, FetchUserProfile(fetched))
  {
    if current.Some? && current.value.user.Some? then
      Some(WithProfile(current.value.user.value, FetchUserProfile(fetched)))
    else None
  }

  /** The user value after `refreshProfile`'s `setUser({...user, ...})`. */
  function Refreshed(u: Option<User>, p: Option<Profile>): (r: Option<User>)
    ensures u.None? || p.None? ==> r == u
    ensures u.Some? && p.Some? ==> r.Some? && r.value.base == u.value.base
    ensures u.Some? && p.Some? ==> r.value.profile == p
    ensures u.Some? && p.Some? ==> r.value.name == Some(p.value.name) && r.value.role == Some(p.value.role)
    ensures u.Some? && p.Some? ==> r.value.bio == p.value.bio && r.value.avatarUrl == p.value.avatar_url
  {
    if u.None? || p.None? then u
    else Some(u.value.(name := Some(p.value.name), role := Some(p.value.role), bio := p.value.bio,
                       avatarUrl := p.value.avatar_url, profile := p))
  }

  /** Refreshing with the profile a user was signed in with changes nothing, and
      refreshing any signed-in record gives the record a fresh sign-in would build. */
  lemma RefreshAgreesWithSignIn(u: AuthUser, before: Option<Profile>, p: Profile)
    ensures Refreshed(Some(WithProfile(u, before)), Some(p)) == Some(WithProfile(u, Some(p)))
    ensures Refreshed(Some(WithProfile(u, Some(p))), Some(p)) == Some(WithProfile(u, Some(p)))
  {
  }

  /** Refreshing twice with the same profile is the same as refreshing once. */
  lemma RefreshIdempotent(u: Option<User>, p: Option<Profile>)
    ensures Refreshed(Refreshed(u, p), p) == Refreshed(u, p)
  {
  }

  /** The state of an `AuthProvider`. */
  class AuthProvider {
    var user: Option<User>
    var session: Option<Session>
    var isLoading: bool

    /** The `useState` initial values. */
    constructor ()
      ensures user == None && session == None && isLoading
    {
      user := None;
      session := None;
      isLoading := true;
    }

    /** `initializeAuth` up to its first `await`: `setIsLoading(true)` and the listener
        subscription (the subscription itself is not state of the model). */
    method BeginInitialize()
      modifies this
      ensures isLoading
      ensures user == old(user) && session == old(session)
    {
      isLoading := true;
    }

    /** `initializeAuth` once `getSession` resolved: `setSession`; without a session user
        loading ends here, otherwise the profile query is awaited and the session's user is
        returned as pending, with `isLoading` still as it was. */
    method StoreExistingSession(existing: Option<Session>) returns (pending: Option<AuthUser>)
      modifies this
      ensures session == existing && user == old(user)
      ensures pending.Some? <==> existing.Some? && existing.value.user.Some?
      ensures pending.Some? ==> pending.value == existing.value.user.value && isLoading == old(isLoading)
      ensures pending.None? ==> !isLoading
    {
      session := existing;
      if existing.Some? && existing.value.user.Some? {
        return Some(existing.value.user.value);
      }
      isLoading := false;
      pending := None;
    }

    /** `initializeAuth` once the profile query for the session's user `u` settled:
        the user is built from it and loading ends. */
    method StoreInitialProfile(u: AuthUser, fetched: ProfileQuery)
      modifies this
      ensures user == Some(WithProfile(u, FetchUserProfile(fetched)))
      ensures session == old(session) && !isLoading
    {
      var profile := FetchUserProfile(fetched);
      user := Some(WithProfile(u, profile));
      isLoading := false;
    }

    /** The rest of `initializeAuth` when no other callback runs during its profile
        query: the session is stored, the user only when the session has one, and
        loading ends. */
    method CompleteInitialize(existing: Option<Session>, fetched: ProfileQuery)
      modifies this
      ensures session == existing
      ensures !isLoading
      ensures existing.Some? && existing.value.user.Some? ==>
                user == Some(WithProfile(existing.value.user.value, FetchUserProfile(fetched)))
      ensures !(existing.Some? && existing.value.user.Some?) ==> user == old(user)
    {
      var pending := StoreExistingSession(existing);
      if pending.Some? {
        StoreInitialProfile(pending.value, fetched);
      }
    }

    /** The `onAuthStateChange` callback up to its `await fetchUserProfile`: the session is
        stored; without a session user the user is cleared and loading ends, otherwise the
        session's user is pending and user and loading are as they were. */
    method BeginAuthStateChange(current: Option<Session>) returns (pending: Option<AuthUser>)
      modifies this
      ensures session == current
      ensures pending.Some? <==> current.Some? && current.value.user.Some?
      ensures pending.Some? ==>
        (pending.value == current.value.user.value && user == old(user) && isLoading == old(isLoading))
      ensures pending.None? ==> user.None? && !isLoading
    {
      session := current;
      if current.Some? && current.value.user.Some? {
        return Some(current.value.user.value);
      }
      user := None;
      isLoading := false;
      pending := None;
    }

    /** The rest of the callback, once the profile query for `u` settled. */
    method FinishAuthStateChange(u: AuthUser, fetched: ProfileQuery)
      modifies this
      ensures user == Some(WithProfile(u, FetchUserProfile(fetched)))
      ensures session == old(session) && !isLoading
    {
      var profile := FetchUserProfile(fetched);
      user := Some(WithProfile(u, profile));
      isLoading := false;
    }

    /** One run of the callback with nothing else running during its profile query:
        store the session, rebuild or clear the user, end loading. */
    method OnAuthStateChange(current: Option<Session>, fetched: ProfileQuery)
      modifies this
      ensures session == current
      ensures user == SessionUser(current, fetched)
      ensures !isLoading
    {
      var pending := BeginAuthStateChange(current);
      if pending.Some? {
        FinishAuthStateChange(pending.value, fetched);
      }
    }

    /** `login` up to its `await`. */
    method BeginLogin()
      modifies this
      ensures isLoading
      ensures user == old(user) && session == old(session)
    {
      isLoading := true;
    }

    /** `login` after `signInWithPassword` settled: the returned session is discarded; an
        `error` result is toasted with its message and thrown; a rejected call is only
        logged and rethrown, with no toast; `finally` ends loading in every case. */
    method FinishLogin(signIn: Answer<Option<Session>>) returns (r: Outcome<string>, toast: Option<Toast>)
      modifies this
      ensures !isLoading
      ensures user == old(user) && session == old(session)
      ensures r.Pass? <==> signIn.Resolved?
      ensures signIn.Resolved? ==> toast == Some(Toast("Login successful", "Welcome back!", false))
      ensures signIn.Errored? ==>
        r == Fail(signIn.message) && toast == Some(Toast("Login failed", signIn.message, true))
      ensures signIn.Rejected? ==> r == Fail(signIn.reason) && toast.None?
    {
      match signIn {
      case Resolved(_) =>
        toast := Some(Toast("Login successful", "Welcome back!", false));
        r := Pass;
      case Errored(message) =>
        toast := Some(Toast("Login failed", message, true));
        r := Fail(message);
      case Rejected(reason) =>
        toast := None;
        r := Fail(reason);
      }
      isLoading := false;
    }

    /** `register` up to its `await`. */
    method BeginRegister()
      modifies this
      ensures isLoading
      ensures user == old(user) && session == old(session)
    {
      isLoading := true;
    }

    /** `register` after `signUp` settled: as for login, with its own toasts. The name
        travels to `signUp` as user metadata and is not stored here. */
    method FinishRegister(signUp: Answer<Option<Session>>) returns (r: Outcome<string>, toast: Option<Toast>)
      modifies this
      ensures !isLoading
      ensures user == old(user) && session == old(session)
      ensures r.Pass? <==> signUp.Resolved?
      ensures signUp.Resolved? ==>
        toast == Some(Toast("Registration successful", "Your account has been created!", false))
      ensures signUp.Errored? ==>
        r == Fail(signUp.message) && toast == Some(Toast("Registration failed", signUp.message, true))
      ensures signUp.Rejected? ==> r == Fail(signUp.reason) && toast.None?
    {
      match signUp {
      case Resolved(_) =>
        toast := Some(Toast("Registration successful", "Your account has been created!", false));
        r := Pass;
      case Errored(message) =>
        toast := Some(Toast("Registration failed", message, true));
        r := Fail(message);
      case Rejected(reason) =>
        toast := None;
        r := Fail(reason);
      }
      isLoading := false;
    }

    /** `logout`: an `error` result is toasted and thrown, a rejected call only rethrown,
        success toasted; none of the three fields is touched (clearing the user is left
        to the listener's signed-out call). */
    method Logout(signOut: Answer<()>) returns (r: Outcome<string>, toast: Option<Toast>)
      ensures r.Pass? <==> signOut.Resolved?
      ensures signOut.Resolved? ==> toast == Some(Toast("Signed out", "You have been successfully logged out.", false))
      ensures signOut.Errored? ==>
        r == Fail(signOut.message) && toast == Some(Toast("Sign out failed", signOut.message, true))
      ensures signOut.Rejected? ==> r == Fail(signOut.reason) && toast.None?
    {
      match signOut
      case Resolved(_) =>
        toast := Some(Toast("Signed out", "You have been successfully logged out.", false));
        r := Pass;
      case Errored(message) =>
        toast := Some(Toast("Sign out failed", message, true));
        r := Fail(message);
      case Rejected(reason) =>
        toast := None;
        r := Fail(reason);
    }

    /** `refreshProfile`: nothing without a user or without a profile row; otherwise
        the five profile attributes are overwritten. */
    method RefreshProfile(fetched: ProfileQuery)
      modifies this
      ensures user == Refreshed(old(user), FetchUserProfile(fetched))
      ensures session == old(session) && isLoading == old(isLoading)
    {
      if user.None? {
        return;
      }
      var profile := FetchUserProfile(fetched);
      if profile.Some? {
        var p := profile.value;
        user := Some(user.value.(name := Some(p.name), role := Some(p.role), bio := p.bio,
                                 avatarUrl := p.avatar_url, profile := profile));
      }
    }
  }
}
