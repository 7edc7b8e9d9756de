/** The route guard of src/components/auth/RequireAuth.tsx: what it renders for
    `(isLoading, user)` and the navigation its effect issues. */
module RequireAuth {
  import opened Base

  /** What the guard renders: the spinner, or its children. */
  datatype View = Spinner | Children

  /** The three states of the guard. */
  datatype GuardState = Pending | Unauthenticated | Authenticated

  /** Loading wins over everything; once loading is over the user decides. */
  function Classify<U>(isLoading: bool, user: Option<U>): (g: GuardState)
    ensures g == Pending <==> isLoading
    ensures g == Unauthenticated <==> !isLoading && user.None?
    ensures g == Authenticated <==> !isLoading && user.Some?
  {
    if isLoading then Pending else if user.None? then Unauthenticated else Authenticated
  }

  /** The render: the spinner while loading, the spinner again when there is no user,
      the children otherwise. */
  function Render<U>(isLoading: bool, user: Option<U>): (v: View)
    ensures v == Children <==> Classify(isLoading, user) == Authenticated
    ensures isLoading ==> v == Spinner
  {
    if isLoading then Spinner
    else if user.None? then Spinner
    else Children
  }

  /** The effect body: a navigation to /login that remembers where the user was and
      replaces the history entry, issued exactly when loading is over and there is
      no user. */
  function Redirect<U>(isLoading: bool, user: Option<U>, pathname: string): (nav: Option<Navigation>)
    ensures nav.Some? <==> Classify(isLoading, user) == Unauthenticated
    ensures nav.Some? ==> nav.value == Navigation("/login", Some(pathname), true)
  {
    if !isLoading && user.None? then Some(Navigation("/login", Some(pathname), true)) else None
  }

  /** A `location` value; React Router makes a new one on every navigation. */
  datatype Location = Location(pathname: string, key: string)

  /** The effect's dependency list `[user, isLoading, navigate, location]`. */
  datatype Deps<U> = Deps(user: Option<U>, isLoading: bool, navigate: nat, location: Location)

  /** React runs the effect after the first render and after any render whose
      dependencies differ from the previous render's. React compares each dependency
      with `Object.is`, that is by reference for objects; here they are compared as
      values. The two agree on `isLoading`, on a null user and on a user object that is
      kept between renders, and `location` is a new object on every navigation, so the
      comparison differs only for a user rebuilt with equal contents, which this model
      treats as unchanged. */
  predicate EffectRuns<U(==)>(previous: Option<Deps<U>>, current: Deps<U>) {
    previous.None? || previous.value != current
  }

  /** The navigation a render issues, given the previous render's dependencies. */
  function RenderEffect<U(==)>(previous: Option<Deps<U>>, current: Deps<U>): (nav: Option<Navigation>)
    ensures nav.Some? ==> EffectRuns(previous, current)
    ensures nav.Some? <==> EffectRuns(previous, current) && Classify(current.isLoading, current.user) == Unauthenticated
  {
    if EffectRuns(previous, current) then Redirect(current.isLoading, current.user, current.location.pathname)
    else None
  }

  /** The number of navigations issued by a run of renders that follows a render
      with dependencies `previous`. */
  function Navigations<U(==)>(previous: Option<Deps<U>>, renders: seq<Deps<U>>): (n: nat)
    ensures n <= |renders|
    ensures (forall k :: 0 <= k < |renders| ==> !renders[k].isLoading && renders[k].user.Some?) ==> n == 0
    decreases |renders|
  {
    if renders == [] then 0
    else (if RenderEffect(previous, renders[0]).Some? then 1 else 0) + Navigations(Some(renders[0]), renders[1..])
  }

  /** Re-rendering with unchanged dependencies never navigates again: an unauthenticated
      episode whose dependencies stay the same issues at most one navigation, and none
      at all if the render before it already had those dependencies. */
  lemma {:induction false} OneRedirectPerEpisode<U>(previous: Option<Deps<U>>, d: Deps<U>, renders: seq<Deps<U>>)
    requires forall k :: 0 <= k < |renders| ==> renders[k] == d
    ensures Navigations(previous, renders) <= 1
    ensures previous == Some(d) ==> Navigations(previous, renders) == 0
    decreases |renders|
  {
    if renders != [] {
      OneRedirectPerEpisode(Some(d), d, renders[1..]);
    }
  }

  /** While loading, the guard neither shows its children nor navigates, whoever the user is. */
  lemma PendingShowsOnlySpinner<U>(user: Option<U>, pathname: string)
    ensures Render(true, user) == Spinner && Redirect(true, user, pathname).None?
  {
  }
}
