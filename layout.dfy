/** The protected layout of src/components/layout/Layout.tsx. */
module Layout {
  import opened Base
  import RequireAuth

  /** What the layout returns: the loading screen, a `<Navigate>` element, or the
      application shell (Sidebar, TopBar and the routed Outlet). */
  datatype View = LoadingScreen | Redirect(nav: Navigation) | Shell

  /** `<Navigate to="/login" replace />`: no `from` state. */
  const ToLogin := Navigation("/login", None, true)

  function Render<U>(isLoading: bool, user: Option<U>): (v: View)
    ensures isLoading ==> v == LoadingScreen
    ensures !isLoading && user.None? ==> v == Redirect(ToLogin)
    ensures v == Shell <==> !isLoading && user.Some?
  {
    if isLoading then LoadingScreen
    else if user.None? then Redirect(ToLogin)
    else Shell
  }

  /** The layout and RequireAuth show protected content in exactly the same states,
      and the layout redirects exactly when RequireAuth's effect would. */
  lemma AgreesWithRequireAuth<U>(isLoading: bool, user: Option<U>, pathname: string)
    ensures Render(isLoading, user) == Shell <==> RequireAuth.Render(isLoading, user) == RequireAuth.Children
    ensures Render(isLoading, user).Redirect? <==> RequireAuth.Redirect(isLoading, user, pathname).Some?
  {
  }
}
