/** Runs that cross files: the session store feeding the route guard and the layout,
    the sign-in form driving the store, and the log page's search reaching the API
    client's mock. Each method builds fresh page state and plays one possible
    interleaving of the steps; other orders of the callbacks are possible. */
module Scenarios {
  import opened Base
  import opened AuthContext
  import RequireAuth
  import Layout
  import LoginPage
  import LogsPage
  import Api

  /** A visitor without a stored session: once initialisation finished, the guard sends
      them to /login remembering the page, and the layout redirects as well. */
  method VisitorWithoutSession(pathname: string, fetched: ProfileQuery)
    returns (guard: Option<Navigation>, view: Layout.View)
    ensures guard == Some(Navigation("/login", Some(pathname), true))
    ensures view == Layout.Redirect(Layout.ToLogin)
  {
    var auth := new AuthProvider();
    auth.BeginInitialize();
    var before := RequireAuth.Redirect(auth.isLoading, auth.user, pathname);
    assert before.None?;
    auth.CompleteInitialize(None, fetched);
    guard := RequireAuth.Redirect(auth.isLoading, auth.user, pathname);
    view := Layout.Render(auth.isLoading, auth.user);
  }

  /** Signing in through the form, in the interleaving where `login` settles before the
      listener runs: the form navigates to the dashboard while the store has no user, so
      the layout still redirects; while the listener awaits the profile the session is
      stored but the user is not, and the layout still redirects; only when the profile
      query settled is the shell let through. */
  method SignInThroughForm(email: string, password: string, s: Session, u: AuthUser, fetched: ProfileQuery)
    returns (formNav: Option<Navigation>, viewBeforeListener: Layout.View,
             viewWhileProfileLoads: Layout.View, viewAfterListener: Layout.View)
    requires email != "" && password != ""
    requires s.user == Some(u)
    ensures formNav == Some(LoginPage.ToDashboard)
    ensures viewBeforeListener == Layout.Redirect(Layout.ToLogin)
    ensures viewWhileProfileLoads == Layout.Redirect(Layout.ToLogin)
    ensures viewAfterListener == Layout.Shell
  {
    var auth := new AuthProvider();
    auth.BeginInitialize();
    auth.CompleteInitialize(None, fetched);
    var form := new LoginPage.LoginForm();
    form.SetEmail(email);
    form.SetPassword(password);
    var call, toast := form.HandleSubmit();
    auth.BeginLogin();
    var outcome, authToast := auth.FinishLogin(Resolved(Some(s)));
    var t;
    formNav, t := form.Settle(outcome);
    viewBeforeListener := Layout.Render(auth.isLoading, auth.user);
    var pending := auth.BeginAuthStateChange(Some(s));
    viewWhileProfileLoads := Layout.Render(auth.isLoading, auth.user);
    auth.FinishAuthStateChange(pending.value, fetched);
    viewAfterListener := Layout.Render(auth.isLoading, auth.user);
  }

  /** A sign-in refused with an `error` result leaves the visitor on the form with the
      store's and the form's failure toasts and the store without a user. */
  method RejectedSignIn(email: string, password: string, message: string, fetched: ProfileQuery)
    returns (formNav: Option<Navigation>, authToast: Option<Toast>, toast: Toast, user: Option<User>)
    requires email != "" && password != ""
    ensures formNav.None? && toast == LoginPage.Rejected && user.None?
    ensures authToast == Some(Toast("Login failed", message, true))
  {
    var auth := new AuthProvider();
    auth.BeginInitialize();
    auth.CompleteInitialize(None, fetched);
    var form := new LoginPage.LoginForm();
    form.SetEmail(email);
    form.SetPassword(password);
    var call, t0 := form.HandleSubmit();
    auth.BeginLogin();
    var outcome;
    outcome, authToast := auth.FinishLogin(Errored(message));
    formNav, toast := form.Settle(outcome);
    user := auth.user;
  }

  /** Signing out, in the interleaving where `logout` settles before the listener runs:
      `logout` itself keeps the user; the shell gives way to the redirect only when the
      listener reports the signed-out state. */
  method SignOut(s: Session, u: AuthUser, fetched: ProfileQuery)
    returns (viewAfterLogout: Layout.View, viewAfterListener: Layout.View)
    requires s.user == Some(u)
    ensures viewAfterLogout == Layout.Shell
    ensures viewAfterListener == Layout.Redirect(Layout.ToLogin)
  {
    var auth := new AuthProvider();
    auth.BeginInitialize();
    auth.CompleteInitialize(Some(s), fetched);
    var r, signedOut := auth.Logout(Resolved(()));
    viewAfterLogout := Layout.Render(auth.isLoading, auth.user);
    auth.OnAuthStateChange(None, fetched);
    viewAfterListener := Layout.Render(auth.isLoading, auth.user);
  }

  /** The log page's search hands its parameters to `getLogs`, whose request is answered
      with the mock log records. Percent-encoding is not modelled, so the values are
      taken without '/', as encoded values are. */
  method LogSearchReachesLogsMock(now: int, toIso: int -> string, product: string)
    returns (response: Api.ApiResponse)
    requires '/' !in toIso(now - LogsPage.WeekMs) && '/' !in toIso(now)
    requires '/' !in product
    ensures response.data == Some(Api.LogsData(Api.MockLogRecords))
  {
    var page := new LogsPage.LogsView(now);
    page.SetFilters(None, product, "");
    var params, toast := page.HandleSearch(toIso);
    var p := params.value;
    var ps, url;
    ps, url, response := Api.GetLogs(p.startDate, p.endDate, p.itemId, p.userId, p.actionType);
    Api.QueryStringSlashFree(ps);
    Api.LogsRequestDispatch(Api.QueryString(ps));
  }
}
