/** The sign-in form of src/pages/Login.tsx. `handleSubmit` is split at its `await`:
    `HandleSubmit` runs the guard and starts the call, `Settle` runs once the awaited
    `login` resolved or threw. */
module LoginPage {
  import opened Base

  const MissingFields := Toast("Error", "Please enter both email and password.", true)
  const Welcome := Toast("Login successful", "Welcome to Orbit Cargo Nexus.", false)
  const Rejected := Toast("Login failed", "Invalid email or password.", true)
  const ToDashboard := Navigation("/dashboard", None, false)

  /** The guard: the error toast when a field is empty, nothing otherwise. */
  function Validate(email: string, password: string): (t: Option<Toast>)
    ensures t.None? <==> email != "" && password != ""
    ensures t.Some? ==> t.value == MissingFields
  {
    if email == "" || password == "" then Some(MissingFields) else None
  }

  /** The navigation and toast after the awaited `login`. */
  function AfterCall(login: Outcome<string>): (r: (Option<Navigation>, Toast))
    ensures r.0.Some? <==> login.Pass?
    ensures login.Pass? ==> r == (Some(ToDashboard), Welcome)
    ensures login.Fail? ==> r.1 == Rejected && r.1.destructive
  {
    if login.Pass? then (Some(ToDashboard), Welcome) else (None, Rejected)
  }

  class LoginForm {
    var email: string
    var password: string
    var isSubmitting: bool

    constructor ()
      ensures email == "" && password == "" && !isSubmitting
    {
      email, password, isSubmitting := "", "", false;
    }

    method SetEmail(v: string)
      modifies this
      ensures email == v && password == old(password) && isSubmitting == old(isSubmitting)
    {
      email := v;
    }

    method SetPassword(v: string)
      modifies this
      ensures password == v && email == old(email) && isSubmitting == old(isSubmitting)
    {
      password := v;
    }

    /** The submit button's `disabled`. */
    predicate SubmitDisabled()
      reads this
    {
      isSubmitting
    }

    /** `handleSubmit` up to `await login(...)`: with an empty field only the toast,
        otherwise `isSubmitting` is set and `login` is called with the two fields. */
    method HandleSubmit() returns (call: Option<(string, string)>, toast: Option<Toast>)
      modifies this
      ensures email == old(email) && password == old(password)
      ensures toast == Validate(email, password)
      ensures call.Some? <==> toast.None?
      ensures call.None? ==> isSubmitting == old(isSubmitting)
      ensures call.Some? ==> SubmitDisabled()
      ensures call.Some? ==> call.value == (email, password) && isSubmitting
    {
      toast := Validate(email, password);
      if toast.Some? {
        call := None;
        return;
      }
      isSubmitting := true;
      call := Some((email, password));
    }

    /** The rest of `handleSubmit`: navigate on success, toast on failure, and the
        `finally` that clears `isSubmitting` either way. */
    method Settle(login: Outcome<string>) returns (nav: Option<Navigation>, toast: Toast)
      modifies this
      ensures !isSubmitting
      ensures !SubmitDisabled()
      ensures email == old(email) && password == old(password)
      ensures (nav, toast) == AfterCall(login)
    {
      if login.Pass? {
        toast := Welcome;
        nav := Some(ToDashboard);
      } else {
        toast := Rejected;
        nav := None;
      }
      isSubmitting := false;
    }
  }
}
