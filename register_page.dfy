/** The sign-up form of src/pages/Register.tsx, split at its `await` like the
    sign-in form. */
module RegisterPage {
  import opened Base

  const MissingFields := Toast("Error", "Please fill all required fields.", true)
  const Mismatch := Toast("Error", "Passwords do not match.", true)
  const Welcome := Toast("Registration successful", "Welcome to Orbit Cargo Nexus.", false)
  const Rejected := Toast("Registration failed", "There was a problem creating your account.", true)
  const ToDashboard := Navigation("/dashboard", None, false)

  /** The two guards in their order: emptiness first, then the password match. */
  function Validate(name: string, email: string, password: string, confirm: string): (t: Option<Toast>)
    ensures t.None? <==> name != "" && email != "" && password != "" && password == confirm
    ensures (name == "" || email == "" || password == "") ==> t == Some(MissingFields)
    ensures name != "" && email != "" && password != "" && password != confirm ==> t == Some(Mismatch)
  {
    if name == "" || email == "" || password == "" then Some(MissingFields)
    else if password != confirm then Some(Mismatch)
    else None
  }

  /** The emptiness guard wins over a mismatch: an empty field with mismatching
      passwords still reports the missing field. */
  lemma EmptinessCheckedFirst(name: string, password: string, confirm: string)
    requires password != confirm
    ensures Validate(name, "", password, confirm) == Some(MissingFields)
    ensures Validate("", name, password, confirm) == Some(MissingFields)
  {
  }

  function AfterCall(register: Outcome<string>): (r: (Option<Navigation>, Toast))
    ensures r.0.Some? <==> register.Pass?
    ensures register.Pass? ==> r == (Some(ToDashboard), Welcome)
    ensures register.Fail? ==> r.1 == Rejected
  {
    if register.Pass? then (Some(ToDashboard), Welcome) else (None, Rejected)
  }

  class RegisterForm {
    var name: string
    var email: string
    var password: string
    var confirmPassword: string
    var isSubmitting: bool

    constructor ()
      ensures name == "" && email == "" && password == "" && confirmPassword == "" && !isSubmitting
    {
      name, email, password, confirmPassword, isSubmitting := "", "", "", "", false;
    }

    /** The four `onChange` handlers in one: the fields the user has typed. */
    method SetFields(n: string, e: string, p: string, c: string)
      modifies this
      ensures name == n && email == e && password == p && confirmPassword == c
      ensures isSubmitting == old(isSubmitting)
    {
      name, email, password, confirmPassword := n, e, p, c;
    }

    predicate SubmitDisabled()
      reads this
    {
      isSubmitting
    }

    /** `handleSubmit` up to `await register(name, email, password)`. */
    method HandleSubmit() returns (call: Option<(string, string, string)>, toast: Option<Toast>)
      modifies this
      ensures name == old(name) && email == old(email)
      ensures password == old(password) && confirmPassword == old(confirmPassword)
      ensures toast == Validate(name, email, password, confirmPassword)
      ensures call.Some? <==> toast.None?
      ensures call.None? ==> isSubmitting == old(isSubmitting)
      ensures call.Some? ==> SubmitDisabled()
      ensures call.Some? ==> call.value == (name, email, password) && isSubmitting
    {
      toast := Validate(name, email, password, confirmPassword);
      if toast.Some? {
        call := None;
        return;
      }
      isSubmitting := true;
      call := Some((name, email, password));
    }

    /** The rest of `handleSubmit`, with its `finally`. */
    method Settle(register: Outcome<string>) returns (nav: Option<Navigation>, toast: Toast)
      modifies this
      ensures !isSubmitting
      ensures !SubmitDisabled()
      ensures name == old(name) && email == old(email)
      ensures password == old(password) && confirmPassword == old(confirmPassword)
      ensures (nav, toast) == AfterCall(register)
    {
      if register.Pass? {
        toast := Welcome;
        nav := Some(ToDashboard);
      } else {
        toast := Rejected;
        nav := None;
      }
      isSubmitting := false;
    }
  }
}
