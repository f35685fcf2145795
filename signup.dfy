/** The sign-up page: the password strength rules, the submit checks and the
    enablement of the submit button, the field updates, and the profile row
    written once the identity service returns a user. */
module Signup {
  import opened Common

  /** `/[lo-hi]/.test(s)`: a left-to-right search for a character in a range. */
  function Matches(s: string, lo: char, hi: char): (b: bool)
    ensures b <==> exists i :: 0 <= i < |s| && lo <= s[i] <= hi
  {
    if s == [] then false
    else if lo <= s[0] <= hi then true
    else
      var rest := Matches(s[1..], lo, hi);
      assert forall i :: 1 <= i < |s| ==> s[i] == s[1..][i - 1];
      rest
  }

  datatype Strength = Strength(hasUpper: bool, hasLower: bool, hasNumber: bool, hasMinLength: bool)

  /** `passwordStrength` */
  function PasswordStrength(p: string): (r: Strength)
    ensures r.hasUpper <==> exists i :: 0 <= i < |p| && 'A' <= p[i] <= 'Z'
    ensures r.hasLower <==> exists i :: 0 <= i < |p| && 'a' <= p[i] <= 'z'
    ensures r.hasNumber <==> exists i :: 0 <= i < |p| && '0' <= p[i] <= '9'
    ensures r.hasMinLength <==> |p| >= 8
  {
    Strength(Matches(p, 'A', 'Z'), Matches(p, 'a', 'z'), Matches(p, '0', '9'), |p| >= 8)
  }

  /** `isStrongPassword`: every rule of `passwordStrength` holds. */
  predicate IsStrongPassword(p: string) {
    var s := PasswordStrength(p);
    s.hasUpper && s.hasLower && s.hasNumber && s.hasMinLength
  }

  /** A password is strong exactly when it has an upper-case letter, a
      lower-case letter and a digit, and at least eight characters. */
  lemma StrongPasswordMeaning(p: string)
    ensures IsStrongPassword(p) <==>
              (exists i :: 0 <= i < |p| && 'A' <= p[i] <= 'Z')
              && (exists i :: 0 <= i < |p| && 'a' <= p[i] <= 'z')
              && (exists i :: 0 <= i < |p| && '0' <= p[i] <= '9')
              && |p| >= 8
  {
  }

  datatype SignupForm = SignupForm(name: string, email: string, password: string, agree: bool)

  const EmptyForm := SignupForm("", "", "", false)

  datatype TextField = NameField | EmailField | PasswordField

  /** A change event: a text input reports its `value`; the terms checkbox,
      the page's one checkbox, reports `checked`. */
  datatype ChangeEvent = TextChange(field: TextField, value: string) | CheckboxChange(checked: bool)

  /** The form after `handleChange(e)`: the named field only. */
  function ApplyChange(f: SignupForm, e: ChangeEvent): (r: SignupForm)
    ensures e.CheckboxChange? ==> r == f.(agree := e.checked)
    ensures e.TextChange? && e.field == NameField ==> r == f.(name := e.value)
    ensures e.TextChange? && e.field == EmailField ==> r == f.(email := e.value)
    ensures e.TextChange? && e.field == PasswordField ==> r == f.(password := e.value)
  {
    match e
    case CheckboxChange(c) => f.(agree := c)
    case TextChange(field, v) =>
      match field
      case NameField => f.(name := v)
      case EmailField => f.(email := v)
      case PasswordField => f.(password := v)
  }

  const AgreeError := "You must agree to the Terms of Service."
  const WeakPasswordError := "Please choose a stronger password."

  /** The checks of `handleSubmit`, in order: the terms, then the password. */
  function GateError(f: SignupForm): (r: Option<string>)
    ensures !f.agree ==> r == Some(AgreeError)
    ensures f.agree && !IsStrongPassword(f.password) ==> r == Some(WeakPasswordError)
    ensures r.None? <==> f.agree && IsStrongPassword(f.password)
  {
    if !f.agree then Some(AgreeError)
    else if !IsStrongPassword(f.password) then Some(WeakPasswordError)
    else None
  }

  /** `disabled={!isStrongPassword || !formData.agree || loading}`, negated. */
  predicate SubmitEnabled(f: SignupForm, loading: bool) {
    IsStrongPassword(f.password) && f.agree && !loading
  }

  /** When nothing is loading, the button is enabled exactly when the submit
      checks pass; so a click on an enabled button always reaches sign-up. */
  lemma ButtonMatchesGate(f: SignupForm, loading: bool)
    ensures SubmitEnabled(f, loading) ==> GateError(f).None?
    ensures !loading && GateError(f).None? ==> SubmitEnabled(f, loading)
  {
  }

  /** The row `upsertProfile` writes. */
  datatype ProfileUpsert = ProfileUpsert(id: string, displayName: string, fullName: string)

  /** `upsertProfile(id, display_name)`: the full name is the form's name,
      else the display name. */
  function MakeProfile(formName: string, id: string, displayName: string): (r: ProfileUpsert)
    ensures r.id == id && r.displayName == displayName
    ensures formName != [] ==> r.fullName == formName
    ensures formName == [] ==> r.fullName == displayName
  {
    ProfileUpsert(id, displayName, Or(formName, displayName))
  }

  /** After an email sign-up the display name and the full name both are the
      form's name when one was typed; otherwise both are the email prefix. */
  lemma SignupNames(f: SignupForm, user: AuthUser)
    ensures f.name != [] ==>
              MakeProfile(f.name, user.id, NameOrEmailPrefix(f.name, user.email)).displayName == f.name
              && MakeProfile(f.name, user.id, NameOrEmailPrefix(f.name, user.email)).fullName == f.name
    ensures f.name == [] ==>
              MakeProfile(f.name, user.id, NameOrEmailPrefix(f.name, user.email)).fullName
              == NameOrEmailPrefix([], user.email)
  {
  }

  /** On mount a signed-in visitor is sent to the dashboard. */
  function MountRedirect(user: Option<AuthUser>): (r: Option<string>)
    ensures r.Some? <==> user.Some?
    ensures r.Some? ==> r.value == "/dashboard"
  {
    if user.Some? then Some("/dashboard") else None
  }

  /** The profile row the sign-in listener writes for a session user, when
      `upsertProfile` reads the form name `formName`: the display name is the
      metadata name, else the email prefix. */
  function ListenerProfile(formName: string, u: AuthUser): ProfileUpsert {
    MakeProfile(formName, u.id, NameOrEmailPrefix(u.metadataName.GetOr(""), u.email))
  }

  /** The `onAuthStateChange` listener as written. It is registered once, on
      mount, and so calls the first render's `upsertProfile`, whose form name
      is still "": the full name is always the display name. A session with a
      user also goes to the dashboard. */
  function OnAuthStateChange(session: Option<AuthUser>): (r: (Option<ProfileUpsert>, Option<string>))
    ensures session.None? ==> r == (None, None)
    ensures session.Some? ==>
              var u := session.value;
              && r.0.Some? && r.0.value.id == u.id
              && r.0.value.displayName == NameOrEmailPrefix(u.metadataName.GetOr(""), u.email)
              && r.0.value.fullName == r.0.value.displayName
              && r.1 == Some("/dashboard")
  {
    match session
    case None => (None, None)
    case Some(u) => (Some(ListenerProfile(EmptyForm.name, u)), Some("/dashboard"))
  }

  /** The listener as evidently meant: the name typed in the form, if any,
      is the full name, as it is after an email sign-up. */
  function OnAuthStateChangeCurrentForm(formName: string, session: Option<AuthUser>): (r: (Option<ProfileUpsert>, Option<string>))
    ensures session.None? ==> r == (None, None)
    ensures session.Some? ==>
              var u := session.value;
              && r.0.Some? && r.0.value.id == u.id
              && r.0.value.displayName == NameOrEmailPrefix(u.metadataName.GetOr(""), u.email)
              && r.0.value.fullName == Or(formName, r.0.value.displayName)
              && r.1 == Some("/dashboard")
  {
    match session
    case None => (None, None)
    case Some(u) => (Some(ListenerProfile(formName, u)), Some("/dashboard"))
  }

  /** The stale form name matters exactly when a name was typed that differs
      from the display name: then the listener as written drops it. For
      instance the name "Ann" and the email "ann@x.com" with no metadata name
      give the full name "ann" instead of "Ann". */
  lemma StaleListenerDropsFormName(formName: string, u: AuthUser)
    ensures OnAuthStateChange(Some(u)) == OnAuthStateChangeCurrentForm("", Some(u))
    ensures formName != [] && formName != NameOrEmailPrefix(u.metadataName.GetOr(""), u.email) ==>
              OnAuthStateChange(Some(u)).0.value.fullName != OnAuthStateChangeCurrentForm(formName, Some(u)).0.value.fullName
    ensures u.metadataName.None? && u.email == Some("ann@x.com") ==>
              OnAuthStateChange(Some(u)).0.value.fullName == "ann"
              && OnAuthStateChangeCurrentForm("Ann", Some(u)).0.value.fullName == "Ann"
  {
    if u.metadataName.None? && u.email == Some("ann@x.com") {
      assert "ann@x.com"[3] == '@';
      assert "ann@x.com"[..3] == "ann";
    }
  }

  datatype SignUpOutcome =
    | SignUpError(message: string)
    | SignUpThrew(message: string)
    | SignedUp(user: Option<AuthUser>)

  class SignupPage {
    var form: SignupForm
    var loading: bool
    var error: Option<string>
    var message: Option<string>

    constructor ()
      ensures form == EmptyForm && !loading && error == None && message == None
    {
      form, loading, error, message := EmptyForm, false, None, None;
    }

    /** `handleChange` */
    method HandleChange(e: ChangeEvent)
      modifies this`form, this`error, this`message
      ensures form == ApplyChange(old(form), e) && error == None && message == None
    {
      form := ApplyChange(form, e);
      error, message := None, None;
    }

    /** `handleSubmit`, with the identity service's answer as `outcome`.
        `called` says whether sign-up was asked at all; `profile` is the row
        upserted and `redirect` the route pushed, if any. */
    method HandleSubmit(outcome: SignUpOutcome)
      returns (called: bool, profile: Option<ProfileUpsert>, redirect: Option<string>)
      modifies this`loading, this`error, this`message
      ensures called <==> GateError(old(form)).None?
      ensures !called ==> error == GateError(old(form)) && message == None
                          && profile == None && redirect == None && loading == old(loading)
      ensures called ==> !loading
      ensures called && outcome.SignUpError? ==>
                error == Some(outcome.message) && message == None && profile == None && redirect == None
      ensures called && outcome.SignUpThrew? ==>
                error == Some(Or(outcome.message, "Signup failed. Try again.")) && message == None
                && profile == None && redirect == None
      ensures called && outcome.SignedUp? && outcome.user.Some? ==>
                var u := outcome.user.value;
                && profile == Some(MakeProfile(form.name, u.id, NameOrEmailPrefix(form.name, u.email)))
                && message == Some("Account created. Redirecting...") && redirect == Some("/dashboard")
                && error == None
      ensures called && outcome.SignedUp? && outcome.user.None? ==>
                profile == None && redirect == None && error == None
                && message == Some("Signup successful \U{2014} please check your email to confirm your account.")
    {
      error, message := None, None;
      profile, redirect := None, None;
      var gate := GateError(form);
      called := gate.None?;
      if !called {
        error := gate;
        return;
      }
      loading := true;
      match outcome {
        case SignUpError(m) =>
          error := Some(m);
        case SignUpThrew(m) =>
          error := Some(Or(m, "Signup failed. Try again."));
        case SignedUp(user) =>
          if user.Some? {
            var u := user.value;
            profile := Some(MakeProfile(form.name, u.id, NameOrEmailPrefix(form.name, u.email)));
            message := Some("Account created. Redirecting...");
            redirect := Some("/dashboard");
          } else {
            message := Some("Signup successful \U{2014} please check your email to confirm your account.");
          }
      }
      loading := false;
    }

    /** `handleGoogle`: the provider redirect is left to the browser; a
        failure to start shows its message or a fixed one. */
    method HandleGoogle(thrown: Option<string>)
      modifies this`error, this`message
      ensures message == None
      ensures thrown.None? ==> error == None
      ensures thrown.Some? ==> error == Some(Or(thrown.value, "Google sign-in failed."))
    {
      error, message := None, None;
      if thrown.Some? {
        error := Some(Or(thrown.value, "Google sign-in failed."));
      }
    }
  }
}
