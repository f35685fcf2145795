/** The login page: the `next` route and its default, the precedence of the
    redirect targets, the pending route kept in browser storage across the
    provider redirect, and the profile row written after a sign-in. */
module Login {
  import opened Common

  /** The browser storage key that carries the route across the provider redirect. */
  const NextKey := "supabase_next"
  const Dashboard := "/dashboard"

  /** `searchParams.get("next") ?? "/dashboard"`: an empty `next` is kept. */
  function NextParam(query: Option<string>): (r: string)
    ensures query.None? ==> r == Dashboard
    ensures query.Some? ==> r == query.value
  {
    query.GetOr(Dashboard)
  }

  /** The route after a password login, or on mount when already signed in. */
  function AfterLogin(nextParam: string): (r: string)
    ensures r != []
    ensures nextParam != [] ==> r == nextParam
    ensures nextParam == [] ==> r == Dashboard
  {
    Or(nextParam, Dashboard)
  }

  /** A login page opened without a `next` lands on the dashboard. */
  lemma NoQueryLandsOnDashboard()
    ensures AfterLogin(NextParam(None)) == Dashboard
  {
  }

  /** The route after a provider sign-in: the pending route if non-empty,
      else `nextParam` if non-empty, else the dashboard. */
  function OAuthTarget(pending: Option<string>, nextParam: string): (r: string)
    ensures r != []
    ensures pending.Some? && pending.value != [] ==> r == pending.value
    ensures (pending.None? || pending.value == []) && nextParam != [] ==> r == nextParam
    ensures (pending.None? || pending.value == []) && nextParam == [] ==> r == Dashboard
  {
    Or(Or(pending.GetOr(""), nextParam), Dashboard)
  }

  /** `localStorage.getItem("supabase_next")` */
  function Pending(storage: map<string, string>): (r: Option<string>)
    ensures r.Some? <==> NextKey in storage
    ensures r.Some? ==> r.value == storage[NextKey]
  {
    if NextKey in storage then Some(storage[NextKey]) else None
  }

  /** The storage after `handleGoogle` saved the route. */
  function StoreNext(storage: map<string, string>, nextParam: string): (r: map<string, string>)
    ensures nextParam != [] ==> r == storage[NextKey := nextParam]
    ensures nextParam == [] ==> r == storage
  {
    if nextParam != [] then storage[NextKey := nextParam] else storage
  }

  /** The storage after the listener consumed the route. */
  function ConsumeNext(storage: map<string, string>): (r: map<string, string>)
    ensures NextKey !in r
    ensures forall k :: k != NextKey ==> (k in r <==> k in storage)
    ensures forall k :: k in r ==> r[k] == storage[k]
  {
    storage - {NextKey}
  }

  /** A provider sign-in started from a page with a non-empty `next`
      returns to that route; one started with an empty `next` goes to a
      route stored earlier, else to the dashboard. */
  lemma ProviderReturnsToNext(storage: map<string, string>, nextParam: string)
    ensures nextParam != [] ==> OAuthTarget(Pending(StoreNext(storage, nextParam)), nextParam) == nextParam
    ensures nextParam == [] ==>
              OAuthTarget(Pending(StoreNext(storage, nextParam)), nextParam)
              == Or(Pending(storage).GetOr(""), Dashboard)
  {
  }

  /** Once consumed, the pending route cannot steer a second sign-in event. */
  lemma ConsumedOnce(storage: map<string, string>, nextParam: string)
    ensures Pending(ConsumeNext(storage)) == None
    ensures OAuthTarget(Pending(ConsumeNext(storage)), nextParam) == AfterLogin(nextParam)
  {
  }

  /** The row `upsertProfile` writes: no full name on this page. */
  datatype ProfileUpsert = ProfileUpsert(id: string, displayName: string)

  /** The display name after a sign-in: the metadata name, else the email
      prefix, else "". */
  function SignInProfile(u: AuthUser): (r: ProfileUpsert)
    ensures r.id == u.id
    ensures u.metadataName.Some? && u.metadataName.value != [] ==> r.displayName == u.metadataName.value
    ensures (u.metadataName.None? || u.metadataName.value == []) ==>
              r.displayName == (if u.email.Some? then BeforeAt(u.email.value) else [])
  {
    ProfileUpsert(u.id, NameOrEmailPrefix(u.metadataName.GetOr(""), u.email))
  }

  datatype LoginForm = LoginForm(email: string, password: string)
  datatype Field = EmailField | PasswordField

  datatype SignInOutcome =
    | SignInError(message: string)
    | SignInThrew(message: string)
    | SignedIn(user: Option<AuthUser>)

  class LoginPage {
    const nextParam: string
    var form: LoginForm
    var loading: bool
    var error: Option<string>
    var message: Option<string>
    /** Browser storage, of which this page uses one key. */
    var storage: map<string, string>

    constructor (query: Option<string>, storage0: map<string, string>)
      ensures nextParam == NextParam(query) && storage == storage0
      ensures form == LoginForm("", "") && !loading && error == None && message == None
    {
      nextParam := NextParam(query);
      form := LoginForm("", "");
      loading, error, message := false, None, None;
      storage := storage0;
    }

    /** The mount check: a signed-in visitor is sent on. */
    function MountRedirect(user: Option<AuthUser>): (r: Option<string>)
      reads this
      ensures r.Some? <==> user.Some?
      ensures r.Some? ==> r.value == AfterLogin(nextParam)
    {
      if user.Some? then Some(AfterLogin(nextParam)) else None
    }

    /** `handleChange` */
    method HandleChange(field: Field, value: string)
      modifies this`form, this`error, this`message
      ensures field == EmailField ==> form == old(form).(email := value)
      ensures field == PasswordField ==> form == old(form).(password := value)
      ensures error == None && message == None
    {
      match field {
        case EmailField => form := form.(email := value);
        case PasswordField => form := form.(password := value);
      }
      error, message := None, None;
    }

    /** `handleSubmit`, with the identity service's answer as `outcome`. */
    method HandleSubmit(outcome: SignInOutcome) returns (profile: Option<ProfileUpsert>, redirect: Option<string>)
      modifies this`loading, this`error, this`message
      ensures !loading
      ensures outcome.SignInError? ==> error == Some(outcome.message) && message == None
                                        && profile == None && redirect == None
      ensures outcome.SignInThrew? ==> error == Some(Or(outcome.message, "Login failed. Try again."))
                                        && message == None && profile == None && redirect == None
      ensures outcome.SignedIn? && outcome.user.Some? ==>
                profile == Some(SignInProfile(outcome.user.value)) && redirect == Some(AfterLogin(nextParam))
                && error == None && message == None
      ensures outcome.SignedIn? && outcome.user.None? ==>
                profile == None && redirect == None && error == None
                && message == Some("Check your email for a login link or confirmation if required.")
    {
      error, message := None, None;
      profile, redirect := None, None;
      loading := true;
      match outcome {
        case SignInError(m) =>
          error := Some(m);
        case SignInThrew(m) =>
          error := Some(Or(m, "Login failed. Try again."));
        case SignedIn(user) =>
          if user.Some? {
            profile := Some(SignInProfile(user.value));
            redirect := Some(AfterLogin(nextParam));
          } else {
            message := Some("Check your email for a login link or confirmation if required.");
          }
      }
      loading := false;
    }

    /** `handleGoogle`: the route is stored before the provider is called, so
        it stays stored even when starting the provider fails. */
    method HandleGoogle(thrown: Option<string>)
      modifies this`storage, this`error, this`message
      ensures storage == StoreNext(old(storage), nextParam)
      ensures message == None
      ensures thrown.None? ==> error == None
      ensures thrown.Some? ==> error == Some(Or(thrown.value, "Google sign-in failed."))
    {
      error, message := None, None;
      storage := StoreNext(storage, nextParam);
      if thrown.Some? {
        error := Some(Or(thrown.value, "Google sign-in failed."));
      }
    }

    /** The `onAuthStateChange` listener: a session with a user upserts the
        profile, reads and removes the pending route, and goes to the target. */
    method OnAuthStateChange(session: Option<AuthUser>) returns (profile: Option<ProfileUpsert>, redirect: Option<string>)
      modifies this`storage
      ensures session.None? ==> storage == old(storage) && profile == None && redirect == None
      ensures session.Some? ==>
                && profile == Some(SignInProfile(session.value))
                && redirect == Some(OAuthTarget(Pending(old(storage)), nextParam))
                && storage == ConsumeNext(old(storage))
    {
      profile, redirect := None, None;
      if session.Some? {
        profile := Some(SignInProfile(session.value));
        var pending := Pending(storage);
        redirect := Some(OAuthTarget(pending, nextParam));
        storage := ConsumeNext(storage);
      }
    }
  }
}
