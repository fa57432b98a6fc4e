/** The submission state machine of the sign-up card.

    `Step` is the card's reaction to one event: it gives the new state and
    says whether `signIn` is invoked (and with what), whether the
    thank-you timer is scheduled (and for how long), and which mode the
    switch link requests. `SignUpCard` is the card itself, with one method
    per handler; every method is proved to agree with `Step`. */
module SignUpForm {
  import opened AuthCommon

  const PasswordMismatchMessage := "Passwords do not match"
  const SignUpFailedMessage := "Something went wrong"
  /** Delay of the `setTimeout` that hides the thank-you view. */
  const ThankYouDelayMs: nat := 2000

  /** The `account` record bound to the four inputs. */
  datatype Account = Account(name: string, email: string, password: string, confirmPassword: string)

  const EmptyAccount := Account("", "", "", "")

  datatype Field = Name | Email | Password | ConfirmPassword

  function Get(a: Account, f: Field): string
  {
    match f
    case Name => a.name
    case Email => a.email
    case Password => a.password
    case ConfirmPassword => a.confirmPassword
  }

  /** An `onChange` handler: a copy of the record with one field replaced. */
  function Edit(a: Account, f: Field, v: string): (r: Account)
    ensures Get(r, f) == v
    ensures forall g :: g != f ==> Get(r, g) == Get(a, g)
  {
    match f
    case Name => a.(name := v)
    case Email => a.(email := v)
    case Password => a.(password := v)
    case ConfirmPassword => a.(confirmPassword := v)
  }

  /** Every input carries `required`: the browser refuses to submit the
      form while one of them is empty. */
  predicate Filled(a: Account)
  {
    forall f :: Get(a, f) != ""
  }

  /** What the card sends to `signIn("password", …)`. */
  function Payload(a: Account): PasswordPayload
  {
    PasswordPayload(Some(a.name), a.email, a.password, SignUp)
  }

  /** `pending`, `error`, `showThankYou` and `account` are the card's own
      state. `inFlight` is the handler chain waiting on the outstanding
      `signIn` promise, `timers` the number of scheduled thank-you timers
      that have not fired. */
  datatype State = State(
    account: Account,
    pending: bool,
    error: Option<string>,
    showThankYou: bool,
    inFlight: Option<Attempt>,
    timers: nat)

  const Initial := State(EmptyAccount, false, None, false, None, 0)

  datatype Event =
    | ClickOAuth(provider: Provider)   // a "Continue with …" button
    | SubmitForm                       // the form's submit
    | Settle(outcome: Outcome)         // the outstanding promise settles
    | TimerFired                       // a scheduled thank-you timer fires
    | EditField(field: Field, value: string)
    | ClickSignIn                      // the "Sign in" link

  /** The card's reaction to one event. */
  datatype Reaction = Reaction(
    state: State,
    call: Option<SignInCall>,
    timerMs: Option<nat>,
    switchTo: Option<AuthFlow>)

  function Quiet(s: State): Reaction
  {
    Reaction(s, None, None, None)
  }

  /** Whether the event can reach its handler in state `s`. While the
      thank-you view is shown no control of the form is rendered; buttons
      and inputs carry `disabled={pending}`; a settlement needs an
      outstanding promise and a timer event a scheduled timer. */
  predicate Accepts(s: State, e: Event)
  {
    match e
    case ClickOAuth(_) => !s.showThankYou && !s.pending
    case SubmitForm => !s.showThankYou && !s.pending && Filled(s.account)
    case EditField(_, _) => !s.showThankYou && !s.pending
    case ClickSignIn => !s.showThankYou
    case Settle(_) => s.inFlight.Some?
    case TimerFired => s.timers > 0
  }

  /** One transition of the card. An event that cannot reach its handler
      changes nothing. */
  function Step(s: State, e: Event): (r: Reaction)
    ensures s.error.Some? ==> r.state.error.Some?
    ensures r.call.Some? ==> !s.pending && r.state.pending
    ensures r.timerMs.Some? ==> r.state.showThankYou && !r.state.pending
  {
    if !Accepts(s, e) then Quiet(s)
    else match e
      case ClickOAuth(p) =>
        Reaction(s.(pending := true, inFlight := Some(OAuthAttempt)), Some(OAuthCall(p)), None, None)
      case SubmitForm =>
        if s.account.password != s.account.confirmPassword then
          Quiet(s.(error := Some(PasswordMismatchMessage)))
        else
          Reaction(s.(pending := true, inFlight := Some(EmailAttempt)),
                   Some(PasswordCall(Payload(s.account))), None, None)
      case Settle(o) =>
        var settled := s.(pending := false, inFlight := None);
        if s.inFlight != Some(EmailAttempt) then Quiet(settled)
        else if o == Resolved then
          Reaction(settled.(showThankYou := true, timers := s.timers + 1), None, Some(ThankYouDelayMs), None)
        else
          Quiet(settled.(error := Some(SignUpFailedMessage)))
      case TimerFired =>
        Quiet(s.(showThankYou := false, timers := s.timers - 1))
      case EditField(f, v) =>
        Quiet(s.(account := Edit(s.account, f, v)))
      case ClickSignIn =>
        Reaction(s, None, None, Some(SignIn))
  }

  /** The consistency of the card's state: `pending` exactly while a
      promise is outstanding, at most one timer and only while the
      thank-you view is shown, no timer while a promise is outstanding,
      and `error` holding one of the two fixed messages if anything. */
  predicate Valid(s: State)
  {
    && s.pending == s.inFlight.Some?
    && s.timers <= 1
    && s.showThankYou == (s.timers == 1)
    && (s.inFlight.Some? ==> s.timers == 0)
    && (s.error == None || s.error == Some(PasswordMismatchMessage) || s.error == Some(SignUpFailedMessage))
  }

  lemma InitialValid()
    ensures Valid(Initial)
  {
  }

  lemma StepPreservesValid(s: State, e: Event)
    requires Valid(s)
    ensures Valid(Step(s, e).state)
  {
  }

  /** The state after feeding the events in order. */
  function Run(s: State, evs: seq<Event>): State
    decreases |evs|
  {
    if evs == [] then s else Run(Step(s, evs[0]).state, evs[1..])
  }

  /** Every `signIn` call made while feeding the events, in order. */
  function Calls(s: State, evs: seq<Event>): seq<SignInCall>
    decreases |evs|
  {
    if evs == [] then []
    else
      var r := Step(s, evs[0]);
      (if r.call.Some? then [r.call.value] else []) + Calls(r.state, evs[1..])
  }

  lemma {:induction false} RunPreservesValid(s: State, evs: seq<Event>)
    requires Valid(s)
    ensures Valid(Run(s, evs))
    decreases |evs|
  {
    if evs != [] {
      StepPreservesValid(s, evs[0]);
      RunPreservesValid(Step(s, evs[0]).state, evs[1..]);
    }
  }

  /** No sequence of events sets `error` back to null once it is set. */
  lemma {:induction false} ErrorNeverCleared(s: State, evs: seq<Event>)
    requires s.error.Some?
    ensures Run(s, evs).error.Some?
    decreases |evs|
  {
    if evs != [] {
      ErrorNeverCleared(Step(s, evs[0]).state, evs[1..]);
    }
  }

  /** Every call the card makes is an OAuth call or a sign-up password
      call carrying the name. */
  lemma {:induction false} CallsAreSignUp(s: State, evs: seq<Event>)
    ensures forall c :: c in Calls(s, evs) ==>
      c.OAuthCall? || (c.payload.flow == SignUp && c.payload.name.Some?)
    decreases |evs|
  {
    if evs != [] {
      CallsAreSignUp(Step(s, evs[0]).state, evs[1..]);
    }
  }

  /** A click on a disabled or hidden control, a settlement with nothing
      outstanding and a timer event with nothing scheduled change nothing. */
  lemma IgnoredWhenNotAccepted(s: State, e: Event)
    requires !Accepts(s, e)
    ensures Step(s, e) == Reaction(s, None, None, None)
  {
  }

  /** While a call is outstanding the OAuth buttons, the inputs and the
      submit button are disabled: their events change nothing. */
  lemma ControlsDisabledWhilePending(s: State, e: Event)
    requires s.pending
    requires e.ClickOAuth? || e.SubmitForm? || e.EditField?
    ensures !Accepts(s, e)
    ensures Step(s, e) == Quiet(s)
  {
  }

  /** While the thank-you view is shown no control of the form, and not
      the link either, is rendered: their events change nothing. */
  lemma ThankYouViewHidesControls(s: State, e: Event)
    requires s.showThankYou
    requires e.ClickOAuth? || e.SubmitForm? || e.EditField? || e.ClickSignIn?
    ensures !Accepts(s, e)
    ensures Step(s, e) == Quiet(s)
  {
  }

  /** An empty `required` input blocks the submit: no call is made and
      not even the mismatch check runs. */
  lemma EmptyFieldBlocksSubmit(s: State, f: Field)
    requires Get(s.account, f) == ""
    ensures !Accepts(s, SubmitForm)
    ensures Step(s, SubmitForm) == Quiet(s)
  {
  }

  /** The payload leaves out the confirmation: it carries exactly the
      name, email and password of the account. */
  lemma PayloadOmitsConfirmation(a: Account, b: Account)
    ensures Payload(a) == Payload(b) <==>
      (Get(a, Name) == Get(b, Name) && Get(a, Email) == Get(b, Email) && Get(a, Password) == Get(b, Password))
    ensures Payload(a).flow == SignUp
  {
  }

  /** Submitting mismatched passwords sets the one error message and
      nothing else; `signIn` is not invoked. */
  lemma MismatchNeverDispatches(s: State)
    requires Accepts(s, SubmitForm)
    requires s.account.password != s.account.confirmPassword
    ensures Step(s, SubmitForm) == Quiet(s.(error := Some(PasswordMismatchMessage)))
  {
  }

  /** Submitting matching passwords sets `pending` and dispatches
      `signIn("password", {name, email, password, flow: "signUp"})`. */
  lemma SubmitDispatchesSignUp(s: State)
    requires Accepts(s, SubmitForm)
    requires s.account.password == s.account.confirmPassword
    ensures Step(s, SubmitForm).call ==
      Some(PasswordCall(PasswordPayload(Some(s.account.name), s.account.email, s.account.password, SignUp)))
    ensures MethodName(Step(s, SubmitForm).call.value) == "password"
    ensures Step(s, SubmitForm).state == s.(pending := true, inFlight := Some(EmailAttempt))
    ensures Step(s, SubmitForm) ==
      Reaction(s.(pending := true, inFlight := Some(EmailAttempt)), Some(PasswordCall(Payload(s.account))), None, None)
  {
  }

  /** When the sign-up call resolves: the thank-you view is shown, a
      2000 ms timer is scheduled, `pending` clears, `error` stays. */
  lemma ResolvedShowsThankYou(s: State)
    requires s.inFlight == Some(EmailAttempt)
    ensures Step(s, Settle(Resolved)) ==
      Reaction(s.(pending := false, inFlight := None, showThankYou := true, timers := s.timers + 1),
               None, Some(ThankYouDelayMs), None)
  {
  }

  /** When the sign-up call rejects: the fixed failure message, `pending`
      clears, `showThankYou` stays. */
  lemma RejectedReportsFailure(s: State)
    requires s.inFlight == Some(EmailAttempt)
    ensures Step(s, Settle(Rejected)) ==
      Quiet(s.(pending := false, inFlight := None, error := Some(SignUpFailedMessage)))
  {
  }

  /** The timer hides the thank-you view and changes nothing else. */
  lemma TimerHidesThankYou(s: State)
    requires s.timers > 0
    ensures Step(s, TimerFired) == Quiet(s.(showThankYou := false, timers := s.timers - 1))
  {
  }

  /** An OAuth attempt, whatever its outcome, leaves the card exactly as
      it found it: `pending` goes up and comes back down, `error` is
      untouched. */
  lemma OAuthRoundTrip(s: State, p: Provider, o: Outcome)
    requires Valid(s)
    requires Accepts(s, ClickOAuth(p))
    ensures Step(s, ClickOAuth(p)).call == Some(OAuthCall(p))
    ensures Step(s, ClickOAuth(p)).state.pending
    ensures Step(s, ClickOAuth(p)) ==
      Reaction(s.(pending := true, inFlight := Some(OAuthAttempt)), Some(OAuthCall(p)), None, None)
    ensures Step(Step(s, ClickOAuth(p)).state, Settle(o)) == Quiet(s)
  {
  }

  /** An edit replaces one field of `account` and nothing else. */
  lemma EditChangesOneField(s: State, f: Field, v: string)
    requires Accepts(s, EditField(f, v))
    ensures Step(s, EditField(f, v)).state == s.(account := Step(s, EditField(f, v)).state.account)
    ensures Get(Step(s, EditField(f, v)).state.account, f) == v
    ensures forall g :: g != f ==> Get(Step(s, EditField(f, v)).state.account, g) == Get(s.account, g)
    ensures Step(s, EditField(f, v)).call == None
  {
  }

  /** The link asks for sign-in mode and leaves the card's state alone. */
  lemma SwitchRequestsSignIn(s: State)
    requires Accepts(s, ClickSignIn)
    ensures Step(s, ClickSignIn) == Reaction(s, None, None, Some(SignIn))
  {
  }

  /** The whole successful cycle from an idle card: submit, resolve, timer.
      The card ends idle again with its account and its old `error`. */
  lemma SuccessfulSignUpCycle(s: State)
    requires Valid(s) && Accepts(s, SubmitForm)
    requires s.account.password == s.account.confirmPassword
    ensures Run(s, [SubmitForm, Settle(Resolved), TimerFired]) == s
    ensures Calls(s, [SubmitForm, Settle(Resolved), TimerFired]) == [PasswordCall(Payload(s.account))]
  {
    var s1 := Step(s, SubmitForm).state;
    var s2 := Step(s1, Settle(Resolved)).state;
    var s3 := Step(s2, TimerFired).state;
    assert s3 == s;
    assert [SubmitForm, Settle(Resolved), TimerFired][1..] == [Settle(Resolved), TimerFired];
    assert [Settle(Resolved), TimerFired][1..] == [TimerFired];
    assert [TimerFired][1..] == [];
  }

  /** The code never clears a stale error: a mismatched submit, a
      corrected confirmation and a successful sign-up still leave the
      mismatch message set when the form comes back. */
  lemma StaleErrorSurvivesSuccess(s: State)
    requires Valid(s) && Accepts(s, SubmitForm) && s.error == None
    requires s.account.password != s.account.confirmPassword
    ensures Run(s, [SubmitForm, EditField(ConfirmPassword, s.account.password),
                    SubmitForm, Settle(Resolved), TimerFired]).error
            == Some(PasswordMismatchMessage)
  {
    var evs := [SubmitForm, EditField(ConfirmPassword, s.account.password), SubmitForm, Settle(Resolved), TimerFired];
    var s1 := Step(s, evs[0]).state;
    assert s1 == s.(error := Some(PasswordMismatchMessage));
    var s2 := Step(s1, evs[1]).state;
    assert s2.account == s.account.(confirmPassword := s.account.password);
    assert Filled(s2.account) by {
      forall f ensures Get(s2.account, f) != "" {
        assert Get(s.account, f) != "" && Get(s.account, Password) != "";
      }
    }
    assert evs[1..][1..] == [SubmitForm, Settle(Resolved), TimerFired];
    SuccessfulSignUpCycle(s2);
  }

  /** The card as the component holds it. Each method is one handler and
      is proved to do what `Step` says of its event. */
  class SignUpCard {
    var account: Account
    var pending: bool
    var error: Option<string>
    var showThankYou: bool
    var inFlight: Option<Attempt>
    var timers: nat

    function Snapshot(): State
      reads this
    {
      State(account, pending, error, showThankYou, inFlight, timers)
    }

    /** The `useState` initial values. */
    constructor ()
      ensures Snapshot() == Initial
    {
      account := EmptyAccount;
      pending := false;
      error := None;
      showThankYou := false;
      inFlight := None;
      timers := 0;
    }

    /** `signUpByOAuth`. */
    method SignUpByOAuth(provider: Provider) returns (call: SignInCall)
      requires Accepts(Snapshot(), ClickOAuth(provider))
      modifies this
      ensures Step(old(Snapshot()), ClickOAuth(provider)) == Reaction(Snapshot(), Some(call), None, None)
    {
      pending := true;
      call := OAuthCall(provider);
      inFlight := Some(OAuthAttempt);
    }

    /** `signUpByEmail`: the mismatch check, then the dispatch. */
    method SignUpByEmail() returns (call: Option<SignInCall>)
      requires Accepts(Snapshot(), SubmitForm)
      modifies this
      ensures Step(old(Snapshot()), SubmitForm) == Reaction(Snapshot(), call, None, None)
    {
      if account.password != account.confirmPassword {
        error := Some(PasswordMismatchMessage);
        return None;
      }
      pending := true;
      call := Some(PasswordCall(PasswordPayload(Some(account.name), account.email, account.password, SignUp)));
      inFlight := Some(EmailAttempt);
    }

    /** The callbacks chained to the outstanding promise: `then` and
        `catch` of the email path, then `finally` of either path. */
    method OnSettled(outcome: Outcome) returns (timerMs: Option<nat>)
      requires Accepts(Snapshot(), Settle(outcome))
      modifies this
      ensures Step(old(Snapshot()), Settle(outcome)) == Reaction(Snapshot(), None, timerMs, None)
    {
      timerMs := None;
      if inFlight == Some(EmailAttempt) {
        if outcome == Resolved {
          showThankYou := true;
          timers := timers + 1;
          timerMs := Some(ThankYouDelayMs);
        } else {
          error := Some(SignUpFailedMessage);
        }
      }
      pending := false;
      inFlight := None;
    }

    /** The `setTimeout` callback. */
    method OnThankYouTimer()
      requires Accepts(Snapshot(), TimerFired)
      modifies this
      ensures Step(old(Snapshot()), TimerFired) == Quiet(Snapshot())
    {
      showThankYou := false;
      timers := timers - 1;
    }

    /** An input's `onChange`: `setAccount({ ...account, f: value })`. */
    method OnChange(f: Field, value: string)
      requires Accepts(Snapshot(), EditField(f, value))
      modifies this
      ensures Step(old(Snapshot()), EditField(f, value)) == Quiet(Snapshot())
    {
      account := Edit(account, f, value);
    }

    /** The "Sign in" link: `setState("signIn")`. */
    method OnSignInLink() returns (target: AuthFlow)
      requires Accepts(Snapshot(), ClickSignIn)
      ensures target == SignIn
      ensures Step(Snapshot(), ClickSignIn) == Reaction(Snapshot(), None, None, Some(target))
    {
      target := SignIn;
    }
  }
}
