/** The submission state machine of the sign-in card.

    `Step` is the card's reaction to one event: it gives the new state and
    says whether `signIn` is invoked (and with what) and which mode the
    switch link requests. `SignInCard` is the card itself, with one method
    per handler; every method is proved to agree with `Step`. */
module SignInForm {
  import opened AuthCommon

  const InvalidCredentialsMessage := "Invalid credentials"

  /** The `account` record bound to the two inputs. */
  datatype Account = Account(email: string, password: string)

  const EmptyAccount := Account("", "")

  datatype Field = Email | Password

  function Get(a: Account, f: Field): string
  {
    match f
    case Email => a.email
    case Password => a.password
  }

  /** An `onChange` handler: a copy of the record with one field replaced. */
  function Edit(a: Account, f: Field, v: string): (r: Account)
    ensures Get(r, f) == v
    ensures forall g :: g != f ==> Get(r, g) == Get(a, g)
  {
    match f
    case Email => a.(email := v)
    case Password => a.(password := v)
  }

  /** Both inputs carry `required`: the browser refuses to submit the
      form while one of them is empty. */
  predicate Filled(a: Account)
  {
    a.email != "" && a.password != ""
  }

  /** What the card sends to `signIn("password", …)`: no name. */
  function Payload(a: Account): PasswordPayload
  {
    PasswordPayload(None, a.email, a.password, SignIn)
  }

  /** `pending`, `error` and `account` are the card's own state;
      `inFlight` is the handler chain waiting on the outstanding `signIn`
      promise. */
  datatype State = State(
    account: Account,
    pending: bool,
    error: Option<string>,
    inFlight: Option<Attempt>)

  const Initial := State(EmptyAccount, false, None, None)

  datatype Event =
    | ClickOAuth(provider: Provider)   // a "Continue with …" button
    | SubmitForm                       // the form's submit
    | Settle(outcome: Outcome)         // the outstanding promise settles
    | EditField(field: Field, value: string)
    | ClickSignUp                      // the "Sign up" link

  /** The card's reaction to one event. */
  datatype Reaction = Reaction(
    state: State,
    call: Option<SignInCall>,
    switchTo: Option<AuthFlow>)

  function Quiet(s: State): Reaction
  {
    Reaction(s, None, None)
  }

  /** Whether the event can reach its handler in state `s`. Buttons and
      inputs carry `disabled={pending}`; the link is never disabled; a
      settlement needs an outstanding promise. */
  predicate Accepts(s: State, e: Event)
  {
    match e
    case ClickOAuth(_) => !s.pending
    case SubmitForm => !s.pending && Filled(s.account)
    case EditField(_, _) => !s.pending
    case ClickSignUp => true
    case Settle(_) => s.inFlight.Some?
  }

  /** One transition of the card. An event that cannot reach its handler
      changes nothing. */
  function Step(s: State, e: Event): (r: Reaction)
    ensures s.error.Some? ==> r.state.error.Some?
    ensures r.call.Some? ==> !s.pending && r.state.pending
    ensures r.state.account != s.account ==> e.EditField?
  {
    if !Accepts(s, e) then Quiet(s)
    else match e
      case ClickOAuth(p) =>
        Reaction(s.(pending := true, inFlight := Some(OAuthAttempt)), Some(OAuthCall(p)), None)
      case SubmitForm =>
        Reaction(s.(pending := true, inFlight := Some(EmailAttempt)), Some(PasswordCall(Payload(s.account))), None)
      case Settle(o) =>
        var settled := s.(pending := false, inFlight := None);
        if s.inFlight == Some(EmailAttempt) && o == Rejected then
          Quiet(settled.(error := Some(InvalidCredentialsMessage)))
        else
          Quiet(settled)
      case EditField(f, v) =>
        Quiet(s.(account := Edit(s.account, f, v)))
      case ClickSignUp =>
        Reaction(s, None, Some(SignUp))
  }

  /** The consistency of the card's state: `pending` exactly while a
      promise is outstanding, and `error` either null or the one fixed
      message. */
  predicate Valid(s: State)
  {
    && s.pending == s.inFlight.Some?
    && (s.error == None || s.error == Some(InvalidCredentialsMessage))
  }

  lemma InitialValid()
    ensures Valid(Initial)
  {
  }

  lemma StepPreservesValid(s: State, e: Event)
    requires Valid(s)
    ensures Valid(Step(s, e).state)
  {
  }

  /** The state after feeding the events in order. */
  function Run(s: State, evs: seq<Event>): State
    decreases |evs|
  {
    if evs == [] then s else Run(Step(s, evs[0]).state, evs[1..])
  }

  /** Every `signIn` call made while feeding the events, in order. */
  function Calls(s: State, evs: seq<Event>): seq<SignInCall>
    decreases |evs|
  {
    if evs == [] then []
    else
      var r := Step(s, evs[0]);
      (if r.call.Some? then [r.call.value] else []) + Calls(r.state, evs[1..])
  }

  lemma {:induction false} RunPreservesValid(s: State, evs: seq<Event>)
    requires Valid(s)
    ensures Valid(Run(s, evs))
    decreases |evs|
  {
    if evs != [] {
      StepPreservesValid(s, evs[0]);
      RunPreservesValid(Step(s, evs[0]).state, evs[1..]);
    }
  }

  /** No sequence of events sets `error` back to null once it is set. */
  lemma {:induction false} ErrorNeverCleared(s: State, evs: seq<Event>)
    requires s.error.Some?
    ensures Run(s, evs).error.Some?
    decreases |evs|
  {
    if evs != [] {
      ErrorNeverCleared(Step(s, evs[0]).state, evs[1..]);
    }
  }

  /** Every call the card makes is an OAuth call or a sign-in password
      call without a name. */
  lemma {:induction false} CallsAreSignIn(s: State, evs: seq<Event>)
    ensures forall c :: c in Calls(s, evs) ==>
      c.OAuthCall? || (c.payload.flow == SignIn && c.payload.name == None)
    decreases |evs|
  {
    if evs != [] {
      CallsAreSignIn(Step(s, evs[0]).state, evs[1..]);
    }
  }

  /** A click on a disabled control and a settlement with nothing
      outstanding change nothing. */
  lemma IgnoredWhenNotAccepted(s: State, e: Event)
    requires !Accepts(s, e)
    ensures Step(s, e) == Reaction(s, None, None)
  {
  }

  /** While a call is outstanding the OAuth buttons, the inputs and the
      submit button are disabled: their events change nothing. */
  lemma ControlsDisabledWhilePending(s: State, e: Event)
    requires s.pending
    requires e.ClickOAuth? || e.SubmitForm? || e.EditField?
    ensures !Accepts(s, e)
    ensures Step(s, e) == Quiet(s)
  {
  }

  /** An empty `required` input blocks the submit: no call is made. */
  lemma EmptyFieldBlocksSubmit(s: State, f: Field)
    requires Get(s.account, f) == ""
    ensures !Accepts(s, SubmitForm)
    ensures Step(s, SubmitForm) == Quiet(s)
  {
  }

  /** The payload carries the whole account, and nothing but it: two
      accounts give the same payload exactly when they are equal. */
  lemma PayloadCarriesAccount(a: Account, b: Account)
    ensures Payload(a) == Payload(b) <==> a == b
    ensures Payload(a).flow == SignIn && Payload(a).name == None
  {
  }

  /** Submitting sets `pending` and dispatches
      `signIn("password", {email, password, flow: "signIn"})`; there is no
      local check that could stop it. */
  lemma SubmitDispatchesSignIn(s: State)
    requires Accepts(s, SubmitForm)
    ensures Step(s, SubmitForm).call ==
      Some(PasswordCall(PasswordPayload(None, s.account.email, s.account.password, SignIn)))
    ensures MethodName(Step(s, SubmitForm).call.value) == "password"
    ensures Step(s, SubmitForm).state == s.(pending := true, inFlight := Some(EmailAttempt))
    ensures Step(s, SubmitForm) ==
      Reaction(s.(pending := true, inFlight := Some(EmailAttempt)), Some(PasswordCall(Payload(s.account))), None)
  {
  }

  /** When the sign-in call rejects: the fixed message, `pending` clears. */
  lemma RejectedReportsInvalidCredentials(s: State)
    requires s.inFlight == Some(EmailAttempt)
    ensures Step(s, Settle(Rejected)) ==
      Quiet(s.(pending := false, inFlight := None, error := Some(InvalidCredentialsMessage)))
  {
  }

  /** When the sign-in call resolves: only `pending` clears; `error`
      stays and there is nothing else to show. */
  lemma ResolvedClearsPending(s: State)
    requires s.inFlight == Some(EmailAttempt)
    ensures Step(s, Settle(Resolved)) == Quiet(s.(pending := false, inFlight := None))
  {
  }

  /** An OAuth attempt, whatever its outcome, leaves the card exactly as
      it found it: `pending` goes up and comes back down, `error` is
      untouched. */
  lemma OAuthRoundTrip(s: State, p: Provider, o: Outcome)
    requires Valid(s)
    requires Accepts(s, ClickOAuth(p))
    ensures Step(s, ClickOAuth(p)).call == Some(OAuthCall(p))
    ensures Step(s, ClickOAuth(p)).state.pending
    ensures Step(s, ClickOAuth(p)) ==
      Reaction(s.(pending := true, inFlight := Some(OAuthAttempt)), Some(OAuthCall(p)), None)
    ensures Step(Step(s, ClickOAuth(p)).state, Settle(o)) == Quiet(s)
  {
  }

  /** An edit replaces one field of `account` and nothing else. */
  lemma EditChangesOneField(s: State, f: Field, v: string)
    requires Accepts(s, EditField(f, v))
    ensures Step(s, EditField(f, v)).state == s.(account := Step(s, EditField(f, v)).state.account)
    ensures Get(Step(s, EditField(f, v)).state.account, f) == v
    ensures forall g :: g != f ==> Get(Step(s, EditField(f, v)).state.account, g) == Get(s.account, g)
    ensures Step(s, EditField(f, v)).call == None
  {
  }

  /** The link always asks for sign-up mode, also while a call is
      outstanding, and leaves the card's state alone. */
  lemma SwitchRequestsSignUp(s: State)
    ensures Step(s, ClickSignUp) == Reaction(s, None, Some(SignUp))
  {
  }

  /** A rejected email sign-in from a fresh card, whatever was typed:
      `pending` is false and the message is "Invalid credentials". */
  lemma WrongPasswordScenario(email: string, password: string)
    requires email != "" && password != ""
    ensures Run(Initial, [EditField(Email, email), EditField(Password, password), SubmitForm, Settle(Rejected)])
            == State(Account(email, password), false, Some(InvalidCredentialsMessage), None)
    ensures Calls(Initial, [EditField(Email, email), EditField(Password, password), SubmitForm, Settle(Rejected)])
            == [PasswordCall(PasswordPayload(None, email, password, SignIn))]
  {
    var evs := [EditField(Email, email), EditField(Password, password), SubmitForm, Settle(Rejected)];
    var s1 := State(Account(email, ""), false, None, None);
    var s2 := State(Account(email, password), false, None, None);
    var s3 := s2.(pending := true, inFlight := Some(EmailAttempt));
    var s4 := State(Account(email, password), false, Some(InvalidCredentialsMessage), None);
    assert Step(Initial, evs[0]) == Quiet(s1);
    assert Step(s1, evs[1]) == Quiet(s2);
    assert Step(s2, evs[2]) == Reaction(s3, Some(PasswordCall(Payload(s2.account))), None);
    assert Step(s3, evs[3]) == Quiet(s4);
    assert evs[1..][1..][1..][1..] == [];
    assert Run(s4, []) == s4 && Calls(s4, []) == [];
    assert Run(s3, evs[3..]) == s4 && Calls(s3, evs[3..]) == [];
    assert Run(s2, evs[2..]) == s4 && Calls(s2, evs[2..]) == [PasswordCall(Payload(s2.account))];
    assert Run(s1, evs[1..]) == s4 && Calls(s1, evs[1..]) == [PasswordCall(Payload(s2.account))];
  }

  /** The card as the component holds it. Each method is one handler and
      is proved to do what `Step` says of its event. */
  class SignInCard {
    var account: Account
    var pending: bool
    var error: Option<string>
    var inFlight: Option<Attempt>

    function Snapshot(): State
      reads this
    {
      State(account, pending, error, inFlight)
    }

    /** The `useState` initial values. */
    constructor ()
      ensures Snapshot() == Initial
    {
      account := EmptyAccount;
      pending := false;
      error := None;
      inFlight := None;
    }

    /** `signInByOAuth`. */
    method SignInByOAuth(provider: Provider) returns (call: SignInCall)
      requires Accepts(Snapshot(), ClickOAuth(provider))
      modifies this
      ensures Step(old(Snapshot()), ClickOAuth(provider)) == Reaction(Snapshot(), Some(call), None)
    {
      pending := true;
      call := OAuthCall(provider);
      inFlight := Some(OAuthAttempt);
    }

    /** `signInByEmail`: the dispatch, with no check before it. */
    method SignInByEmail() returns (call: SignInCall)
      requires Accepts(Snapshot(), SubmitForm)
      modifies this
      ensures Step(old(Snapshot()), SubmitForm) == Reaction(Snapshot(), Some(call), None)
    {
      pending := true;
      call := PasswordCall(PasswordPayload(None, account.email, account.password, SignIn));
      inFlight := Some(EmailAttempt);
    }

    /** The callbacks chained to the outstanding promise: `catch` of the
        email path, then `finally` of either path. */
    method OnSettled(outcome: Outcome)
      requires Accepts(Snapshot(), Settle(outcome))
      modifies this
      ensures Step(old(Snapshot()), Settle(outcome)) == Quiet(Snapshot())
    {
      if inFlight == Some(EmailAttempt) && outcome == Rejected {
        error := Some(InvalidCredentialsMessage);
      }
      pending := false;
      inFlight := None;
    }

    /** An input's `onChange`: `setAccount({ ...account, f: value })`. */
    method OnChange(f: Field, value: string)
      requires Accepts(Snapshot(), EditField(f, value))
      modifies this
      ensures Step(old(Snapshot()), EditField(f, value)) == Quiet(Snapshot())
    {
      account := Edit(account, f, value);
    }

    /** The "Sign up" link: `setState("signUp")`. */
    method OnSignUpLink() returns (target: AuthFlow)
      ensures target == SignUp
      ensures Step(Snapshot(), ClickSignUp) == Reaction(Snapshot(), None, Some(target))
    {
      target := SignUp;
    }
  }
}
