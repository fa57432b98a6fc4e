/** Vocabulary shared by the sign-in and sign-up cards: the modes the
    cards switch between, the external `signIn` action as a value the
    cards hand out, and the way its promise settles. */
module AuthCommon {

  datatype Option<+T> = None | Some(value: T)

  /** The presentation the mode controller shows: `"signIn"` or `"signUp"`. */
  datatype AuthFlow = SignIn | SignUp

  /** The identity providers offered by the two OAuth buttons. */
  datatype Provider = GitHub | Google

  /** The object passed as second argument of `signIn("password", …)`.
      `name` is sent by the sign-up card only; the confirmation password
      is never part of it. */
  datatype PasswordPayload = PasswordPayload(
    name: Option<string>,
    email: string,
    password: string,
    flow: AuthFlow)  // the `flow` strings "signIn"/"signUp" are the mode names, so one type serves both

  /** One invocation of the external `signIn` action, with its arguments. */
  datatype SignInCall =
    | OAuthCall(provider: Provider)
    | PasswordCall(payload: PasswordPayload)

  /** The provider identifier, as the string the OAuth handlers pass. */
  function ProviderId(p: Provider): string
  {
    match p
    case GitHub => "github"
    case Google => "google"
  }

  /** The first argument of the call: the provider, or `"password"`. */
  function MethodName(c: SignInCall): (m: string)
    ensures m == "password" <==> c.PasswordCall?
  {
    match c
    case OAuthCall(p) => ProviderId(p)
    case PasswordCall(_) => "password"
  }

  /** The first argument alone tells OAuth calls apart: two OAuth calls
      that pass the same string are the same call. */
  lemma MethodNameIdentifiesOAuthCall(c: SignInCall, d: SignInCall)
    requires c.OAuthCall? && d.OAuthCall?
    ensures MethodName(c) == MethodName(d) <==> c == d
  {
    if c != d {
      assert c.provider != d.provider;
      assert ProviderId(c.provider)[1] != ProviderId(d.provider)[1];
    }
  }

  /** How the promise returned by `signIn` settled. The model never makes
      the call; the outcome is an input event. */
  datatype Outcome = Resolved | Rejected

  /** Which handler's `then`/`catch`/`finally` chain hangs on the
      outstanding promise: the OAuth one or the email-form one. */
  datatype Attempt = OAuthAttempt | EmailAttempt
}
