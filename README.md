# Authentication cards: the submission state machine

This project models the two authentication cards of the application, the
sign-up card (`SignUpCard.tsx`) and the sign-in card (`SignInCard.tsx`).
Each card offers two OAuth buttons (Google, GitHub), an email/password
form and a link to the other card. The logic in them is a small state
machine. `pending` is raised while a `signIn` call is outstanding and
disables every button and input. `error` is null or one of the card's fixed messages. On the
sign-up card, `showThankYou` replaces the form by a thank-you view for a
2000 ms timer after a successful sign-up.

The files:

- `AuthCommon.dfy` holds what both cards share. It has the two modes
  (`AuthFlow`), the providers and a call of the external `signIn` action as
  a value (`SignInCall`: the provider, or `"password"` with its payload). It
  also has the way the call's promise settles (`Outcome`), an input to the
  model.
- `SignUpForm.dfy` and `SignInForm.dfy` each model one card:
  - `State` is the card's state. It holds `account`, `pending`, `error` and,
    for sign-up, `showThankYou`. Two more components stand for what the
    runtime holds for the card. `inFlight` is the `then`/`catch`/`finally`
    chain waiting on the outstanding promise, OAuth or email. `timers`
    counts the scheduled thank-you timers.
  - `Event` lists the events: OAuth click, form submit, promise settled,
    timer fired (sign-up), field edited, switch link clicked.
  - `Step` is the card's reaction to one event, a `Reaction`. It gives the
    new state, the `signIn` call made (if any), the delay of a scheduled
    timer (if any) and the mode the switch link requests (if any).
  - `Run` and `Calls` feed a sequence of events through `Step`.
  - `SignUpCard` / `SignInCard` is a class with the card's fields and one
    method per handler. The methods run the handler's `set…` updates in the
    source's order. Each ensures clause states that what the method did is
    what `Step` gives for its event in the old state.

`Accepts` decides whether an event reaches its handler. A button or input
with `disabled={pending}` does not fire while `pending`. On the sign-up
card, no control is rendered while `showThankYou` selects the thank-you
view. The form cannot be submitted while a `required` input is empty. A
settlement needs an outstanding call, and a timer event needs a scheduled
timer. `Step` leaves the state unchanged for an event that `Accepts`
refuses. The handler methods require that `Accepts` holds.

Some behaviours of the code that a reader might not expect:

- No handler ever sets `error` back to null. A re-submission does not
  clear an old error, and neither does a success. `StaleErrorSurvivesSuccess`
  shows a mismatch message that is still set after a successful
  sign-up.
- Each `set…` call updates one field of the card's state.
- A password mismatch sets `error` only. It never raises `pending`.
- Non-empty fields are enforced only by the inputs' `required` attribute.
  The handlers do not check them.
- While the thank-you view is shown, the sign-up card's switch link is not
  rendered either.

## Model

| member | source | states |
|---|---|---|
| AuthCommon.MethodNameIdentifiesOAuthCall | src/features/auth/components/SignUpCard.tsx:37-39 | the provider string an OAuth handler passes to `signIn` (`"github"` or `"google"`, from `ProviderId`) identifies the call: two OAuth calls pass the same string exactly when they are the same call |
| AuthCommon.MethodName | src/features/auth/components/SignUpCard.tsx:51 | the first argument of `signIn` is `"password"` exactly for password-flow calls |
| SignUpForm.Edit | src/features/auth/components/SignUpCard.tsx:133-175 | an `onChange` sets the edited field of `account` to the new value and leaves the other three fields as they were |
| SignUpForm.Step | src/features/auth/components/SignUpCard.tsx:37-69 | no sign-up transition clears a set error; `signIn` is invoked only from a non-pending card, and the card is pending afterwards; a timer is scheduled only together with the thank-you view and a cleared `pending` |
| SignUpForm.InitialValid | src/features/auth/components/SignUpCard.tsx:27-35 | the initial state (empty account, not pending, no error, no thank-you view) satisfies the card's invariant |
| SignUpForm.StepPreservesValid | src/features/auth/components/SignUpCard.tsx:33-69 | every transition keeps the invariant: `pending` exactly while a call is outstanding; at most one timer, scheduled exactly while the thank-you view is shown and never while a call is outstanding; `error` null or one of the two fixed messages |
| SignUpForm.RunPreservesValid | src/features/auth/components/SignUpCard.tsx:33-69 | any sequence of events keeps the invariant |
| SignUpForm.ErrorNeverCleared | src/features/auth/components/SignUpCard.tsx:34-68 | once `error` is set, no sequence of events sets it back to null |
| SignUpForm.CallsAreSignUp | src/features/auth/components/SignUpCard.tsx:37-56 | every `signIn` call the sign-up card makes is an OAuth call or a password call with `flow: "signUp"` and a name |
| SignUpForm.IgnoredWhenNotAccepted | src/features/auth/components/SignUpCard.tsx:73-181 | an event on a disabled or hidden control changes nothing and invokes nothing |
| SignUpForm.ControlsDisabledWhilePending | src/features/auth/components/SignUpCard.tsx:99-181 | `Accepts` encodes `disabled={pending}` on the OAuth buttons (lines 99, 109), the inputs (129, 143, 157, 171) and the submit button (181): while pending, their events are refused and change nothing |
| SignUpForm.ThankYouViewHidesControls | src/features/auth/components/SignUpCard.tsx:73-194 | `Accepts` encodes the thank-you branch of line 73: while `showThankYou` holds, no button, input or link of the form is rendered, so their events change nothing |
| SignUpForm.EmptyFieldBlocksSubmit | src/features/auth/components/SignUpCard.tsx:125-167 | `Filled` encodes the `required` attributes of the four inputs: with any field empty the form is not submitted, so no call is made and no error is set |
| SignUpForm.PayloadOmitsConfirmation | src/features/auth/components/SignUpCard.tsx:51-56 | `Payload` is the object literal sent to `signIn`: two accounts give the same payload exactly when their name, email and password agree, so `confirmPassword` is not in it; its `flow` is `signUp` |
| SignUpForm.MismatchNeverDispatches | src/features/auth/components/SignUpCard.tsx:45-48 | a submit with `password != confirmPassword` does not invoke `signIn`; it sets `error` to "Passwords do not match" and changes nothing else, so `pending` and `showThankYou` stay as they were |
| SignUpForm.SubmitDispatchesSignUp | src/features/auth/components/SignUpCard.tsx:50-56 | a submit with matching passwords sets `pending` and invokes `signIn("password", {name, email, password, flow: "signUp"})`, without the confirmation; the whole reaction is that call and that state change, with no timer and no mode request |
| SignUpForm.ResolvedShowsThankYou | src/features/auth/components/SignUpCard.tsx:57-68 | when the sign-up call resolves, `showThankYou` becomes true, a 2000 ms timer is scheduled and `pending` becomes false; `error` and `account` are unchanged |
| SignUpForm.RejectedReportsFailure | src/features/auth/components/SignUpCard.tsx:65-68 | when the sign-up call rejects, `error` becomes "Something went wrong" and `pending` false; `showThankYou` is unchanged and no timer is scheduled |
| SignUpForm.TimerHidesThankYou | src/features/auth/components/SignUpCard.tsx:60-63 | the timer firing sets `showThankYou` to false and changes nothing else |
| SignUpForm.OAuthRoundTrip | src/features/auth/components/SignUpCard.tsx:37-40 | an OAuth click invokes `signIn(provider)` and changes only `pending` (and the outstanding attempt), leaving `error` as it was; its settlement, resolved or rejected, gives back exactly the state before the click, so `error` is never touched |
| SignUpForm.EditChangesOneField | src/features/auth/components/SignUpCard.tsx:129-175 | while inputs are enabled, an edit replaces only the edited field of `account`, changes no other part of the state and invokes nothing |
| SignUpForm.SwitchRequestsSignIn | src/features/auth/components/SignUpCard.tsx:190 | the "Sign in" link requests mode `signIn` and changes nothing in the card |
| SignUpForm.SuccessfulSignUpCycle | src/features/auth/components/SignUpCard.tsx:42-69 | from a valid idle card with matching passwords, submit, resolve and timer make exactly one `signIn` call and end in the state the cycle started from |
| SignUpForm.StaleErrorSurvivesSuccess | src/features/auth/components/SignUpCard.tsx:45-68 | from a valid idle card without error and with mismatched passwords: submit, correct the confirmation, submit, resolve, timer — "Passwords do not match" is still set at the end |
| SignUpForm.SignUpCard.constructor | src/features/auth/components/SignUpCard.tsx:27-35 | the card starts in the initial state |
| SignUpForm.SignUpCard.SignUpByOAuth | src/features/auth/components/SignUpCard.tsx:37-40 | `signUpByOAuth` does what `Step` gives for an OAuth click and returns the call it makes |
| SignUpForm.SignUpCard.SignUpByEmail | src/features/auth/components/SignUpCard.tsx:42-56 | `signUpByEmail` does what `Step` gives for a submit and returns the call it makes, if any |
| SignUpForm.SignUpCard.OnSettled | src/features/auth/components/SignUpCard.tsx:57-68 | the promise callbacks do what `Step` gives for the settlement and return the delay of the timer they schedule, if any |
| SignUpForm.SignUpCard.OnThankYouTimer | src/features/auth/components/SignUpCard.tsx:60-63 | the `setTimeout` callback does what `Step` gives for a timer event |
| SignUpForm.SignUpCard.OnChange | src/features/auth/components/SignUpCard.tsx:133-175 | an input's `onChange` does what `Step` gives for an edit |
| SignUpForm.SignUpCard.OnSignInLink | src/features/auth/components/SignUpCard.tsx:190 | the link returns the target `signIn`, as `Step` gives for the link |
| SignInForm.Edit | src/features/auth/components/SignInCard.tsx:109-123 | an `onChange` sets the edited field of `account` to the new value and leaves the other field as it was |
| SignInForm.Step | src/features/auth/components/SignInCard.tsx:35-52 | no sign-in transition clears a set error; `signIn` is invoked only from a non-pending card, and the card is pending afterwards; only an edit changes `account` |
| SignInForm.InitialValid | src/features/auth/components/SignInCard.tsx:27-32 | the initial state satisfies the card's invariant |
| SignInForm.StepPreservesValid | src/features/auth/components/SignInCard.tsx:31-52 | every transition keeps the invariant: `pending` exactly while a call is outstanding, and `error` null or "Invalid credentials" |
| SignInForm.RunPreservesValid | src/features/auth/components/SignInCard.tsx:31-52 | any sequence of events keeps the invariant |
| SignInForm.ErrorNeverCleared | src/features/auth/components/SignInCard.tsx:32-51 | once `error` is set, no sequence of events sets it back to null |
| SignInForm.CallsAreSignIn | src/features/auth/components/SignInCard.tsx:35-47 | every `signIn` call the sign-in card makes is an OAuth call or a password call with `flow: "signIn"` and no name |
| SignInForm.IgnoredWhenNotAccepted | src/features/auth/components/SignInCard.tsx:75-129 | an event on a disabled control changes nothing and invokes nothing |
| SignInForm.ControlsDisabledWhilePending | src/features/auth/components/SignInCard.tsx:75-129 | `Accepts` encodes `disabled={pending}` on the OAuth buttons (lines 75, 85), the inputs (105, 119) and the submit button (129): while pending, their events are refused and change nothing |
| SignInForm.EmptyFieldBlocksSubmit | src/features/auth/components/SignInCard.tsx:101-115 | `Filled` encodes the `required` attributes of the two inputs: with either field empty the form is not submitted and no call is made |
| SignInForm.PayloadCarriesAccount | src/features/auth/components/SignInCard.tsx:43-47 | `Payload` is the object literal sent to `signIn`: two accounts give the same payload exactly when they are equal; its `flow` is `signIn` and it has no name |
| SignInForm.SubmitDispatchesSignIn | src/features/auth/components/SignInCard.tsx:40-47 | every accepted submit sets `pending` and invokes `signIn("password", {email, password, flow: "signIn"})`, with no local validation step; the whole reaction is that call and that state change, with no mode request |
| SignInForm.RejectedReportsInvalidCredentials | src/features/auth/components/SignInCard.tsx:48-51 | when the sign-in call rejects, `error` becomes "Invalid credentials" and `pending` false; nothing else changes |
| SignInForm.ResolvedClearsPending | src/features/auth/components/SignInCard.tsx:51 | when the sign-in call resolves, only `pending` becomes false; `error` is unchanged and there is no thank-you state |
| SignInForm.OAuthRoundTrip | src/features/auth/components/SignInCard.tsx:35-38 | an OAuth click invokes `signIn(provider)` and changes only `pending` (and the outstanding attempt), leaving `error` as it was; its settlement, resolved or rejected, gives back exactly the state before the click, so `error` is never set |
| SignInForm.EditChangesOneField | src/features/auth/components/SignInCard.tsx:105-123 | while inputs are enabled, an edit replaces only the edited field of `account`, changes no other part of the state and invokes nothing |
| SignInForm.SwitchRequestsSignUp | src/features/auth/components/SignInCard.tsx:138 | the "Sign up" link always requests mode `signUp`, also while pending, and changes nothing in the card |
| SignInForm.WrongPasswordScenario | src/features/auth/components/SignInCard.tsx:40-51 | from a fresh card, typing an email and a password, submitting and a rejection make exactly one password call with those credentials and end with `pending` false and `error` "Invalid credentials" |
| SignInForm.SignInCard.constructor | src/features/auth/components/SignInCard.tsx:27-32 | the card starts in the initial state |
| SignInForm.SignInCard.SignInByOAuth | src/features/auth/components/SignInCard.tsx:35-38 | `signInByOAuth` does what `Step` gives for an OAuth click and returns the call it makes |
| SignInForm.SignInCard.SignInByEmail | src/features/auth/components/SignInCard.tsx:40-47 | `signInByEmail` does what `Step` gives for a submit and returns the call it makes |
| SignInForm.SignInCard.OnSettled | src/features/auth/components/SignInCard.tsx:48-51 | the promise callbacks do what `Step` gives for the settlement |
| SignInForm.SignInCard.OnChange | src/features/auth/components/SignInCard.tsx:109-123 | an input's `onChange` does what `Step` gives for an edit |
| SignInForm.SignInCard.OnSignUpLink | src/features/auth/components/SignInCard.tsx:138 | the link returns the target `signUp`, as `Step` gives for the link |

## Left out

- The submit handlers call `e.preventDefault()` first, so the browser's default form navigation never happens. The model takes this as given and does not model the form event itself.
- Rendering: the JSX, icons and styles. The only parts kept are which controls exist (`showThankYou` selects the thank-you view) and the `disabled`/`required` attributes, as `Accepts`.
- The `signIn` action of the authentication library is external code. The model never calls it: each call is returned as a `SignInCall` value, and its outcome comes back as a `Settle` event.
- Promise scheduling and the 2000 ms wall-clock delay: the timer is a `TimerFired` event. The delay appears only as the `timerMs` value of the reaction that schedules it.
- Also from the promises: `signIn(provider).finally(…)` has no `catch`, so a rejected OAuth call also becomes an unhandled promise rejection in the browser. That is runtime behaviour outside the card's state.
- React mount and unmount: a callback that fires after its card was unmounted, and state updates on a card that is gone.
- The mode controller that owns `AuthFlow` is not part of this model, and neither is `src/features/auth/lib/types`. Only the mode each switch link requests is modelled.
- How the browser enforces `required` is modelled only as "every field non-empty" before a submit. The email format check of the `type="email"` inputs is not modelled.
- Network and session behaviour after a successful sign-in (redirects, navigation) happens outside the cards.
