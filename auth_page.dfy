/** The login page: sign-in and password-reset forms over three flags,
    `loading`, `showForgotPassword` and `resetEmailSent`. Each request
    handler is split at its `await`: a start method runs up to the request,
    a settle method runs from its outcome to the end of the handler, so that
    the state in between is observable. */
module AuthPage {
  import opened Common

  /** A request the page hands to the authentication service. */
  datatype AuthRequest = SignIn(email: string, password: string) | ResetPassword(email: string)

  /** How a request ended: it returned, with or without an error message,
      or it threw an exception with a message. */
  datatype Outcome = Returned(error: Option<string>) | Threw(message: string)

  /** Which card the page shows. */
  datatype Screen = LoginForm | ResetForm | ResetSent

  /** The card: the login form unless the reset view is open; in that view,
      the confirmation once the reset mail has gone out, the form before. */
  function ScreenOf(showForgotPassword: bool, resetEmailSent: bool): (s: Screen)
    ensures s == LoginForm <==> !showForgotPassword
    ensures s == ResetSent <==> showForgotPassword && resetEmailSent
  {
    if !showForgotPassword then LoginForm
    else if resetEmailSent then ResetSent
    else ResetForm
  }

  /** The redirect effect: to the panel whenever a user is signed in. */
  function AuthRedirect(user: Option<User>): (path: Option<string>)
    ensures path.Some? <==> user.Some?
    ensures path.Some? ==> path.value == "/admin"
  {
    if user.Some? then Some("/admin") else None
  }

  /** The toasts shown after a request that returned without an error. */
  const Welcome := Notice(Success, "Welcome back!", "You have been signed in successfully.")
  const ResetSentNotice := Notice(Success, "Reset Email Sent", "Check your email for password reset instructions.")

  /** The toast a request's outcome produces: `success` exactly when it
      returned no error; otherwise an error toast carrying the service's own
      message, titled `errorTitle` for a returned error and "Error" for an
      exception. */
  function OutcomeNotice(outcome: Outcome, errorTitle: string, success: Notice): (n: Notice)
    requires success.kind == Success
    ensures n.kind == Success <==> outcome == Returned(None)
    ensures outcome == Returned(None) ==> n == success
    ensures outcome.Returned? && outcome.error.Some? ==> n == Notice(Error, errorTitle, outcome.error.value)
    ensures outcome.Threw? ==> n == Notice(Error, "Error", outcome.message)
  {
    match outcome
    case Returned(None) => success
    case Returned(Some(message)) => Notice(Error, errorTitle, message)
    case Threw(message) => Notice(Error, "Error", message)
  }

  /** The state of the `Auth` page (the inputs' change handlers assign
      `email` and `password` directly). */
  class AuthPageState {
    var email: string
    var password: string
    var loading: bool
    var showForgotPassword: bool
    var resetEmailSent: bool

    constructor ()
      ensures email == "" && password == ""
      ensures !loading && !showForgotPassword && !resetEmailSent
    {
      email, password := "", "";
      loading, showForgotPassword, resetEmailSent := false, false, false;
    }

    /** `handleSubmit` up to its request: mark loading and ask to sign in
        with the current credentials. */
    method StartSignIn() returns (request: AuthRequest)
      modifies this
      ensures request == SignIn(email, password)
      ensures loading
      ensures email == old(email) && password == old(password)
      ensures showForgotPassword == old(showForgotPassword) && resetEmailSent == old(resetEmailSent)
    {
      loading := true;
      request := SignIn(email, password);
    }

    /** `handleSubmit` from the outcome on: one toast, then loading ends
        whatever happened; the handler itself never navigates. */
    method SettleSignIn(outcome: Outcome) returns (notice: Notice)
      modifies this
      ensures notice == OutcomeNotice(outcome, "Authentication Error", Welcome)
      ensures !loading
      ensures email == old(email) && password == old(password)
      ensures showForgotPassword == old(showForgotPassword) && resetEmailSent == old(resetEmailSent)
    {
      notice := OutcomeNotice(outcome, "Authentication Error", Welcome);
      loading := false;
    }

    /** `handleForgotPassword` up to its request: an empty email only shows
        an error, with no request and `loading` untouched; otherwise mark
        loading and ask for a reset mail to that address. */
    method StartForgotPassword() returns (request: Option<AuthRequest>, notices: seq<Notice>)
      modifies this
      ensures email == "" ==>
        && request.None? && notices == [Notice(Error, "Error", "Please enter your email address")]
        && loading == old(loading)
      ensures email != "" ==> request == Some(ResetPassword(email)) && notices == [] && loading
      ensures email == old(email) && password == old(password)
      ensures showForgotPassword == old(showForgotPassword) && resetEmailSent == old(resetEmailSent)
    {
      if email == "" {
        request := None;
        notices := [Notice(Error, "Error", "Please enter your email address")];
        return;
      }
      loading := true;
      request := Some(ResetPassword(email));
      notices := [];
    }

    /** `handleForgotPassword` from the outcome on: the mail is marked as
        sent only when the request returned no error; loading ends whatever
        happened. */
    method SettleForgotPassword(outcome: Outcome) returns (notice: Notice)
      modifies this
      ensures notice == OutcomeNotice(outcome, "Error", ResetSentNotice)
      ensures resetEmailSent == (old(resetEmailSent) || outcome == Returned(None))
      ensures !loading
      ensures email == old(email) && password == old(password) && showForgotPassword == old(showForgotPassword)
    {
      if outcome == Returned(None) {
        resetEmailSent := true;
      }
      notice := OutcomeNotice(outcome, "Error", ResetSentNotice);
      loading := false;
    }

    /** The "Forgot Password?" link. */
    method OpenForgotPassword()
      modifies this
      ensures showForgotPassword
      ensures email == old(email) && password == old(password)
      ensures loading == old(loading) && resetEmailSent == old(resetEmailSent)
    {
      showForgotPassword := true;
    }

    /** "Back to Login" on the confirmation card: both reset flags clear. */
    method BackToLoginFromSent()
      modifies this
      ensures !showForgotPassword && !resetEmailSent
      ensures ScreenOf(showForgotPassword, resetEmailSent) == LoginForm
      ensures email == old(email) && password == old(password) && loading == old(loading)
    {
      showForgotPassword := false;
      resetEmailSent := false;
    }

    /** The "Back to Login" link under the reset card: only the view flag
        clears, so a mail already sent is still remembered. */
    method BackToLogin()
      modifies this
      ensures !showForgotPassword && resetEmailSent == old(resetEmailSent)
      ensures ScreenOf(showForgotPassword, resetEmailSent) == LoginForm
      ensures email == old(email) && password == old(password) && loading == old(loading)
    {
      showForgotPassword := false;
    }
  }

  /** A whole sign-in: loading while the request is out, not after it. */
  method SignInFlow(page: AuthPageState, outcome: Outcome) returns (request: AuthRequest, notice: Notice)
    modifies page
    ensures request == SignIn(old(page.email), old(page.password))
    ensures notice == OutcomeNotice(outcome, "Authentication Error", Welcome)
    ensures !page.loading
  {
    request := page.StartSignIn();
    assert page.loading;
    notice := page.SettleSignIn(outcome);
  }

  /** A whole reset request with a non-empty email: after it, the reset
      view shows the confirmation exactly when the request returned no error
      (or one had already been sent), and loading has ended. */
  method ForgotPasswordFlow(page: AuthPageState, outcome: Outcome) returns (request: Option<AuthRequest>)
    requires page.email != "" && page.showForgotPassword && !page.resetEmailSent
    modifies page
    ensures request == Some(ResetPassword(old(page.email)))
    ensures ScreenOf(page.showForgotPassword, page.resetEmailSent) == (if outcome == Returned(None) then ResetSent else ResetForm)
    ensures !page.loading
  {
    var notices;
    request, notices := page.StartForgotPassword();
    var notice := page.SettleForgotPassword(outcome);
  }
}
