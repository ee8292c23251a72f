/** The login form (src/components/auth/login-form.tsx): e-mail and password,
    then a verification code, then the dashboard.

    The form has two stages, told apart by `showTwoFactor`. A first complete
    submission only reveals the code input; only a submission made while the
    code input is showing, with a non-empty code, logs in. The simulated
    network call is taken as instantaneous and successful. */
module Login {
  import opened Ui

  const CredentialsError := "Please enter your email and password"
  const CodeError := "Please enter your verification code"
  const LoginSucceeded := "Login successful"
  const DashboardPath := "/dashboard"
  const ForgotPasswordPath := "/forgot-password"
  const SignupPath := "/signup"

  /** What a successful login shows and where it leads. */
  const LoggedIn := SuccessAndNavigate(LoginSucceeded, DashboardPath)

  /** A snapshot of the form's state. */
  datatype Form = Form(
    email: string,
    password: string,
    rememberDevice: bool,
    showTwoFactor: bool,
    twoFactorCode: string,
    isLoading: bool)

  /** The state on first render. */
  const Initial := Form("", "", false, false, "", false)

  /** `disabled={isLoading || showTwoFactor}` on the e-mail and password inputs. */
  predicate CredentialsDisabled(f: Form)
    // between interactions, the inputs are locked exactly in the code stage
    ensures AtRest(f) ==> (CredentialsDisabled(f) <==> f.showTwoFactor)
  {
    f.isLoading || f.showTwoFactor
  }

  /** The code input is rendered only in the second stage and is
      `disabled={isLoading}`. */
  predicate CodeEditable(f: Form)
    // between interactions, the code can be typed exactly in the code stage
    ensures AtRest(f) ==> (CodeEditable(f) <==> f.showTwoFactor)
    // the code input and the credential inputs are never editable together
    ensures CodeEditable(f) ==> CredentialsDisabled(f)
  {
    f.showTwoFactor && !f.isLoading
  }

  /** `maxLength={6}` on the code input: longer input is cut to six characters. */
  const CodeMaxLength := 6

  function LimitCode(v: string): (r: string)
    ensures |r| <= CodeMaxLength && |r| <= |v|
    ensures r == v[..|r|]
    ensures |v| <= CodeMaxLength ==> r == v
    ensures |v| > CodeMaxLength ==> |r| == CodeMaxLength
  {
    if |v| <= CodeMaxLength then v else v[..CodeMaxLength]
  }

  /** What one call of `handleSubmit` does to the form, and what the user sees. */
  function Submit(f: Form): (r: (Form, Outcome))
    // the inputs are never touched by a submission
    ensures r.0.email == f.email && r.0.password == f.password
    ensures r.0.twoFactorCode == f.twoFactorCode && r.0.rememberDevice == f.rememberDevice
    // the empty-input guard rejects without changing anything
    ensures (f.email == "" || f.password == "") <==> r.1 == Error(CredentialsError)
    ensures (f.email == "" || f.password == "") ==> r.0 == f
    // the stage only moves forward, and only on complete credentials
    ensures r.0.showTwoFactor <==> f.showTwoFactor || (f.email != "" && f.password != "")
    // a complete first-stage submission just opens the second stage
    ensures !f.showTwoFactor && f.email != "" && f.password != "" ==> r.1 == Stay
    // the second stage rejects an empty code
    ensures r.1 == Error(CodeError) <==>
      f.showTwoFactor && f.email != "" && f.password != "" && f.twoFactorCode == ""
    // login happens exactly from the second stage with everything filled in
    ensures r.1.Leaves() <==>
      f.showTwoFactor && f.email != "" && f.password != "" && f.twoFactorCode != ""
    ensures r.1.Leaves() ==> r.1 == LoggedIn
    // once past the guard, the form is never left loading
    ensures r.1 != Error(CredentialsError) ==> !r.0.isLoading
  {
    if f.email == "" || f.password == "" then
      (f, Error(CredentialsError))
    else if !f.showTwoFactor then
      (f.(showTwoFactor := true, isLoading := false), Stay)
    else if f.twoFactorCode == "" then
      (f.(isLoading := false), Error(CodeError))
    else
      (f.(isLoading := false), LoggedIn)
  }

  /** The user's interactions with the form. */
  datatype Event =
    | TypeEmail(value: string)
    | TypePassword(value: string)
    | TypeCode(value: string)
    | CheckRemember(checked: bool)
    | SubmitForm
    | ForgotPassword  // the "Forgot password?" link button
    | CreateAccount   // the "Create one" link button

  /** One interaction. Typing into a disabled input has no effect. */
  function Step(f: Form, e: Event): (r: (Form, Outcome))
    ensures f.showTwoFactor ==> r.0.showTwoFactor
    ensures f.showTwoFactor ==> r.0.email == f.email && r.0.password == f.password
    // the two link buttons navigate away at any time and touch nothing
    ensures e == ForgotPassword ==> r == (f, Navigate(ForgotPasswordPath))
    ensures e == CreateAccount ==> r == (f, Navigate(SignupPath))
    // only a submission in the code stage reaches the dashboard
    ensures r.1.Leaves() && r.1.path == DashboardPath ==> e == SubmitForm && f.showTwoFactor
    ensures r.1.Leaves() ==> r.1 in {LoggedIn, Navigate(ForgotPasswordPath), Navigate(SignupPath)}
    ensures !e.SubmitForm? ==> r.0.showTwoFactor == f.showTwoFactor
    ensures e.TypeEmail? || e.TypePassword? || e.TypeCode? || e.CheckRemember? ==> r.1 == Stay
  {
    match e
    case TypeEmail(v) => (if CredentialsDisabled(f) then f else f.(email := v), Stay)
    case TypePassword(v) => (if CredentialsDisabled(f) then f else f.(password := v), Stay)
    case TypeCode(v) => (if CodeEditable(f) then f.(twoFactorCode := LimitCode(v)) else f, Stay)
    case CheckRemember(b) => (if f.isLoading then f else f.(rememberDevice := b), Stay)
    case SubmitForm => Submit(f)
    case ForgotPassword => (f, Navigate(ForgotPasswordPath))
    case CreateAccount => (f, Navigate(SignupPath))
  }

  /** A sequence of interactions: the final form and every outcome in order. */
  function Run(f: Form, es: seq<Event>): (r: (Form, seq<Outcome>))
    ensures |r.1| == |es|
    // a run without submissions never leaves the credentials stage
    ensures CountSubmits(es) == 0 ==> r.0.showTwoFactor == f.showTwoFactor
    decreases es
  {
    if es == [] then (f, [])
    else
      var (f1, o) := Step(f, es[0]);
      var (fn, os) := Run(f1, es[1..]);
      (fn, [o] + os)
  }

  function CountSubmits(es: seq<Event>): nat
  {
    if es == [] then 0 else (if es[0].SubmitForm? then 1 else 0) + CountSubmits(es[1..])
  }

  /** The state every reachable form is in between interactions: not loading,
      no code typed before the code input has appeared, and no code longer
      than the input accepts. */
  predicate AtRest(f: Form)
  {
    && !f.isLoading
    && (!f.showTwoFactor ==> f.twoFactorCode == "")
    && |f.twoFactorCode| <= CodeMaxLength
  }

  class LoginForm {
    var email: string
    var password: string
    var rememberDevice: bool
    var showTwoFactor: bool
    var twoFactorCode: string
    var isLoading: bool

    function Snapshot(): Form
      reads this
    {
      Form(email, password, rememberDevice, showTwoFactor, twoFactorCode, isLoading)
    }

    constructor ()
      ensures Snapshot() == Initial
    {
      email, password, rememberDevice := "", "", false;
      showTwoFactor, twoFactorCode, isLoading := false, "", false;
    }

    /** The e-mail input's `onChange`, which a disabled input never fires. */
    method TypeEmail(value: string)
      modifies this
      ensures Snapshot() == Step(old(Snapshot()), Event.TypeEmail(value)).0
    {
      if !(isLoading || showTwoFactor) {
        email := value;
      }
    }

    /** The password input's `onChange`. */
    method TypePassword(value: string)
      modifies this
      ensures Snapshot() == Step(old(Snapshot()), Event.TypePassword(value)).0
    {
      if !(isLoading || showTwoFactor) {
        password := value;
      }
    }

    /** The code input's `onChange`; the input exists only in the second stage. */
    method TypeCode(value: string)
      modifies this
      ensures Snapshot() == Step(old(Snapshot()), Event.TypeCode(value)).0
    {
      if showTwoFactor && !isLoading {
        twoFactorCode := LimitCode(value);
      }
    }

    /** The "Remember this device" checkbox. */
    method CheckRemember(checked: bool)
      modifies this
      ensures Snapshot() == Step(old(Snapshot()), Event.CheckRemember(checked)).0
    {
      if !isLoading {
        rememberDevice := checked;
      }
    }

    /** `handleSubmit`, with the awaited delay taken as instantaneous. */
    method HandleSubmit() returns (r: Outcome)
      modifies this
      ensures (Snapshot(), r) == Submit(old(Snapshot()))
    {
      if email == "" || password == "" {
        return Error(CredentialsError);
      }

      isLoading := true;

      // try: the awaited delay is taken as instantaneous and successful
      if !showTwoFactor {
        showTwoFactor := true;
        isLoading := false;
        r := Stay;
      } else if showTwoFactor && twoFactorCode == "" {
        isLoading := false;
        r := Error(CodeError);
      } else {
        r := LoggedIn;
      }

      // finally: runs after the early returns of the try block as well
      isLoading := false;
    }
  }

  // ---------------------------------------------------------------------------
  // Properties
  // ---------------------------------------------------------------------------

  /** An empty e-mail or password is rejected with the credentials error and
      leaves every field, `isLoading` included, as it was. */
  lemma EmptyCredentialsChangeNothing(f: Form)
    requires f.email == "" || f.password == ""
    ensures Submit(f) == (f, Error(CredentialsError))
  {
  }

  /** The first complete submission never logs in: it opens the code stage
      and leaves the form idle. */
  lemma FirstSubmitOnlyOpensCodeStage(f: Form)
    requires !f.showTwoFactor && f.email != "" && f.password != ""
    ensures Submit(f).1 == Stay
    ensures Submit(f).0 == f.(showTwoFactor := true, isLoading := false)
  {
  }

  /** Interactions keep a form at rest. */
  lemma StepKeepsAtRest(f: Form, e: Event)
    requires AtRest(f)
    ensures AtRest(Step(f, e).0)
  {
  }

  /** Every form reachable from a form at rest, the initial one included, is at rest. */
  lemma {:induction false} RunKeepsAtRest(f: Form, es: seq<Event>)
    requires AtRest(f)
    ensures AtRest(Run(f, es).0)
    ensures AtRest(Initial)
    decreases es
  {
    if es != [] {
      StepKeepsAtRest(f, es[0]);
      RunKeepsAtRest(Step(f, es[0]).0, es[1..]);
    }
  }

  /** Once the code stage is open it stays open, and the e-mail and password
      it was opened with are the ones any later login uses. */
  lemma {:induction false} SecondStageIsFinal(f: Form, es: seq<Event>)
    requires f.showTwoFactor
    ensures Run(f, es).0.showTwoFactor
    ensures Run(f, es).0.email == f.email && Run(f, es).0.password == f.password
    decreases es
  {
    if es != [] {
      SecondStageIsFinal(Step(f, es[0]).0, es[1..]);
    }
  }

  /** How many submissions a login still needs from `f`. */
  function SubmitsToLogin(f: Form): nat { if f.showTwoFactor then 1 else 2 }

  /** A login at position `k` of a run needs at least `SubmitsToLogin(f)`
      submissions up to and including `k`. */
  lemma {:induction false} LoginNeedsSubmits(f: Form, es: seq<Event>, k: nat)
    requires k < |es|
    requires Run(f, es).1[k] == LoggedIn
    ensures CountSubmits(es[..k + 1]) >= SubmitsToLogin(f)
    decreases es
  {
    var (f1, o) := Step(f, es[0]);
    assert es[..k + 1][0] == es[0];
    if k == 0 {
      assert o.Leaves() && o.path == DashboardPath;
      assert es[0] == SubmitForm;
    } else {
      assert es[..k + 1][1..] == es[1..][..k];
      LoginNeedsSubmits(f1, es[1..], k - 1);
    }
  }

  /** From the freshly rendered form, reaching the dashboard takes two
      submissions: the first only reveals the code input. */
  lemma LoginTakesTwoSubmits(es: seq<Event>, k: nat)
    requires k < |es|
    requires Run(Initial, es).1[k].Leaves() && Run(Initial, es).1[k].path == DashboardPath
    ensures CountSubmits(es[..k + 1]) >= 2
    ensures Run(Initial, es).1[k] == LoggedIn
  {
    OnlyLoginReachesDashboard(Initial, es, k);
    LoginNeedsSubmits(Initial, es, k);
  }

  /** Every navigation a run produces is either one of the two link buttons
      or the successful login, and the dashboard is reached only by the
      login. */
  lemma {:induction false} OnlyLoginReachesDashboard(f: Form, es: seq<Event>, k: nat)
    requires k < |es|
    requires Run(f, es).1[k].Leaves()
    ensures Run(f, es).1[k] in {LoggedIn, Navigate(ForgotPasswordPath), Navigate(SignupPath)}
    ensures Run(f, es).1[k].path == DashboardPath ==> Run(f, es).1[k] == LoggedIn
    ensures Run(f, es).1[k] == Navigate(ForgotPasswordPath) ==> es[k] == ForgotPassword
    ensures Run(f, es).1[k] == Navigate(SignupPath) ==> es[k] == CreateAccount
    decreases es
  {
    if k > 0 {
      OnlyLoginReachesDashboard(Step(f, es[0]).0, es[1..], k - 1);
    }
  }
}
