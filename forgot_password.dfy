/** The password-reset page: email, then the emailed code, then a new
    password, then a success screen. */
module ForgotPassword {
  import opened PasswordRules

  datatype Step = EmailStep | OtpStep | PasswordStep | Success

  function Rank(s: Step): nat {
    match s
    case EmailStep => 0
    case OtpStep => 1
    case PasswordStep => 2
    case Success => 3
  }

  /** The one-time code is six characters. */
  predicate OtpAccepted(otp: string) {
    |otp| == 6
  }

  /** The new password is strong and confirmed. */
  predicate PasswordAccepted(newPassword: string, confirm: string) {
    StrongPassword(newPassword) && confirm != "" && confirm == newPassword
  }

  /** The back-to-login link is shown on every step but the last. */
  predicate ShowBackLink(s: Step) {
    s != Success
  }

  /** The three forms, one per step before the last. */
  datatype Form = EmailForm | OtpForm | PasswordForm

  /** The form a step shows. */
  function FormOf(s: Step): (f: Form)
    requires s != Success
  {
    match s
    case EmailStep => EmailForm
    case OtpStep => OtpForm
    case PasswordStep => PasswordForm
  }

  /** The step a form's handler moves to when the request succeeds. */
  function Advance(f: Form): (s: Step)
    ensures Rank(s) == (match f case EmailForm => 1 case OtpForm => 2 case PasswordForm => 3)
  {
    match f
    case EmailForm => OtpStep
    case OtpForm => PasswordStep
    case PasswordForm => Success
  }

  /** A submission of the form on screen: the step advances on success and stays
      on failure. */
  function Submitted(s: Step, ok: bool): (r: Step)
    ensures s == Success ==> r == Success
    ensures s != Success && ok ==> Rank(r) == Rank(s) + 1
    ensures !ok ==> r == s
  {
    if s == Success || !ok then s else Advance(FormOf(s))
  }

  /** The step after a run of submissions, each succeeding or failing. */
  function Run(s: Step, outcomes: seq<bool>): Step
    decreases |outcomes|
  {
    if outcomes == [] then s else Run(Submitted(s, outcomes[0]), outcomes[1..])
  }

  function Successes(outcomes: seq<bool>): nat {
    if outcomes == [] then 0 else (if outcomes[0] then 1 else 0) + Successes(outcomes[1..])
  }

  /** Steps never go back, and each step forward takes a successful request:
      the success screen needs three. */
  lemma {:induction false} RunAdvances(s: Step, outcomes: seq<bool>)
    ensures Rank(s) <= Rank(Run(s, outcomes))
    ensures Rank(Run(s, outcomes)) <= Rank(s) + Successes(outcomes)
    decreases |outcomes|
  {
    if outcomes != [] {
      RunAdvances(Submitted(s, outcomes[0]), outcomes[1..]);
    }
  }

  lemma ReachSuccess(outcomes: seq<bool>)
    requires Run(EmailStep, outcomes) == Success
    ensures Successes(outcomes) >= 3
  {
    RunAdvances(EmailStep, outcomes);
  }

  class ResetFlow {
    var step: Step
    var isLoading: bool
    var email: string
    var otp: string

    constructor()
      ensures step == EmailStep && !isLoading && email == "" && otp == ""
    {
      step := EmailStep;
      isLoading := false;
      email := "";
      otp := "";
    }

    /** `handleEmailSubmit`; `ok` is whether the request succeeded. Returns
        whether the page showed loading while the request ran. */
    method SubmitEmail(value: string, ok: bool) returns (loadingDuringRequest: bool)
      modifies this
      ensures loadingDuringRequest && !isLoading
      ensures ok ==> step == OtpStep && email == value
      ensures !ok ==> step == old(step) && email == old(email)
      ensures otp == old(otp)
    {
      isLoading := true;
      loadingDuringRequest := isLoading;
      if ok {
        email := value;
        step := OtpStep;
      }
      isLoading := false;
    }

    /** `handleOtpSubmit`. */
    method SubmitOtp(value: string, ok: bool) returns (loadingDuringRequest: bool)
      modifies this
      ensures loadingDuringRequest && !isLoading
      ensures ok ==> step == PasswordStep && otp == value
      ensures !ok ==> step == old(step) && otp == old(otp)
      ensures email == old(email)
    {
      isLoading := true;
      loadingDuringRequest := isLoading;
      if ok {
        otp := value;
        step := PasswordStep;
      }
      isLoading := false;
    }

    /** `handlePasswordSubmit`. */
    method SubmitPassword(ok: bool) returns (loadingDuringRequest: bool)
      modifies this
      ensures loadingDuringRequest && !isLoading
      ensures ok ==> step == Success
      ensures !ok ==> step == old(step)
      ensures email == old(email) && otp == old(otp)
    {
      isLoading := true;
      loadingDuringRequest := isLoading;
      if ok {
        step := Success;
      }
      isLoading := false;
    }

    /** Submitting the form the current step shows moves the step as
        `Submitted` says. */
    method SubmitShown(value: string, ok: bool)
      requires step != Success
      modifies this
      ensures step == Submitted(old(step), ok)
      ensures !isLoading
    {
      match step
      case EmailStep => var _ := SubmitEmail(value, ok);
      case OtpStep => var _ := SubmitOtp(value, ok);
      case PasswordStep => var _ := SubmitPassword(ok);
    }
  }
}
