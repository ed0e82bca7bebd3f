/** The forgot-password dialog (src/components/auth/forgot_password_content.tsx): a wizard
    that goes from the e-mail step to the code step to the new-password step, with the
    resend countdown on the code step and the save rule on the last step. The backend
    calls are not made by the component, so no handler fails. The parent's `onClose` is
    the result `close` of the handlers that call it. */
module ForgotPassword {
  import opened OtpTimer

  datatype Step = Email | Otp | NewPassword

  /** The order of the steps. */
  function Rank(step: Step): nat {
    match step
    case Email => 0
    case Otp => 1
    case NewPassword => 2
  }

  /** The state the handlers read and write. */
  datatype Form = Form(step: Step, timer: Timer, newPassword: string, confirmPassword: string)

  /** What the user can do: press a button, type into a password field, or let a second pass. */
  datatype Event =
    | SendEmail
    | ResendOtp
    | ValidateOtp
    | SavePassword
    | TypeNewPassword(text: string)
    | TypeConfirmPassword(text: string)
    | Second

  function Initial(): Form {
    Form(Email, Start(), "", "")
  }

  /** The mismatch warning: both fields filled in and different. */
  predicate MismatchShown(newPassword: string, confirmPassword: string) {
    newPassword != "" && confirmPassword != "" && newPassword != confirmPassword
  }

  /** The save button is not disabled: neither field is empty and they agree. */
  predicate SaveEnabled(newPassword: string, confirmPassword: string) {
    !(newPassword == "" || confirmPassword == "" || newPassword != confirmPassword)
  }

  /** Saving is possible exactly when both fields hold the same non-empty password, and then
      no warning is shown; with both filled in, exactly one of the two holds. */
  lemma SaveRule(newPassword: string, confirmPassword: string)
    ensures SaveEnabled(newPassword, confirmPassword) <==> newPassword != "" && newPassword == confirmPassword
    ensures SaveEnabled(newPassword, confirmPassword) ==> !MismatchShown(newPassword, confirmPassword)
    ensures newPassword != "" && confirmPassword != "" ==>
              (SaveEnabled(newPassword, confirmPassword) <==> !MismatchShown(newPassword, confirmPassword))
  {
  }

  /** An event has an effect only when the control it comes from is on screen: each button
      and field belongs to one step, the resend button needs `canResend`, the save button is
      disabled unless `SaveEnabled`; the interval runs on the code step. */
  predicate Enabled(f: Form, e: Event) {
    match e
    case SendEmail => f.step == Email
    case ResendOtp => f.step == Otp && f.timer.canResend
    case ValidateOtp => f.step == Otp
    case SavePassword => f.step == NewPassword && SaveEnabled(f.newPassword, f.confirmPassword)
    case TypeNewPassword(_) => f.step == NewPassword
    case TypeConfirmPassword(_) => f.step == NewPassword
    case Second => true
  }

  /** The form after an event. */
  function Next(f: Form, e: Event): (g: Form)
    ensures !Enabled(f, e) ==> g == f
    ensures Rank(g.step) >= Rank(f.step)
  {
    if !Enabled(f, e) then f
    else
      match e
      case SendEmail => f.(step := Otp, timer := Start())
      case ResendOtp => f.(timer := Start())
      case ValidateOtp => f.(step := NewPassword)
      case SavePassword => f
      case TypeNewPassword(text) => f.(newPassword := text)
      case TypeConfirmPassword(text) => f.(confirmPassword := text)
      case Second => f.(timer := Tick(f.timer, f.step == Otp))
  }

  /** Whether the event calls `onClose`. */
  function Closes(f: Form, e: Event): bool {
    e == SavePassword && Enabled(f, e)
  }

  /** The forms a run of events goes through, ending in the last one. */
  function Run(f: Form, events: seq<Event>): Form
    decreases |events|
  {
    if events == [] then f else Next(Run(f, events[..|events| - 1]), events[|events| - 1])
  }

  /** The timer is valid and stays at its start value on the e-mail step. */
  predicate Valid(f: Form) {
    OtpTimer.Valid(f.timer) && (f.step == Email ==> f.timer == Start())
  }

  lemma NextKeepsValid(f: Form, e: Event)
    requires Valid(f)
    ensures Valid(Next(f, e))
  {
  }

  /** Every form the dialog can reach is valid. */
  lemma {:induction false} ReachableValid(events: seq<Event>)
    ensures Valid(Run(Initial(), events))
    decreases |events|
  {
    if events != [] {
      ReachableValid(events[..|events| - 1]);
      NextKeepsValid(Run(Initial(), events[..|events| - 1]), events[|events| - 1]);
    }
  }

  /** No sequence of events brings the wizard back to an earlier step. */
  lemma {:induction false} StepsForwardOnly(f: Form, events: seq<Event>)
    ensures Rank(Run(f, events).step) >= Rank(f.step)
    decreases |events|
  {
    if events != [] {
      StepsForwardOnly(f, events[..|events| - 1]);
    }
  }

  /** Sending the e-mail moves to the code step with a fresh countdown of 60 seconds, the
      resend button hidden, and the password fields as they were. */
  lemma SendStartsCountdown(f: Form)
    requires f.step == Email
    ensures Next(f, SendEmail) == f.(step := Otp, timer := Timer(60, false))
    ensures Control(Next(f, SendEmail).timer) == CountdownLabel(60)
  {
  }

  /** A resend, offered once the countdown is over, puts it back to 60 seconds and hides the
      button again, staying on the code step with the password fields as they were. */
  lemma ResendRestartsCountdown(f: Form)
    requires Enabled(f, ResendOtp)
    ensures Next(f, ResendOtp) == f.(timer := Timer(60, false))
    ensures Next(f, ResendOtp).step == Otp
    ensures Control(Next(f, ResendOtp).timer) == CountdownLabel(60)
  {
  }

  /** The code is never checked: any code leads from the code step to the new-password step,
      with the countdown and the password fields as they were. */
  lemma ValidateOtpAlwaysAdvances(f: Form)
    requires f.step == Otp
    ensures Next(f, ValidateOtp) == f.(step := NewPassword)
  {
  }

  /** Sending the code and then letting `k` seconds pass gives the timer `k` firings from a
      fresh start. */
  lemma {:induction false} SecondsAfterSend(f: Form, k: nat)
    requires f.step == Email
    ensures Run(f, [SendEmail] + Seconds(k)).timer == Ticks(Start(), k)
    ensures Run(f, [SendEmail] + Seconds(k)).step == Otp
    decreases k
  {
    if k > 0 {
      SecondsAfterSend(f, k - 1);
      assert ([SendEmail] + Seconds(k))[..k] == [SendEmail] + Seconds(k - 1);
    }
  }

  function Seconds(k: nat): (r: seq<Event>)
    ensures |r| == k && forall i :: 0 <= i < k ==> r[i] == Second
  {
    if k == 0 then [] else Seconds(k - 1) + [Second]
  }

  /** The component, one field per piece of state the handlers touch. */
  class ForgotPasswordDialog {
    var step: Step
    var countdown: int
    var canResend: bool
    var newPassword: string
    var confirmPassword: string

    function State(): Form
      reads this
    {
      Form(step, Timer(countdown, canResend), newPassword, confirmPassword)
    }

    constructor ()
      ensures State() == Initial()
    {
      step, countdown, canResend := Email, ResendDelay, false;
      newPassword, confirmPassword := "", "";
    }

    /** `handleSendEmail` */
    method HandleSendEmail()
      requires Enabled(State(), SendEmail)
      modifies this
      ensures State() == Next(old(State()), SendEmail)
    {
      step := Otp;
      countdown := 60;
      canResend := false;
    }

    /** `handleResendOTP` */
    method HandleResendOtp()
      requires Enabled(State(), ResendOtp)
      modifies this
      ensures State() == Next(old(State()), ResendOtp)
    {
      countdown := 60;
      canResend := false;
    }

    /** `handleValidateOTP` */
    method HandleValidateOtp()
      requires Enabled(State(), ValidateOtp)
      modifies this
      ensures State() == Next(old(State()), ValidateOtp)
    {
      step := NewPassword;
    }

    /** `handleSavePassword`: closes the dialog. */
    method HandleSavePassword() returns (close: bool)
      requires Enabled(State(), SavePassword)
      ensures close == Closes(State(), SavePassword)
    {
      close := true;
    }

    method SetNewPassword(text: string)
      requires Enabled(State(), TypeNewPassword(text))
      modifies this
      ensures State() == Next(old(State()), TypeNewPassword(text))
    {
      newPassword := text;
    }

    method SetConfirmPassword(text: string)
      requires Enabled(State(), TypeConfirmPassword(text))
      modifies this
      ensures State() == Next(old(State()), TypeConfirmPassword(text))
    {
      confirmPassword := text;
    }

    /** One firing of the interval set up by the countdown effect. */
    method OnSecond()
      modifies this
      ensures State() == Next(old(State()), Second)
    {
      if step == Otp && countdown > 0 {
        if countdown == 1 {
          canResend := true;
        }
        countdown := countdown - 1;
      }
    }
  }
}
