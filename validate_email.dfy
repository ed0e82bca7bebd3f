/** The e-mail validation dialog (src/components/auth/validate_email_content.tsx): a wizard
    from the e-mail step to the code step, with the resend countdown on the code step. The
    backend calls are not made by the component; the parent's `onClose` is the result
    `close` of the handler that calls it. */
module ValidateEmail {
  import opened OtpTimer

  datatype Step = Email | Otp

  datatype Form = Form(step: Step, timer: Timer)

  /** A button press, or a second passing. */
  datatype Event = SendCode | ResendCode | Validate | Second

  function Initial(): Form {
    Form(Email, Start())
  }

  /** A button has an effect only while it is on screen: sending on the e-mail step, the
      others on the code step, the resend button only with `canResend`. */
  predicate Enabled(f: Form, e: Event) {
    match e
    case SendCode => f.step == Email
    case ResendCode => f.step == Otp && f.timer.canResend
    case Validate => f.step == Otp
    case Second => true
  }

  /** The form after an event; validating leaves it as it is and closes the dialog. */
  function Next(f: Form, e: Event): (g: Form)
    ensures !Enabled(f, e) ==> g == f
    ensures f.step == Otp ==> g.step == Otp
    ensures e == Validate ==> g == f
  {
    if !Enabled(f, e) then f
    else
      match e
      case SendCode => Form(Otp, Start())
      case ResendCode => f.(timer := Start())
      case Validate => f
      case Second => f.(timer := Tick(f.timer, f.step == Otp))
  }

  /** Sending the code moves to the code step with a fresh countdown of 60 seconds and the
      resend button hidden. */
  lemma SendStartsCountdown(f: Form)
    requires f.step == Email
    ensures Next(f, SendCode) == Form(Otp, Timer(60, false))
    ensures Control(Next(f, SendCode).timer) == CountdownLabel(60)
  {
  }

  /** A resend, offered once the countdown is over, puts it back to 60 seconds and hides the
      button again, staying on the code step. */
  lemma ResendRestartsCountdown(f: Form)
    requires Enabled(f, ResendCode)
    ensures Next(f, ResendCode) == Form(Otp, Timer(60, false))
    ensures Control(Next(f, ResendCode).timer) == CountdownLabel(60)
  {
  }

  function Run(f: Form, events: seq<Event>): Form
    decreases |events|
  {
    if events == [] then f else Next(Run(f, events[..|events| - 1]), events[|events| - 1])
  }

  predicate Valid(f: Form) {
    OtpTimer.Valid(f.timer) && (f.step == Email ==> f.timer == Start())
  }

  /** Every form the dialog can reach is valid. */
  lemma {:induction false} ReachableValid(events: seq<Event>)
    ensures Valid(Run(Initial(), events))
    decreases |events|
  {
    if events != [] {
      ReachableValid(events[..|events| - 1]);
    }
  }

  /** Once on the code step, the dialog stays there. */
  lemma {:induction false} StepsForwardOnly(f: Form, events: seq<Event>)
    requires f.step == Otp
    ensures Run(f, events).step == Otp
    decreases |events|
  {
    if events != [] {
      StepsForwardOnly(f, events[..|events| - 1]);
    }
  }

  /** A resend is offered exactly when the countdown is over, on every reachable form. */
  lemma ReachableResendIffZero(events: seq<Event>)
    ensures var f := Run(Initial(), events);
            Control(f.timer).ResendButton? <==> f.timer.countdown == 0
  {
    ReachableValid(events);
    ResendShownIffZero(Run(Initial(), events).timer);
  }

  class ValidateEmailDialog {
    var step: Step
    var countdown: int
    var canResend: bool

    function State(): Form
      reads this
    {
      Form(step, Timer(countdown, canResend))
    }

    constructor ()
      ensures State() == Initial()
    {
      step, countdown, canResend := Email, ResendDelay, false;
    }

    /** `handleSendEmail` */
    method HandleSendEmail()
      requires Enabled(State(), SendCode)
      modifies this
      ensures State() == Next(old(State()), SendCode)
    {
      step := Otp;
      countdown := 60;
      canResend := false;
    }

    /** `handleResendOTP` */
    method HandleResendOtp()
      requires Enabled(State(), ResendCode)
      modifies this
      ensures State() == Next(old(State()), ResendCode)
    {
      countdown := 60;
      canResend := false;
    }

    /** `handleValidateOTP`: closes the dialog whatever code was typed. `code` is the text of
      the code field; it is never read, which is the point: no code is checked. */
    method HandleValidateOtp(code: string) returns (close: bool)
      requires Enabled(State(), Validate)
      ensures close
    {
      close := true;
    }

    /** One firing of the interval set up by the countdown effect. */
    method OnSecond()
      modifies this
      ensures State() == Next(old(State()), Second)
    {
      if step == Otp && countdown > 0 {
        if countdown == 1 {
          canResend := true;
        }
        countdown := countdown - 1;
      }
    }
  }
}
