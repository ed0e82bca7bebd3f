/** The resend countdown shared by the two one-time-code dialogs
    (src/components/auth/forgot_password_content.tsx and
    src/components/auth/validate_email_content.tsx): a number of seconds left and a
    `canResend` flag. Each firing of the one-second interval is one `Tick`; the interval
    only exists while the dialog is on its code step and seconds are left. */
module OtpTimer {
  /** The seconds a user waits before a new code can be asked for. */
  const ResendDelay: nat := 60

  datatype Timer = Timer(countdown: int, canResend: bool)

  /** The state after the dialog opens, after a code is sent and after a resend. */
  function Start(): Timer {
    Timer(ResendDelay, false)
  }

  /** The countdown stays within its range and the resend flag is up exactly at zero. */
  predicate Valid(t: Timer) {
    0 <= t.countdown <= ResendDelay && (t.canResend <==> t.countdown == 0)
  }

  /** One firing of the interval: when it runs and seconds are left, one second goes, and
      the flag goes up on the step from 1 to 0; otherwise no interval exists and nothing
      changes. */
  function Tick(t: Timer, running: bool): (r: Timer)
    ensures Valid(t) ==> Valid(r)
    ensures r.countdown == if running && t.countdown > 0 then t.countdown - 1 else t.countdown
    ensures (!t.canResend && r.canResend) <==> (running && t.countdown == 1 && !t.canResend)
    ensures t.canResend ==> r.canResend
  {
    if running && t.countdown > 0 then
      Timer(t.countdown - 1, if t.countdown == 1 then true else t.canResend)
    else t
  }

  /** `k` firings in a row while the code step is shown. */
  function Ticks(t: Timer, k: nat): Timer
    decreases k
  {
    if k == 0 then t else Tick(Ticks(t, k - 1), true)
  }

  /** From a fresh start, a resend is offered after exactly `ResendDelay` firings, and the
      countdown never goes below zero. */
  lemma {:induction false} TicksFromStart(k: nat)
    ensures Ticks(Start(), k) == if k >= ResendDelay then Timer(0, true) else Timer(ResendDelay - k, false)
    decreases k
  {
    if k > 0 {
      TicksFromStart(k - 1);
    }
  }

  /** Ticks keep the timer valid. */
  lemma {:induction false} TicksKeepValid(t: Timer, k: nat)
    requires Valid(t)
    ensures Valid(Ticks(t, k))
    decreases k
  {
    if k > 0 {
      TicksKeepValid(t, k - 1);
    }
  }

  /** What the code step shows under the code field: the resend button, or the seconds left. */
  datatype ResendControl = ResendButton | CountdownLabel(seconds: int)

  function Control(t: Timer): (r: ResendControl)
    ensures r.ResendButton? <==> t.canResend
    ensures r.CountdownLabel? ==> r.seconds == t.countdown
  {
    if t.canResend then ResendButton else CountdownLabel(t.countdown)
  }

  /** On a valid timer the button replaces the label exactly when the countdown is over. */
  lemma ResendShownIffZero(t: Timer)
    requires Valid(t)
    ensures Control(t).ResendButton? <==> t.countdown == 0
    ensures Control(t).CountdownLabel? ==> 0 < Control(t).seconds <= ResendDelay
  {
  }
}
