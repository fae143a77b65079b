/** The ABHA-ID linking dialog (src/components/AbhaLinkingDialog.tsx): the
    ABHA-ID and mobile-number validators, the mobile input's digit filter,
    the abha -> mobile -> otp -> success step flow and the OTP resend
    countdown. Each simulated network delay splits its handler in two: the
    part before the delay and its continuation, which may run after any
    other handler. How long the delays last is not modelled. */
module AbhaLinking {
  import opened JsStrings

  datatype Step = Abha | Mobile | Otp | Success

  /** /^\d{14}$/ */
  predicate NumericAbhaId(id: string) {
    |id| == 14 && AllDigits(id)
  }

  /** Positions of the dashes in the formatted ABHA ID. */
  predicate IsDashPosition(i: int) {
    i == 2 || i == 7 || i == 12
  }

  /** /^\d{2}-\d{4}-\d{4}-\d{4}$/ */
  predicate FormattedAbhaId(id: string) {
    |id| == 17 &&
    forall i :: 0 <= i < 17 ==> if IsDashPosition(i) then id[i] == '-' else IsDigit(id[i])
  }

  /** `validateAbhaId`: fourteen digits, or the dashed 2-4-4-4 form. */
  function ValidateAbhaId(id: string): (ok: bool)
    ensures ok ==> |id| == 14 || |id| == 17
    ensures ok ==> forall i :: 0 <= i < |id| ==> IsDigit(id[i]) || id[i] == '-'
  {
    NumericAbhaId(id) || FormattedAbhaId(id)
  }

  /** Four digit groups of lengths 2, 4, 4, 4 joined by dashes form a valid
      ABHA ID. */
  lemma FormattedFromGroups(a: string, b: string, c: string, d: string)
    requires |a| == 2 && |b| == 4 && |c| == 4 && |d| == 4
    requires AllDigits(a) && AllDigits(b) && AllDigits(c) && AllDigits(d)
    ensures ValidateAbhaId(a + "-" + b + "-" + c + "-" + d)
  {
    var id := a + "-" + b + "-" + c + "-" + d;
    assert FormattedAbhaId(id) by {
      forall i | 0 <= i < 17
        ensures if IsDashPosition(i) then id[i] == '-' else IsDigit(id[i])
      {
        if i < 2 { assert id[i] == a[i]; }
        else if 2 < i < 7 { assert id[i] == b[i - 3]; }
        else if 7 < i < 12 { assert id[i] == c[i - 8]; }
        else if 12 < i { assert id[i] == d[i - 13]; }
      }
    }
  }

  /** Conversely, every dashed ABHA ID is such a join of four digit groups. */
  lemma FormattedSplitsIntoGroups(id: string)
    requires FormattedAbhaId(id)
    ensures AllDigits(id[..2]) && AllDigits(id[3..7]) && AllDigits(id[8..12]) && AllDigits(id[13..])
    ensures id == id[..2] + "-" + id[3..7] + "-" + id[8..12] + "-" + id[13..]
  {
    assert forall i :: 0 <= i < 2 ==> id[..2][i] == id[i];
    assert forall i :: 0 <= i < 4 ==> id[3..7][i] == id[i + 3] && id[8..12][i] == id[i + 8] && id[13..][i] == id[i + 13];
  }

  /** `validateMobile`: /^[6-9]\d{9}$/. */
  function ValidateMobile(number: string): (ok: bool)
    ensures ok ==> |number| == 10 && Trim(number) == number
  {
    var ok := |number| == 10 && '6' <= number[0] <= '9' && AllDigits(number);
    if ok then DigitsAreTrimmed(number); ok else ok
  }

  /** `replace(/\D/g, "")`: the digits of `s`, in order. */
  function OnlyDigits(s: string): (r: string)
    ensures AllDigits(r) && |r| <= |s|
    ensures AllDigits(s) ==> r == s
  {
    if s == [] then []
    else (if IsDigit(s[0]) then [s[0]] else []) + OnlyDigits(s[1..])
  }

  /** The mobile input's change handler: keep the digits, then at most the
      first ten of them. */
  function FilterMobileInput(raw: string): (r: string)
    ensures AllDigits(r) && |r| <= 10
    ensures |r| == Min(10, |OnlyDigits(raw)|) && r == OnlyDigits(raw)[..|r|]
  {
    var digits := OnlyDigits(raw);
    if |digits| <= 10 then digits else digits[..10]
  }

  function Min(a: int, b: int): int { if a <= b then a else b }

  /** Filtering an already filtered value changes nothing. */
  lemma FilterMobileInputIdempotent(raw: string)
    ensures FilterMobileInput(FilterMobileInput(raw)) == FilterMobileInput(raw)
  {
  }

  /** One tick of the resend countdown: never negative, one less while
      positive, and the interval stops once it reaches 0. */
  function TimerTick(prev: int): (next: int)
    ensures next >= 0
    ensures prev > 0 ==> next == prev - 1
    ensures prev <= 0 ==> next == 0
  {
    if prev <= 1 then 0 else prev - 1
  }

  /** The countdown after `k` ticks. */
  function TicksFrom(t: int, k: nat): int
    decreases k
  {
    if k == 0 then t else TicksFrom(TimerTick(t), k - 1)
  }

  /** From a non-negative value the countdown after `k` ticks is max(0, t - k). */
  lemma {:induction false} TicksCountDown(t: int, k: nat)
    requires t >= 0
    ensures TicksFrom(t, k) == if t >= k then t - k else 0
  {
    if k > 0 {
      TicksCountDown(TimerTick(t), k - 1);
    }
  }

  /** The 30-second countdown is still running after fewer than 30 ticks and
      reaches 0 at the 30th. */
  lemma ResendCountdownTakes30Ticks(k: nat)
    ensures k < 30 ==> TicksFrom(30, k) > 0
    ensures k >= 30 ==> TicksFrom(30, k) == 0
  {
    TicksCountDown(30, k);
  }

  const ResendSeconds := 30

  /** What a submit handler reported (the toast it raised). */
  datatype SubmitOutcome = EmptyInput | InvalidInput | Accepted

  /** The dialog's state. Each `async` handler is split at its `await`: the
      handler runs the checks and starts the delay, and a separate method
      is the continuation that runs when the delay ends. Nothing cancels a
      pending continuation or timeout, and closing the dialog is never
      disabled, so a continuation may run on a form that was reset in the
      meantime. */
  class AbhaDialog {
    var dialogOpen: bool
    var step: Step
    var abhaId: string
    var mobileNumber: string
    var otp: string
    var isLoading: bool
    var resendTimer: int
    /** Number of times `onLinkSuccess` has been called. */
    var linkSuccessCalls: nat
    /** `handleSendOtp` calls waiting out their 1.5 s delay. */
    var pendingOtpSends: nat
    /** `handleResendOtp` calls waiting out their 1 s delay. */
    var pendingResends: nat
    /** `handleVerifyOtp` calls waiting out their 2 s delay. */
    var pendingVerifies: nat
    /** Completion timeouts scheduled by a verification that have not
        fired yet. */
    var pendingCompletions: nat
    /** Countdown intervals started and not yet cleared. */
    var runningIntervals: nat

    /** The mobile number only ever holds filtered input; the countdown
        stays in [0, 30] and, while positive, some interval is running to
        bring it down. (Which step is shown says nothing about the fields:
        a continuation can move a reset form on to the otp or success
        step.) */
    ghost predicate Valid()
      reads this
    {
      && AllDigits(mobileNumber) && |mobileNumber| <= 10
      && 0 <= resendTimer <= ResendSeconds
      && (resendTimer > 0 ==> runningIntervals > 0)
    }

    constructor ()
      ensures Valid()
      ensures !dialogOpen && step == Abha && abhaId == "" && mobileNumber == "" && otp == ""
      ensures !isLoading && resendTimer == 0 && linkSuccessCalls == 0
      ensures pendingOtpSends == 0 && pendingResends == 0 && pendingVerifies == 0
      ensures pendingCompletions == 0 && runningIntervals == 0
    {
      dialogOpen := false;
      step := Abha;
      abhaId := "";
      mobileNumber := "";
      otp := "";
      isLoading := false;
      resendTimer := 0;
      linkSuccessCalls := 0;
      pendingOtpSends := 0;
      pendingResends := 0;
      pendingVerifies := 0;
      pendingCompletions := 0;
      runningIntervals := 0;
    }

    /** `resetForm`: the five fields only; loading, pending delays and
        running intervals are untouched. */
    method ResetForm()
      requires Valid()
      modifies this`step, this`abhaId, this`mobileNumber, this`otp, this`resendTimer
      ensures Valid()
      ensures step == Abha && abhaId == "" && mobileNumber == "" && otp == "" && resendTimer == 0
    {
      step := Abha;
      abhaId := "";
      mobileNumber := "";
      otp := "";
      resendTimer := 0;
    }

    /** `handleOpenChange`: closing the dialog also resets the form. */
    method HandleOpenChange(open: bool)
      requires Valid()
      modifies this`dialogOpen, this`step, this`abhaId, this`mobileNumber, this`otp, this`resendTimer
      ensures Valid()
      ensures dialogOpen == open
      ensures !open ==> step == Abha && abhaId == "" && mobileNumber == "" && otp == "" && resendTimer == 0
      ensures open ==> (step == old(step) && abhaId == old(abhaId) && mobileNumber == old(mobileNumber)
                        && otp == old(otp) && resendTimer == old(resendTimer))
    {
      dialogOpen := open;
      if !open {
        ResetForm();
      }
    }

    /** The ABHA ID field, shown on the abha step. */
    method EnterAbhaId(value: string)
      requires Valid() && step == Abha
      modifies this`abhaId
      ensures Valid() && abhaId == value
    {
      abhaId := value;
    }

    /** The mobile field, shown on the mobile step, stores filtered input. */
    method EnterMobile(raw: string)
      requires Valid() && step == Mobile
      modifies this`mobileNumber
      ensures Valid() && mobileNumber == FilterMobileInput(raw)
    {
      mobileNumber := FilterMobileInput(raw);
    }

    /** The OTP field, shown on the otp step. */
    method EnterOtp(value: string)
      requires Valid() && step == Otp
      modifies this`otp
      ensures Valid() && otp == value
    {
      otp := value;
    }

    /** `handleAbhaSubmit`: move to the mobile step only for a non-empty,
        valid trimmed ID. */
    method HandleAbhaSubmit() returns (outcome: SubmitOutcome)
      requires Valid()
      modifies this`step
      ensures Valid()
      ensures outcome == (if Trim(abhaId) == "" then EmptyInput
                          else if !ValidateAbhaId(Trim(abhaId)) then InvalidInput
                          else Accepted)
      ensures step == (if outcome == Accepted then Mobile else old(step))
    {
      if Trim(abhaId) == "" {
        return EmptyInput;
      }
      if !ValidateAbhaId(Trim(abhaId)) {
        return InvalidInput;
      }
      step := Mobile;
      outcome := Accepted;
    }

    /** `handleSendOtp` up to its delay (the Send OTP button, disabled while
        loading): an empty or invalid trimmed number is reported; a valid
        one sets loading and starts the delay. */
    method HandleSendOtp() returns (outcome: SubmitOutcome)
      requires Valid() && step == Mobile && !isLoading
      modifies this`isLoading, this`pendingOtpSends
      ensures Valid()
      ensures outcome == (if Trim(mobileNumber) == "" then EmptyInput
                          else if !ValidateMobile(Trim(mobileNumber)) then InvalidInput
                          else Accepted)
      ensures isLoading == (outcome == Accepted)
      ensures pendingOtpSends == old(pendingOtpSends) + (if outcome == Accepted then 1 else 0)
    {
      var number := Trim(mobileNumber);
      if number == "" {
        return EmptyInput;
      }
      if !ValidateMobile(number) {
        return InvalidInput;
      }
      isLoading, pendingOtpSends := true, pendingOtpSends + 1;
      outcome := Accepted;
    }

    /** The rest of `handleSendOtp`, once its delay ends: loading stops, the
        otp step shows and a 30-second countdown starts with a new
        interval. Nothing is checked again. */
    method OtpSent()
      requires Valid() && pendingOtpSends > 0
      modifies this`pendingOtpSends, this`isLoading, this`step, this`resendTimer, this`runningIntervals
      ensures Valid()
      ensures pendingOtpSends == old(pendingOtpSends) - 1 && !isLoading && step == Otp
      ensures resendTimer == ResendSeconds && runningIntervals == old(runningIntervals) + 1
    {
      pendingOtpSends := pendingOtpSends - 1;
      isLoading, step := false, Otp;
      resendTimer, runningIntervals := ResendSeconds, runningIntervals + 1;
    }

    /** One firing of one running countdown interval: the shared countdown
        ticks, and the interval clears itself when it saw 1 or less. */
    method TickResendTimer()
      requires Valid() && runningIntervals > 0
      modifies this`resendTimer, this`runningIntervals
      ensures Valid()
      ensures resendTimer == TimerTick(old(resendTimer))
      ensures runningIntervals == old(runningIntervals) - (if old(resendTimer) <= 1 then 1 else 0)
    {
      if resendTimer <= 1 {
        resendTimer, runningIntervals := 0, runningIntervals - 1;
      } else {
        resendTimer := resendTimer - 1;
      }
    }

    /** `handleResendOtp` up to its delay (the Resend button of the otp
        step, disabled while loading): ignored while the countdown runs,
        otherwise sets loading and starts the delay. */
    method HandleResendOtp() returns (resent: bool)
      requires Valid() && step == Otp && !isLoading
      modifies this`isLoading, this`pendingResends
      ensures Valid()
      ensures resent == (old(resendTimer) <= 0)
      ensures isLoading == resent
      ensures pendingResends == old(pendingResends) + (if resent then 1 else 0)
    {
      if resendTimer > 0 {
        return false;
      }
      isLoading, pendingResends := true, pendingResends + 1;
      resent := true;
    }

    /** The rest of `handleResendOtp`: loading stops and a new 30-second
        countdown starts with a new interval. */
    method OtpResent()
      requires Valid() && pendingResends > 0
      modifies this`pendingResends, this`isLoading, this`resendTimer, this`runningIntervals
      ensures Valid()
      ensures pendingResends == old(pendingResends) - 1 && !isLoading
      ensures resendTimer == ResendSeconds && runningIntervals == old(runningIntervals) + 1
    {
      pendingResends := pendingResends - 1;
      isLoading := false;
      resendTimer, runningIntervals := ResendSeconds, runningIntervals + 1;
    }

    /** `handleVerifyOtp` up to its delay (the Verify button of the otp
        step, disabled while loading): only an OTP of exactly six
        characters sets loading and starts the delay. */
    method HandleVerifyOtp() returns (verified: bool)
      requires Valid() && step == Otp && !isLoading
      modifies this`isLoading, this`pendingVerifies
      ensures Valid()
      ensures verified == (|otp| == 6)
      ensures isLoading == verified
      ensures pendingVerifies == old(pendingVerifies) + (if verified then 1 else 0)
    {
      if |otp| != 6 {
        return false;
      }
      isLoading, pendingVerifies := true, pendingVerifies + 1;
      verified := true;
    }

    /** The rest of `handleVerifyOtp`: loading stops, the success step
        shows and the completion timeout is scheduled. */
    method OtpVerified()
      requires Valid() && pendingVerifies > 0
      modifies this`pendingVerifies, this`isLoading, this`step, this`pendingCompletions
      ensures Valid()
      ensures pendingVerifies == old(pendingVerifies) - 1 && !isLoading && step == Success
      ensures pendingCompletions == old(pendingCompletions) + 1
    {
      pendingVerifies := pendingVerifies - 1;
      isLoading, step := false, Success;
      pendingCompletions := pendingCompletions + 1;
    }

    /** A scheduled completion fires: notify the parent, close the dialog
        and reset the form. The timeout has no guard, so it fires whatever
        happened in the meantime: also when the dialog was closed (and the
        form reset) during the delay, or a new linking was begun. */
    method CompleteLinking()
      requires Valid() && pendingCompletions > 0
      modifies this`linkSuccessCalls, this`pendingCompletions, this`dialogOpen,
        this`step, this`abhaId, this`mobileNumber, this`otp, this`resendTimer
      ensures Valid()
      ensures linkSuccessCalls == old(linkSuccessCalls) + 1 && !dialogOpen
      ensures pendingCompletions == old(pendingCompletions) - 1
      ensures step == Abha && abhaId == "" && mobileNumber == "" && otp == "" && resendTimer == 0
    {
      linkSuccessCalls := linkSuccessCalls + 1;
      pendingCompletions := pendingCompletions - 1;
      dialogOpen := false;
      ResetForm();
    }

    /** `goBack` (the Back buttons, never disabled): mobile -> abha,
        otp -> mobile, any other step unchanged. */
    method GoBack()
      requires Valid()
      modifies this`step
      ensures Valid()
      ensures step == match old(step)
        case Mobile => Abha
        case Otp => Mobile
        case s => s
    {
      if step == Mobile {
        step := Abha;
      } else if step == Otp {
        step := Mobile;
      }
    }
  }

  /** The fields of a reset form pass none of the checks. */
  lemma ResetFieldsFailChecks()
    ensures Trim("") == "" && !ValidateAbhaId(Trim("")) && !ValidateMobile("")
  {
    DigitsAreTrimmed("");
  }

  /** Closing the dialog while an OTP is being sent does not stop the send:
      the reset form is then moved on to the otp step with an empty ABHA ID
      and an empty mobile number, which by `ResetFieldsFailChecks` pass
      neither check. */
  method CloseDuringSendReachesOtp(d: AbhaDialog)
    requires d.Valid() && d.step == Mobile && !d.isLoading && ValidateMobile(Trim(d.mobileNumber))
    modifies d
    ensures d.Valid() && !d.dialogOpen && d.step == Otp
    ensures d.abhaId == "" && d.mobileNumber == "" && d.resendTimer == ResendSeconds
  {
    var outcome := d.HandleSendOtp();
    assert outcome == Accepted;
    d.HandleOpenChange(false);
    d.OtpSent();
  }

  /** Closing the dialog while an OTP is being verified does not stop the
      verification: the reset form reaches the success step with an empty
      OTP, and the completion that calls `onLinkSuccess` is scheduled. */
  method CloseDuringVerifyReachesSuccess(d: AbhaDialog)
    requires d.Valid() && d.step == Otp && !d.isLoading && |d.otp| == 6
    modifies d
    ensures d.Valid() && !d.dialogOpen && d.step == Success && d.otp == ""
    ensures d.pendingCompletions > 0
  {
    var verified := d.HandleVerifyOtp();
    d.HandleOpenChange(false);
    d.OtpVerified();
  }

  /** Back from the otp step while the countdown runs, then Send OTP again:
      a second interval starts beside the first, and both tick the one
      countdown. */
  method BackAndSendRunsTwoIntervals(d: AbhaDialog)
    requires d.Valid() && d.step == Otp && !d.isLoading && d.resendTimer > 0
    requires ValidateMobile(Trim(d.mobileNumber))
    modifies d
    ensures d.Valid() && d.step == Otp && d.resendTimer == ResendSeconds
    ensures d.runningIntervals >= 2
  {
    d.GoBack();
    var outcome := d.HandleSendOtp();
    d.OtpSent();
  }
}
