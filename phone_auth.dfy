/** The phone sign-in screen's view model
    (Couply/Couply/Couply/Features/Onboarding/PhoneAuthView.swift): the phone
    number and one-time code the user types, whether the screen may continue,
    and the countdown before a new code may be requested. The answers of the
    verification back end are parameters, and each asynchronous call is one
    step: the states between its start and its answer are not modelled. */
module PhoneAuth {
  import opened Store
  import opened Seqs

  /** The length of a one-time code. */
  const CodeLength: nat := 4

  /** Seconds to wait before a new code may be requested. */
  const ResendDelay: nat := 45

  /** The message shown when a code is entered before one was requested. */
  const NoVerificationMessage: string := "Please request a new code"

  /** Whether a character counts as a number (`Character.isNumber`); only the
      ten ASCII digits are modelled. */
  predicate IsNumber(c: char) {
    '0' <= c <= '9'
  }

  /** The numeric characters of `s`, in order
      (`filter { $0.isNumber }`). */
  function Digits(s: string): (r: string)
    ensures |r| <= |s|
    ensures forall c :: c in r ==> IsNumber(c)
  {
    Where(s, (c: char) => IsNumber(c))
  }

  /** `Digits` keeps every numeral of `s`, as often as it occurs and in order,
      and nothing else. */
  lemma DigitsKeepsNumerals(s: string, c: char)
    ensures IsSubsequence(Digits(s), s)
    ensures multiset(Digits(s))[c] == if IsNumber(c) then multiset(s)[c] else 0
  {
    WhereIsSubsequence(s, (c: char) => IsNumber(c));
    WhereCount(s, (c: char) => IsNumber(c), c);
  }

  /** Spaces, dashes, brackets or any other non-numeric separator typed inside
      a phone number do not change its digits. */
  lemma FormattingIgnored(a: string, sep: string, b: string)
    requires forall c :: c in sep ==> !IsNumber(c)
    ensures Digits(a + sep + b) == Digits(a + b)
  {
    var keep := (c: char) => IsNumber(c);
    WhereAppend(a + sep, b, keep);
    WhereAppend(a, sep, keep);
    WhereNone(sep, keep);
    WhereAppend(a, b, keep);
  }

  /** `fullPhoneNumber`: the country code followed by the digits typed. */
  function FullPhoneNumber(countryCode: string, phoneNumber: string): (r: string)
    ensures |countryCode| <= |r| <= |countryCode| + |phoneNumber|
    ensures r[..|countryCode|] == countryCode
    ensures forall i :: |countryCode| <= i < |r| ==> IsNumber(r[i])
  {
    var d := Digits(phoneNumber);
    assert forall i :: 0 <= i < |d| ==> d[i] in d;
    countryCode + d
  }

  /** `isPhoneValid`: at least ten digits were typed. */
  predicate IsPhoneValid(phoneNumber: string) {
    |Digits(phoneNumber)| >= 10
  }

  /** A valid number is one whose full form has at least ten digits after the
      country code, whatever the country; separators never decide validity. */
  lemma ValidityOfFullNumber(countryCode: string, phoneNumber: string, a: string, sep: string, b: string)
    ensures IsPhoneValid(phoneNumber) <==> |FullPhoneNumber(countryCode, phoneNumber)| >= |countryCode| + 10
    ensures (forall c :: c in sep ==> !IsNumber(c)) ==> (IsPhoneValid(a + sep + b) <==> IsPhoneValid(a + b))
  {
    if forall c :: c in sep ==> !IsNumber(c) {
      FormattingIgnored(a, sep, b);
    }
  }

  /** `canContinue`: while a code is being entered, the code must be complete;
      before that, the number must be valid; never while a request is out. */
  predicate CanContinue(isVerifying: bool, otpCode: string, phoneNumber: string, isLoading: bool) {
    if isVerifying then |otpCode| == CodeLength && !isLoading
    else IsPhoneValid(phoneNumber) && !isLoading
  }

  /** Nothing may continue while a request is out; before a code was sent,
      continuing depends only on the full number carrying ten digits after
      the country code; while a code is entered, only on the code having
      four characters, whatever number was typed. */
  lemma ContinueRules(countryCode: string, otpCode: string, phoneNumber: string, otherNumber: string, isVerifying: bool)
    ensures !CanContinue(isVerifying, otpCode, phoneNumber, true)
    ensures CanContinue(false, otpCode, phoneNumber, false)
        <==> |FullPhoneNumber(countryCode, phoneNumber)| >= |countryCode| + 10
    ensures CanContinue(true, otpCode, phoneNumber, false) <==> |otpCode| == CodeLength
    ensures CanContinue(true, otpCode, phoneNumber, false) == CanContinue(true, otpCode, otherNumber, false)
  {
  }

  /** What the code field keeps of what was typed: at most its first four
      characters. */
  function TruncateOtp(s: string): (r: string)
    ensures |r| <= CodeLength && IsPrefix(r, s)
    ensures |s| <= CodeLength ==> r == s
    ensures |s| > CodeLength ==> |r| == CodeLength
  {
    if |s| > CodeLength then s[..CodeLength] else s
  }

  predicate IsPrefix(p: string, s: string) {
    |p| <= |s| && s[..|p|] == p
  }

  /** Truncating twice is truncating once, and while a code is being entered
      the screen may continue exactly when at least four characters were
      typed and nothing is loading. */
  lemma TruncateThenContinue(s: string, phoneNumber: string, isLoading: bool)
    ensures TruncateOtp(TruncateOtp(s)) == TruncateOtp(s)
    ensures CanContinue(true, TruncateOtp(s), phoneNumber, isLoading) <==> |s| >= CodeLength && !isLoading
    ensures isLoading ==> !CanContinue(false, TruncateOtp(s), phoneNumber, isLoading)
  {
  }

  /** `digitAt`: the character shown in box `index`, or nothing past the end
      of the code. */
  function DigitAt(code: string, index: nat): (r: string)
    ensures |r| <= 1
    ensures r == [] <==> index >= |code|
    ensures index < |code| ==> r[0] == code[index]
  {
    if index < |code| then [code[index]] else ""
  }

  /** What the first `n` boxes show, read left to right. */
  function Boxes(code: string, n: nat): string {
    if n == 0 then "" else Boxes(code, n - 1) + DigitAt(code, n - 1)
  }

  /** The first `n` boxes show the first `n` characters of the code. */
  lemma {:induction false} BoxesShowPrefix(code: string, n: nat)
    ensures Boxes(code, n) == code[..if n <= |code| then n else |code|]
  {
    if n > 0 {
      BoxesShowPrefix(code, n - 1);
      if n <= |code| {
        assert code[..n] == code[..n - 1] + [code[n - 1]];
      }
    }
  }

  /** The four boxes spell out exactly what the code field kept. */
  lemma BoxesSpellCode(s: string)
    ensures Boxes(TruncateOtp(s), CodeLength) == TruncateOtp(s)
  {
    var code := TruncateOtp(s);
    BoxesShowPrefix(code, CodeLength);
    assert code[..|code|] == code;
  }

  /** The resend countdown: seconds left, whether a new code may be requested,
      and whether the one-second timer is still firing. */
  datatype ResendTimer = ResendTimer(countdown: int, canResend: bool, running: bool)

  /** `startResendTimer`: any earlier timer is replaced by one counting down
      from 45. */
  function StartedTimer(): (t: ResendTimer)
    ensures t.running && !t.canResend && t.countdown == ResendDelay
  {
    ResendTimer(ResendDelay, false, true)
  }

  /** One firing of the timer: count down while above zero; at zero allow a
      resend and stop. A stopped timer does not fire. */
  function Tick(t: ResendTimer): (r: ResendTimer)
    ensures t.countdown >= 0 ==> r.countdown >= 0
    ensures !t.running ==> r == t
  {
    if !t.running then t
    else if t.countdown > 0 then t.(countdown := t.countdown - 1)
    else t.(canResend := true, running := false)
  }

  /** The timer after `n` firings. */
  function Ticks(t: ResendTimer, n: nat): ResendTimer
    decreases n
  {
    if n == 0 then t else Ticks(Tick(t), n - 1)
  }

  /** From a countdown of `c` seconds, `n` firings leave `c - n` seconds (never
      below zero); a resend is allowed, and the timer stops, only after the
      firing that finds zero left, the (c+1)-th. */
  lemma {:induction false} TicksFrom(c: nat, n: nat)
    ensures Ticks(ResendTimer(c, false, true), n)
         == ResendTimer(if n <= c then c - n else 0, n > c, n <= c)
  {
    if n > 0 {
      if c > 0 {
        assert Tick(ResendTimer(c, false, true)) == ResendTimer(c - 1, false, true);
        TicksFrom(c - 1, n - 1);
      } else {
        StoppedStays(ResendTimer(0, true, false), n - 1);
      }
    }
  }

  lemma {:induction false} StoppedStays(t: ResendTimer, n: nat)
    requires !t.running
    ensures Ticks(t, n) == t
  {
    if n > 0 {
      StoppedStays(Tick(t), n - 1);
    }
  }

  /** The timer a failed resend leaves: stopped at zero with the permission
      to resend withdrawn. */
  const LockedTimer := ResendTimer(0, false, false)

  /** No number of firings ever unlocks the resend again from there. */
  lemma {:induction false} FailedResendStaysLocked(n: nat)
    ensures Ticks(LockedTimer, n) == LockedTimer
    ensures !Ticks(LockedTimer, n).canResend && Ticks(LockedTimer, n).countdown == 0
  {
    StoppedStays(LockedTimer, n);
  }

  /** After a code is sent, a new one may be requested from the 46th firing
      of the timer on, and not before; the countdown shown never goes
      negative. */
  lemma ResendUnlocks(n: nat)
    ensures Ticks(StartedTimer(), n).canResend <==> n > ResendDelay
    ensures Ticks(StartedTimer(), n).countdown >= 0
  {
    TicksFrom(ResendDelay, n);
  }

  class PhoneAuthViewModel {
    var phoneNumber: string
    var countryCode: string
    var otpCode: string
    var isVerifying: bool
    var isLoading: bool
    var error: Option<string>
    var resendCountdown: int
    var canResend: bool
    var verificationID: Option<string>
    var timerRunning: bool

    function Timer(): ResendTimer
      reads this
    {
      ResendTimer(resendCountdown, canResend, timerRunning)
    }

    /** What every operation keeps: the countdown stays between 0 and 45, a
        resend is allowed only once the timer has stopped at zero, and a code
        is being entered only after a verification id was received. */
    predicate Valid()
      reads this
    {
      && 0 <= resendCountdown <= ResendDelay
      && (canResend ==> resendCountdown == 0 && !timerRunning)
      && (isVerifying ==> verificationID.Some?)
    }

    /** The screen opens on the United States code with nothing typed. */
    constructor ()
      ensures phoneNumber == "" && countryCode == "+1" && otpCode == ""
      ensures !isVerifying && !isLoading && error.None? && verificationID.None?
      ensures resendCountdown == ResendDelay && !canResend && !timerRunning
      ensures Valid()
    {
      phoneNumber, countryCode, otpCode := "", "+1", "";
      isVerifying, isLoading, error, verificationID := false, false, None, None;
      resendCountdown, canResend, timerRunning := ResendDelay, false, false;
    }

    /** `sendVerificationCode`: asks for a code for the full number. The
        back end's answer is `answer`: a verification id, which moves the
        screen to code entry and restarts the countdown, or an error message,
        which is shown and changes nothing else. */
    method SendVerificationCode(answer: Result<string, string>) returns (sentTo: string)
      requires Valid()
      modifies this
      ensures sentTo == FullPhoneNumber(countryCode, phoneNumber)
      ensures answer.Ok? ==>
        && verificationID == Some(answer.value) && isVerifying && error.None?
        && Timer() == StartedTimer()
      ensures answer.Err? ==>
        && verificationID == old(verificationID) && isVerifying == old(isVerifying)
        && error == Some(answer.error) && Timer() == old(Timer())
      ensures !isLoading
      ensures phoneNumber == old(phoneNumber) && countryCode == old(countryCode) && otpCode == old(otpCode)
      ensures Valid()
    {
      isLoading := true;
      error := None;
      sentTo := FullPhoneNumber(countryCode, phoneNumber);
      match answer {
        case Ok(id) =>
          verificationID := Some(id);
          isVerifying := true;
          StartResendTimer();
        case Err(message) =>
          error := Some(message);
      }
      isLoading := false;
    }

    /** `startResendTimer`. */
    method StartResendTimer()
      modifies this
      ensures Timer() == StartedTimer()
      ensures phoneNumber == old(phoneNumber) && countryCode == old(countryCode) && otpCode == old(otpCode)
      ensures isVerifying == old(isVerifying) && isLoading == old(isLoading) && error == old(error)
      ensures verificationID == old(verificationID)
    {
      resendCountdown := ResendDelay;
      canResend := false;
      timerRunning := true;
    }

    /** One firing of the resend timer. */
    method TimerFired()
      requires Valid()
      modifies this
      ensures Timer() == Tick(old(Timer()))
      ensures phoneNumber == old(phoneNumber) && countryCode == old(countryCode) && otpCode == old(otpCode)
      ensures isVerifying == old(isVerifying) && isLoading == old(isLoading) && error == old(error)
      ensures verificationID == old(verificationID)
      ensures Valid()
    {
      if timerRunning {
        if resendCountdown > 0 {
          resendCountdown := resendCountdown - 1;
        } else {
          canResend := true;
          timerRunning := false;
        }
      }
    }

    /** `verifyCode`: without a verification id only an error is shown.
        Otherwise the code is checked; `answer` is the back end's verdict. A
        rejected code is cleared so that it can be typed again. */
    method VerifyCode(answer: Outcome<string>) returns (checked: Option<(string, string)>)
      requires Valid()
      modifies this
      ensures old(verificationID).None? ==>
        && checked.None? && error == Some(NoVerificationMessage)
        && otpCode == old(otpCode) && isLoading == old(isLoading)
      ensures old(verificationID).Some? ==>
        && checked == Some((old(otpCode), old(verificationID).value)) && !isLoading
        && (answer.Pass? ==> error.None? && otpCode == old(otpCode))
        && (answer.Fail? ==> error == Some(answer.error) && otpCode == "")
      ensures phoneNumber == old(phoneNumber) && countryCode == old(countryCode)
      ensures isVerifying == old(isVerifying) && verificationID == old(verificationID)
      ensures Timer() == old(Timer())
      ensures Valid()
    {
      if verificationID.None? {
        error := Some(NoVerificationMessage);
        return None;
      }
      var id := verificationID.value;
      isLoading := true;
      error := None;
      checked := Some((otpCode, id));
      if answer.Fail? {
        error := Some(answer.error);
        otpCode := "";
      }
      isLoading := false;
    }

    /** `resendCode`: withdraws the permission to resend, then sends again.
        A failed send leaves the permission withdrawn and the timer stopped:
        no timer firing lifts the lock, so the code screen offers no resend
        until the user goes back and a send from the number screen succeeds. */
    method ResendCode(answer: Result<string, string>) returns (sentTo: string)
      requires Valid()
      modifies this
      ensures sentTo == FullPhoneNumber(old(countryCode), old(phoneNumber))
      ensures !canResend && !isLoading
      ensures phoneNumber == old(phoneNumber) && countryCode == old(countryCode) && otpCode == old(otpCode)
      ensures answer.Ok? ==>
        && Timer() == StartedTimer() && verificationID == Some(answer.value) && isVerifying && error.None?
      ensures answer.Err? ==>
        && resendCountdown == old(resendCountdown) && timerRunning == old(timerRunning)
        && verificationID == old(verificationID) && isVerifying == old(isVerifying)
        && error == Some(answer.error)
      ensures answer.Err? && old(canResend) ==> Timer() == LockedTimer
      ensures Valid()
    {
      canResend := false;
      sentTo := SendVerificationCode(answer);
    }

    /** The evidently intended `resendCode`: a failed send gives back the
        permission to resend, so the timer is as it was before the call. */
    method ResendCodeKeepingPermission(answer: Result<string, string>) returns (sentTo: string)
      requires Valid()
      modifies this
      ensures sentTo == FullPhoneNumber(old(countryCode), old(phoneNumber))
      ensures !isLoading
      ensures phoneNumber == old(phoneNumber) && countryCode == old(countryCode) && otpCode == old(otpCode)
      ensures answer.Ok? ==>
        && Timer() == StartedTimer() && verificationID == Some(answer.value) && isVerifying && error.None?
      ensures answer.Err? ==>
        && Timer() == old(Timer()) && verificationID == old(verificationID) && isVerifying == old(isVerifying)
        && error == Some(answer.error)
      ensures answer.Err? && old(canResend) ==> canResend
      ensures Valid()
    {
      var couldResend := canResend;
      canResend := false;
      sentTo := SendVerificationCode(answer);
      if answer.Err? {
        canResend := couldResend;
      }
    }

    /** The code field's change handler: what was typed, cut to four
        characters. */
    method OnOtpChange(typed: string)
      requires Valid()
      modifies this
      ensures otpCode == TruncateOtp(typed)
      ensures phoneNumber == old(phoneNumber) && countryCode == old(countryCode)
      ensures isVerifying == old(isVerifying) && isLoading == old(isLoading) && error == old(error)
      ensures verificationID == old(verificationID) && Timer() == old(Timer())
      ensures Valid()
    {
      otpCode := typed;
      if |typed| > CodeLength {
        otpCode := typed[..CodeLength];
      }
    }
  }
}
