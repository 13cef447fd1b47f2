/**
 * The live therapy session of frontend/app/therapy-tracking/page.tsx: three timed steps
 * (oil application, steam therapy, rest), a one-second countdown that moves from step to
 * step and ends the session, pause and stop buttons, a list of reported side effects and
 * the mm:ss clock shown for each step.
 */
module Therapy {
  import opened Wrappers

  /** Seconds per step: oil application, steam therapy, rest phase. */
  const StepDurations: seq<nat> := [300, 900, 600]
  const StepCount: nat := 3

  function Duration(step: nat): nat
    requires step < StepCount
  {
    StepDurations[step]
  }

  /** Seconds in the steps before `step`. */
  function Before(step: nat): nat
    requires step <= StepCount
  {
    if step == 0 then 0 else Before(step - 1) + Duration(step - 1)
  }

  /** The "3 steps totaling 30 minutes" the page announces. */
  lemma SessionIsThirtyMinutes()
    ensures Before(StepCount) == 30 * 60
  {
    assert Before(1) == 300 && Before(2) == 1200;
  }

  /* ---------------------------------------------------------------- the countdown */

  /** The countdown's part of the page state. */
  datatype Timer = Timer(step: nat, remaining: nat, active: bool, paused: bool)

  ghost predicate TimerInv(t: Timer) {
    && t.step < StepCount
    && t.remaining <= Duration(t.step)
    && (t.active ==> t.remaining > 0)
    && (!t.active ==> t.remaining == 0 && !t.paused)
  }

  /** Whether the page has a one-second interval running. */
  predicate Running(t: Timer) {
    t.active && !t.paused && t.remaining > 0
  }

  /** Seconds of the session behind the current moment. */
  function Elapsed(t: Timer): int
    requires t.step < StepCount
  {
    Before(t.step) + Duration(t.step) - t.remaining
  }

  /** One firing of the interval: count down, and at the last second of a step either
      start the next step with its full duration or end the session. With no interval
      running nothing happens. */
  function Ticked(t: Timer): (r: Timer)
    requires TimerInv(t)
    ensures TimerInv(r)
    ensures !Running(t) ==> r == t
    ensures Running(t) ==> Elapsed(r) == Elapsed(t) + 1 && r.paused == t.paused
    ensures Running(t) ==> (r.active <==> Elapsed(r) < Before(StepCount))
    ensures r.step >= t.step
  {
    if !Running(t) then t
    else if t.remaining <= 1 then
      if t.step < StepCount - 1 then t.(step := t.step + 1, remaining := Duration(t.step + 1))
      else t.(active := false, remaining := 0)
    else t.(remaining := t.remaining - 1)
  }

  /** The countdown right after "Start Session". */
  const Started: Timer := Timer(0, 300, true, false)

  /** `k` seconds of an uninterrupted countdown. */
  function Run(t: Timer, k: nat): (r: Timer)
    requires TimerInv(t)
    ensures TimerInv(r)
  {
    if k == 0 then t else Ticked(Run(t, k - 1))
  }

  /** An uninterrupted session stays active for exactly 1800 seconds and then ends in the
      last step with no time left. */
  lemma {:induction false} SessionRunsThirtyMinutes(k: nat)
    requires k <= Before(StepCount)
    ensures Elapsed(Run(Started, k)) == k
    ensures Run(Started, k).active <==> k < Before(StepCount)
    ensures !Run(Started, k).paused
  {
    SessionIsThirtyMinutes();
    if k > 0 {
      SessionRunsThirtyMinutes(k - 1);
      var t := Run(Started, k - 1);
      assert Running(t);
      assert Run(Started, k) == Ticked(t);
    } else {
      assert Before(0) == 0;
    }
  }

  lemma SessionEnd()
    ensures Run(Started, 1800) == Timer(StepCount - 1, 0, false, false)
  {
    SessionRunsThirtyMinutes(1800);
  }

  /* ---------------------------------------------------------------- the clock */

  function Digit(d: nat): char
    requires d < 10
  {
    ('0' as int + d) as char
  }

  predicate IsDigit(c: char) {
    '0' <= c <= '9'
  }

  predicate AllDigits(s: string) {
    forall i :: 0 <= i < |s| ==> IsDigit(s[i])
  }

  /** `n.toString()` for a whole number. */
  function Decimal(n: nat): (s: string)
    ensures |s| >= 1 && AllDigits(s)
    ensures n < 10 <==> |s| == 1
    ensures 10 <= n < 100 ==> |s| == 2
  {
    if n < 10 then [Digit(n)] else Decimal(n / 10) + [Digit(n % 10)]
  }

  /** The value of a run of decimal digits, leading zeros allowed. */
  function DigitsValue(s: string): nat
    requires AllDigits(s)
  {
    if s == [] then 0 else DigitsValue(s[..|s| - 1]) * 10 + (s[|s| - 1] as int - '0' as int)
  }

  lemma {:induction false} DecimalValue(n: nat)
    ensures DigitsValue(Decimal(n)) == n
  {
    if n >= 10 {
      var s := Decimal(n);
      assert s[..|s| - 1] == Decimal(n / 10);
      DecimalValue(n / 10);
    }
  }

  lemma {:induction false} LeadingZero(s: string)
    requires AllDigits(s)
    ensures AllDigits(['0'] + s) && DigitsValue(['0'] + s) == DigitsValue(s)
  {
    if s != [] {
      var t := ['0'] + s;
      assert t[..|t| - 1] == ['0'] + s[..|s| - 1];
      LeadingZero(s[..|s| - 1]);
    }
  }

  /** `padStart(2, '0')`. */
  function PadTwo(s: string): (r: string)
    ensures |r| == if |s| >= 2 then |s| else 2
    ensures r[|r| - |s|..] == s
    ensures forall i :: 0 <= i < |r| - |s| ==> r[i] == '0'
  {
    if |s| >= 2 then s else if |s| == 1 then ['0'] + s else ['0', '0']
  }

  /** `formatTime`: minutes and seconds, each at least two digits, joined by ':'. The
      seconds are always exactly two digits, so ':' is third from the end. */
  function FormatTime(seconds: nat): (r: string)
    ensures |r| >= 5 && r[|r| - 3] == ':'
  {
    var minutes, secs := PadTwo(Decimal(seconds / 60)), PadTwo(Decimal(seconds % 60));
    assert |secs| == 2;
    minutes + ":" + secs
  }

  /** Under 100 minutes the clock is five characters, "mm:ss". */
  lemma FormatTimeShape(seconds: nat)
    requires seconds < 6000
    ensures |FormatTime(seconds)| == 5 && FormatTime(seconds)[2] == ':'
  {
    MinutesBelowHundred(seconds);
    ClockShape(seconds / 60, seconds % 60);
  }

  lemma MinutesBelowHundred(seconds: nat)
    requires seconds < 6000
    ensures seconds / 60 < 100 && seconds % 60 < 60
  {
  }

  lemma ClockShape(minutes: nat, seconds: nat)
    requires minutes < 100 && seconds < 100
    ensures |PadTwo(Decimal(minutes)) + ":" + PadTwo(Decimal(seconds))| == 5
    ensures (PadTwo(Decimal(minutes)) + ":" + PadTwo(Decimal(seconds)))[2] == ':'
  {
    var m, s := Decimal(minutes), Decimal(seconds);
    assert |m| <= 2 && |s| <= 2;
    assert |PadTwo(m)| == 2 && |PadTwo(s)| == 2;
  }

  function IndexOfColon(s: string): (r: Option<nat>)
    ensures r.Some? ==> r.value < |s| && s[r.value] == ':' && forall i :: 0 <= i < r.value ==> s[i] != ':'
    ensures r.None? ==> forall i :: 0 <= i < |s| ==> s[i] != ':'
  {
    if s == [] then None
    else if s[0] == ':' then Some(0)
    else match IndexOfColon(s[1..])
      case None => None
      case Some(i) => Some(i + 1)
  }

  /** Reading a clock back: minutes, ':', seconds, both plain digit runs. */
  function ParseClock(s: string): Option<nat> {
    var colon := IndexOfColon(s);
    if colon.None? then None
    else
      var minutes, seconds := s[..colon.value], s[colon.value + 1..];
      if AllDigits(minutes) && AllDigits(seconds) then Some(DigitsValue(minutes) * 60 + DigitsValue(seconds))
      else None
  }

  lemma PaddedValue(n: nat)
    ensures AllDigits(PadTwo(Decimal(n))) && DigitsValue(PadTwo(Decimal(n))) == DigitsValue(Decimal(n))
  {
    var s := Decimal(n);
    if |s| < 2 {
      assert PadTwo(s) == ['0'] + s;
      LeadingZero(s);
    }
  }

  lemma {:induction false} ColonAfterDigits(a: string, b: string)
    requires AllDigits(a)
    ensures IndexOfColon(a + ":" + b) == Some(|a|)
  {
    if a != [] {
      assert (a + ":" + b)[1..] == a[1..] + ":" + b;
      ColonAfterDigits(a[1..], b);
    }
  }

  /** Two digit runs joined by ':' read back as minutes and seconds. */
  lemma ClockOfDigits(m: string, s: string)
    requires AllDigits(m) && AllDigits(s)
    ensures ParseClock(m + ":" + s).Some?
    ensures ParseClock(m + ":" + s).value == DigitsValue(m) * 60 + DigitsValue(s)
  {
    var r := m + ":" + s;
    ColonAfterDigits(m, s);
    assert r[..|m|] == m;
    assert r[|m| + 1..] == s;
  }

  /** The clock shows the time it was given. */
  lemma FormatTimeRoundTrip(seconds: nat)
    ensures ParseClock(FormatTime(seconds)) == Some(seconds)
  {
    var minutes, rest := seconds / 60, seconds % 60;
    PaddedValue(minutes);
    PaddedValue(rest);
    DecimalValue(minutes);
    DecimalValue(rest);
    ClockOfDigits(PadTwo(Decimal(minutes)), PadTwo(Decimal(rest)));
    assert minutes * 60 + rest == seconds;
  }

  /** A number from 10 to 99 is written with its two digits. */
  lemma TwoDigits(n: nat)
    requires 10 <= n < 100
    ensures PadTwo(Decimal(n)) == [Digit(n / 10), Digit(n % 10)]
  {
    assert Decimal(n / 10) == [Digit(n / 10)];
    assert Decimal(n) == [Digit(n / 10)] + [Digit(n % 10)];
  }

  lemma WholeMinutesDivide(minutes: nat, seconds: nat)
    requires seconds == minutes * 60
    ensures seconds / 60 == minutes && seconds % 60 == 0
  {
  }

  /** A whole number of minutes from 10 to 99 shows as its two digits and ":00". */
  lemma WholeMinutes(minutes: nat, seconds: nat)
    requires 10 <= minutes < 100 && seconds == minutes * 60
    ensures FormatTime(seconds) == [Digit(minutes / 10), Digit(minutes % 10), ':', '0', '0']
  {
    WholeMinutesDivide(minutes, seconds);
    TwoDigits(minutes);
    assert PadTwo(Decimal(0)) == ['0', '0'];
  }

  /** The clock each step starts from. */
  lemma StepClocks(step: nat)
    requires step < StepCount
    ensures step == 0 ==> FormatTime(Duration(step)) == "05:00"
    ensures step == 1 ==> FormatTime(Duration(step)) == "15:00"
    ensures step == 2 ==> FormatTime(Duration(step)) == "10:00"
  {
    if step == 0 {
      assert Duration(step) / 60 == 5 && Duration(step) % 60 == 0;
      assert PadTwo(Decimal(5)) == ['0', '5'];
      assert PadTwo(Decimal(0)) == ['0', '0'];
    } else if step == 1 {
      WholeMinutes(15, Duration(step));
    } else {
      WholeMinutes(10, Duration(step));
    }
  }

  /* ---------------------------------------------------------------- the page */

  class Session {
    var currentStep: nat
    var timeRemaining: nat
    var isSessionActive: bool
    var isPaused: bool
    var sideEffects: seq<string>
    var showSideEffectModal: bool

    function Clock(): Timer
      reads this
    {
      Timer(currentStep, timeRemaining, isSessionActive, isPaused)
    }

    ghost predicate Valid()
      reads this
    {
      && TimerInv(Clock())
      && forall i, j :: 0 <= i < j < |sideEffects| ==> sideEffects[i] != sideEffects[j]
    }

    constructor ()
      ensures Valid()
      ensures Clock() == Timer(0, 0, false, false) && sideEffects == [] && !showSideEffectModal
    {
      currentStep, timeRemaining, isSessionActive, isPaused := 0, 0, false, false;
      sideEffects, showSideEffectModal := [], false;
    }

    /** "Start Session", shown only while no session is active. */
    method Start()
      requires Valid() && !isSessionActive
      modifies this
      ensures Valid()
      ensures Clock() == Started
      ensures sideEffects == old(sideEffects) && showSideEffectModal == old(showSideEffectModal)
    {
      isSessionActive := true;
      currentStep := 0;
      timeRemaining := Duration(0);
    }

    /** One second of the interval. */
    method Tick()
      requires Valid()
      modifies this
      ensures Valid()
      ensures Clock() == Ticked(old(Clock()))
      ensures sideEffects == old(sideEffects) && showSideEffectModal == old(showSideEffectModal)
    {
      if isSessionActive && !isPaused && timeRemaining > 0 {
        if timeRemaining <= 1 {
          if currentStep < StepCount - 1 {
            currentStep := currentStep + 1;
            timeRemaining := Duration(currentStep);
          } else {
            isSessionActive := false;
            timeRemaining := 0;
          }
        } else {
          timeRemaining := timeRemaining - 1;
        }
      }
    }

    /** "Pause Session" / "Resume Session", shown only during a session. */
    method TogglePause()
      requires Valid() && isSessionActive
      modifies this
      ensures Valid()
      ensures Clock() == old(Clock()).(paused := !old(isPaused))
      ensures sideEffects == old(sideEffects) && showSideEffectModal == old(showSideEffectModal)
    {
      isPaused := !isPaused;
    }

    /** "Stop Session". */
    method Stop()
      requires Valid()
      modifies this
      ensures Valid()
      ensures Clock() == Timer(0, 0, false, false)
      ensures sideEffects == old(sideEffects) && showSideEffectModal == old(showSideEffectModal)
    {
      isSessionActive := false;
      isPaused := false;
      timeRemaining := 0;
      currentStep := 0;
    }

    method OpenSideEffectModal()
      requires Valid()
      modifies this`showSideEffectModal
      ensures Valid() && showSideEffectModal
    {
      showSideEffectModal := true;
    }

    /** Picking a side effect in the modal: record it unless already recorded, and close. */
    method ReportSideEffect(effect: string)
      requires Valid()
      modifies this
      ensures Valid()
      ensures Clock() == old(Clock()) && !showSideEffectModal
      ensures effect in old(sideEffects) ==> sideEffects == old(sideEffects)
      ensures effect !in old(sideEffects) ==> sideEffects == old(sideEffects) + [effect]
    {
      if effect !in sideEffects {
        sideEffects := sideEffects + [effect];
      }
      showSideEffectModal := false;
    }

    /** `getProgressPercentage`: the share of the current step already done. */
    function ProgressPercentage(): (p: real)
      reads this
      requires Valid()
      ensures 0.0 <= p <= 100.0
      ensures !isSessionActive ==> p == 0.0
      ensures isSessionActive && timeRemaining == Duration(currentStep) ==> p == 0.0
      ensures isSessionActive ==>
                p * (Duration(currentStep) as real) == ((Duration(currentStep) - timeRemaining) as real) * 100.0
    {
      if !isSessionActive then 0.0
      else
        var total := Duration(currentStep);
        var elapsed := total - timeRemaining;
        (elapsed as real / total as real) * 100.0
    }
  }
}
