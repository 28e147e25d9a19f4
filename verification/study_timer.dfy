/** The study timer: a countdown of the target minutes that can be started,
    paused and reset, and that reports its completion once. The one-second
    interval is an explicit Tick. */
module StudyTimer {
  import opened Digits

  datatype TimerState = TimerState(timeLeft: int, isRunning: bool, isCompleted: bool)

  function Initial(targetMinutes: nat): (s: TimerState)
    ensures s.timeLeft == targetMinutes * 60 && !s.isRunning && !s.isCompleted
  {
    TimerState(targetMinutes * 60, false, false)
  }

  /** One second: only a running timer with time left moves; at the last
      second it stops, completes and fires the completion callback. */
  function Step(s: TimerState): (r: (TimerState, bool))
    ensures !(s.isRunning && s.timeLeft > 0) ==> r == (s, false)
    ensures s.isRunning && s.timeLeft > 1 ==> r == (s.(timeLeft := s.timeLeft - 1), false)
    ensures s.isRunning && s.timeLeft == 1 ==> r == (TimerState(0, false, true), true)
  {
    if s.isRunning && s.timeLeft > 0 then
      if s.timeLeft <= 1 then (s.(timeLeft := 0, isRunning := false, isCompleted := true), true)
      else (s.(timeLeft := s.timeLeft - 1), false)
    else (s, false)
  }

  /** n ticks: the final state and how often the callback fired. */
  function Run(s: TimerState, n: nat): (TimerState, nat)
    decreases n
  {
    if n == 0 then (s, 0)
    else
      var (t, fired) := Step(s);
      var (u, count) := Run(t, n - 1);
      (u, count + (if fired then 1 else 0))
  }

  /** A started timer with t seconds left completes after exactly t ticks,
      having fired its callback once, and stays put afterwards. */
  lemma {:induction false} RunCompletes(s: TimerState, n: nat)
    requires s.isRunning && 0 < s.timeLeft <= n
    ensures Run(s, n) == (TimerState(0, false, true), 1)
    decreases n
  {
    if s.timeLeft == 1 {
      StoppedStaysPut(TimerState(0, false, true), n - 1);
    } else {
      RunCompletes(s.(timeLeft := s.timeLeft - 1), n - 1);
    }
  }

  /** A timer that is not running, or has no time left, does not change and
      never fires. */
  lemma {:induction false} StoppedStaysPut(s: TimerState, n: nat)
    requires !s.isRunning || s.timeLeft <= 0
    ensures Run(s, n) == (s, 0)
    decreases n
  {
    if n > 0 {
      StoppedStaysPut(s, n - 1);
    }
  }

  /** Ticks never drive the countdown below zero. */
  lemma {:induction false} RunNonNegative(s: TimerState, n: nat)
    requires s.timeLeft >= 0
    ensures Run(s, n).0.timeLeft >= 0
    ensures Run(s, n).0.timeLeft <= s.timeLeft
    decreases n
  {
    if n > 0 {
      RunNonNegative(Step(s).0, n - 1);
    }
  }

  /** MM:SS: minutes are at least two digits but may be more. */
  function FormatTime(seconds: nat): string
  {
    Pad2(NatToString(seconds / 60)) + ":" + Field2(seconds % 60)
  }

  /** Reading the rendered clock back gives the seconds: the part before
      the colon is the minutes, at least two digits, the two digits after it
      the seconds below 60. */
  lemma FormatTimeFields(seconds: nat)
    ensures var s := FormatTime(seconds);
      var n := |s|;
      && n >= 5 && s[n - 3] == ':'
      && AllDigits(s[..n - 3]) && AllDigits(s[n - 2..])
      && DigitsValue(s[n - 2..]) < 60
      && DigitsValue(s[..n - 3]) * 60 + DigitsValue(s[n - 2..]) == seconds
  {
    var m, sec := seconds / 60, seconds % 60;
    var ms := Pad2(NatToString(m));
    var s := FormatTime(seconds);
    NatToStringRoundTrip(m);
    Pad2Value(NatToString(m));
    Field2RoundTrip(sec);
    assert s == ms + ":" + Field2(sec);
    assert s[..|s| - 3] == ms;
    assert s[|s| - 2..] == Field2(sec);
  }

  class Timer {
    const targetMinutes: nat
    var timeLeft: int
    var isRunning: bool
    var isCompleted: bool

    function State(): TimerState
      reads this
    {
      TimerState(timeLeft, isRunning, isCompleted)
    }

    constructor (targetMinutes: nat)
      ensures State() == Initial(targetMinutes) && this.targetMinutes == targetMinutes
    {
      this.targetMinutes := targetMinutes;
      timeLeft := targetMinutes * 60;
      isRunning := false;
      isCompleted := false;
    }

    /** One interval tick; the result says whether onSessionComplete fired. */
    method Tick() returns (fired: bool)
      modifies this
      ensures (State(), fired) == Step(old(State()))
    {
      fired := false;
      if isRunning && timeLeft > 0 {
        if timeLeft <= 1 {
          isRunning := false;
          isCompleted := true;
          fired := true;
          timeLeft := 0;
        } else {
          timeLeft := timeLeft - 1;
        }
      }
    }

    /** The Start/Pause button, which is disabled once the timer has completed. */
    method ToggleTimer()
      requires !isCompleted
      modifies this
      ensures State() == old(State()).(isRunning := !old(isRunning))
    {
      isRunning := !isRunning;
    }

    method ResetTimer()
      modifies this
      ensures State() == Initial(targetMinutes)
    {
      timeLeft := targetMinutes * 60;
      isRunning := false;
      isCompleted := false;
    }
  }
}
