/** The Pomodoro timer of the focus page: a 25-minute focus phase, then a 5-minute break,
    counting completed focus phases. */
module FocusMode {
  import opened Wrappers
  import opened Text

  const FocusSeconds: nat := 25 * 60
  const BreakSeconds: nat := 5 * 60

  /** The four state fields of the timer. */
  datatype TimerState = TimerState(isRunning: bool, timeLeft: nat, isBreak: bool, cycles: nat)

  /** Fresh component: stopped, a full focus phase, no cycles yet. */
  const Initial: TimerState := TimerState(false, FocusSeconds, false, 0)

  function PhaseSeconds(isBreak: bool): nat
  {
    if isBreak then BreakSeconds else FocusSeconds
  }

  /** Every state the timer can be observed in: some time left, at most a full phase. */
  ghost predicate InRange(s: TimerState)
  {
    0 < s.timeLeft <= PhaseSeconds(s.isBreak)
  }

  /** The branch of the effect taken when `timeLeft` is 0: stop, and switch phase. */
  function Settle(s: TimerState): TimerState
  {
    if s.timeLeft != 0 then s
    else if !s.isBreak then TimerState(false, BreakSeconds, true, s.cycles + 1)
    else TimerState(false, FocusSeconds, false, s.cycles)
  }

  /** One second of the interval: decrement while running, then let the effect settle a zero. */
  function Step(s: TimerState): TimerState
  {
    if s.isRunning && s.timeLeft > 0 then Settle(s.(timeLeft := s.timeLeft - 1)) else Settle(s)
  }

  function Toggled(s: TimerState): TimerState
  {
    s.(isRunning := !s.isRunning)
  }

  function ResetState(s: TimerState): TimerState
  {
    TimerState(false, FocusSeconds, false, s.cycles)
  }

  /** `n` consecutive seconds. */
  function Run(s: TimerState, n: nat): TimerState
    decreases n
  {
    if n == 0 then s else Run(Step(s), n - 1)
  }

  /** The state the timer lands in when the current phase runs out. */
  function PhaseEnd(s: TimerState): TimerState
  {
    if !s.isBreak then TimerState(false, BreakSeconds, true, s.cycles + 1)
    else TimerState(false, FocusSeconds, false, s.cycles)
  }

  /** Every operation keeps the timer in range. */
  lemma OperationsKeepRange(s: TimerState)
    requires InRange(s)
    ensures InRange(Step(s)) && InRange(Toggled(s)) && InRange(ResetState(s))
  {
  }

  /** Each second moves the time by at most one unit, or ends the phase; cycles grow by at most one. */
  lemma StepBehaviour(s: TimerState)
    requires InRange(s)
    ensures var r := Step(s);
      && (s.isRunning && s.timeLeft > 1 ==> r == s.(timeLeft := s.timeLeft - 1))
      && (s.isRunning && s.timeLeft == 1 ==> r == PhaseEnd(s))
      && (!s.isRunning ==> r == s)
      && (r.cycles == s.cycles || (r.cycles == s.cycles + 1 && !s.isBreak && r.isBreak))
  {
  }

  /** While running, `k` seconds short of the end of a phase, the time simply counts down by `k`. */
  lemma {:induction false} CountDown(s: TimerState, k: nat)
    requires s.isRunning && k < s.timeLeft
    ensures Run(s, k) == s.(timeLeft := s.timeLeft - k)
    decreases k
  {
    if k > 0 {
      assert Step(s) == s.(timeLeft := s.timeLeft - 1);
      CountDown(Step(s), k - 1);
    }
  }

  /** A running phase that is left alone for its remaining seconds ends stopped in the other phase. */
  lemma {:induction false} RunToPhaseEnd(s: TimerState)
    requires s.isRunning && s.timeLeft > 0
    ensures Run(s, s.timeLeft) == PhaseEnd(s)
  {
    var k := s.timeLeft - 1;
    CountDown(s, k);
    var t := s.(timeLeft := 1);
    assert Run(s, k) == t;
    RunAppend(s, k, 1);
    assert Run(t, 1) == Step(t);
  }

  lemma {:induction false} RunAppend(s: TimerState, m: nat, n: nat)
    ensures Run(s, m + n) == Run(Run(s, m), n)
    decreases m
  {
    if m > 0 {
      RunAppend(Step(s), m - 1, n);
    }
  }

  /** Start a fresh timer and wait 1500 seconds: a stopped break with one cycle. Start again and
      wait 300 seconds: a stopped focus phase, still one cycle. */
  lemma FullCycleScenario()
    ensures Run(Toggled(Initial), 1500) == TimerState(false, 300, true, 1)
    ensures Run(Toggled(Run(Toggled(Initial), 1500)), 300) == TimerState(false, 1500, false, 1)
  {
    RunToPhaseEnd(Toggled(Initial));
    RunToPhaseEnd(TimerState(true, 300, true, 1));
  }

  /** Toggling twice changes nothing. */
  lemma ToggleTwice(s: TimerState)
    ensures Toggled(Toggled(s)) == s && Toggled(s).isRunning != s.isRunning
  {
  }

  /** `formatTime`: minutes and seconds, each zero-padded to two digits, separated by a colon. */
  function FormatTime(seconds: nat): string
  {
    PadStart2(NatToString(seconds / 60)) + ":" + PadStart2(NatToString(seconds % 60))
  }

  /** Below 100 minutes the display is exactly `MM:SS`. */
  lemma FormatTimeLayout(s: nat)
    requires s < 6000
    ensures FormatTime(s) == [DigitChar(s / 600), DigitChar(s / 60 % 10), ':', DigitChar(s % 60 / 10), DigitChar(s % 10)]
  {
    assert s / 60 / 10 == s / 600;
    assert s % 60 % 10 == s % 10;
    TwoDigits(s / 60);
    TwoDigits(s % 60);
  }

  /** A full focus phase reads "25:00", a full break "05:00". */
  lemma FormatPhaseLengths()
    ensures FormatTime(FocusSeconds) == "25:00" && ParseTime("25:00") == Some(FocusSeconds)
    ensures FormatTime(BreakSeconds) == "05:00" && ParseTime("05:00") == Some(BreakSeconds)
  {
    FocusDisplay();
    BreakDisplay();
  }

  lemma FocusDisplay()
    ensures FormatTime(1500) == "25:00" && ParseTime("25:00") == Some(1500)
  {
    var t := FormatTime(1500);
    assert t == "25:00";
    FormatTimeRoundTrip(1500);
  }

  lemma BreakDisplay()
    ensures FormatTime(300) == "05:00" && ParseTime("05:00") == Some(300)
  {
    var t := FormatTime(300);
    assert t == "05:00";
    FormatTimeRoundTrip(300);
  }

  lemma TwoDigits(n: nat)
    requires n < 100
    ensures PadStart2(NatToString(n)) == [DigitChar(n / 10), DigitChar(n % 10)]
  {
    if n >= 10 {
      assert NatToString(n / 10) == [DigitChar(n / 10)];
    }
  }

  /** Reads a `minutes:seconds` display back into seconds. */
  function ParseTime(t: string): Option<nat>
  {
    match IndexOf(t, ':')
    case None => None
    case Some(k) => ParseParts(t[..k], t[k + 1..])
  }

  function ParseParts(mm: string, ss: string): Option<nat>
  {
    if mm != [] && ss != [] && IsDigits(mm) && IsDigits(ss)
    then Some(60 * ParseDecimal(mm) + ParseDecimal(ss))
    else None
  }

  lemma ParseJoined(a: string, b: string)
    requires a != [] && b != [] && IsDigits(a) && IsDigits(b)
    ensures ParseTime(a + ":" + b) == Some(60 * ParseDecimal(a) + ParseDecimal(b))
  {
    ColonAfterDigits(a, b);
    var t := a + ":" + b;
    assert t[..|a|] == a;
    assert t[|a| + 1..] == b;
    calc {
      ParseTime(t);
      ParseParts(t[..|a|], t[|a| + 1..]);
      ParseParts(a, b);
    }
  }

  lemma ColonAfterDigits(a: string, b: string)
    requires IsDigits(a)
    ensures IndexOf(a + ":" + b, ':') == Some(|a|)
  {
    assert a + ":" + b == a + [':'] + b;
    assert forall i :: 0 <= i < |a| ==> a[i] != ':';
    IndexOfAfter(a, ':', b);
  }

  /** The display always reads back as the number of seconds it shows. */
  lemma FormatTimeRoundTrip(s: nat)
    ensures ParseTime(FormatTime(s)) == Some(s)
  {
    var m, r := PadStart2(NatToString(s / 60)), PadStart2(NatToString(s % 60));
    PaddedValue(s / 60);
    PaddedValue(s % 60);
    ParseJoined(m, r);
    assert 60 * (s / 60) + s % 60 == s;
  }

  lemma PaddedValue(n: nat)
    ensures PadStart2(NatToString(n)) != [] && IsDigits(PadStart2(NatToString(n)))
    ensures ParseDecimal(PadStart2(NatToString(n))) == n
  {
    PadStart2Parse(NatToString(n));
    ParseNatToString(n);
  }

  /** The timer widget. Its four fields are updated by the tick effect and the two buttons. */
  class PomodoroTimer {
    var isRunning: bool
    var timeLeft: nat
    var isBreak: bool
    var cycles: nat

    function State(): TimerState
      reads this
    {
      TimerState(isRunning, timeLeft, isBreak, cycles)
    }

    ghost predicate Valid()
      reads this
    {
      InRange(State())
    }

    constructor ()
      ensures State() == Initial && Valid()
    {
      isRunning, timeLeft, isBreak, cycles := false, FocusSeconds, false, 0;
    }

    /** One second elapses. */
    method Tick()
      modifies this
      ensures State() == Step(old(State()))
      ensures old(Valid()) ==> Valid()
      ensures old(isRunning) && old(timeLeft) > 1 ==>
        timeLeft == old(timeLeft) - 1 && isRunning && isBreak == old(isBreak) && cycles == old(cycles)
      ensures old(isRunning) && old(timeLeft) == 1 ==> State() == PhaseEnd(old(State()))
      ensures !old(isRunning) && old(timeLeft) > 0 ==> unchanged(this)
    {
      if isRunning && timeLeft > 0 {
        timeLeft := timeLeft - 1;
      }
      if timeLeft == 0 {
        isRunning := false;
        if !isBreak {
          cycles := cycles + 1;
          timeLeft := BreakSeconds;
          isBreak := true;
        } else {
          timeLeft := FocusSeconds;
          isBreak := false;
        }
      }
    }

    /** The start/pause button. */
    method ToggleTimer()
      modifies this`isRunning
      ensures State() == Toggled(old(State()))
      ensures old(Valid()) ==> Valid()
    {
      isRunning := !isRunning;
    }

    /** The reset button: stopped, full focus phase; the cycle count survives. */
    method ResetTimer()
      modifies this
      ensures State() == ResetState(old(State()))
      ensures Valid()
    {
      isRunning := false;
      timeLeft := FocusSeconds;
      isBreak := false;
    }

    /** The big `MM:SS` text: it reads back as the seconds left, and in range it is five characters. */
    function Display(): (r: string)
      reads this
      ensures ParseTime(r) == Some(timeLeft)
      ensures Valid() ==> |r| == 5 && r[2] == ':'
    {
      FormatTimeRoundTrip(timeLeft);
      if timeLeft < 6000 then
        FormatTimeLayout(timeLeft);
        FormatTime(timeLeft)
      else FormatTime(timeLeft)
    }
  }

  /** Drives a fresh timer through a full focus phase and a full break with the class's methods alone. */
  method DriveFullCycle() returns (t: PomodoroTimer)
    ensures t.State() == TimerState(false, 1500, false, 1)
  {
    t := new PomodoroTimer();
    t.ToggleTimer();
    var i := 0;
    while i < 1500
      invariant 0 <= i <= 1500
      invariant t.State() == Run(Toggled(Initial), i)
    {
      RunAppend(Toggled(Initial), i, 1);
      t.Tick();
      i := i + 1;
    }
    FullCycleScenario();
    assert t.State() == TimerState(false, 300, true, 1);
    ghost var mid := t.State();
    t.ToggleTimer();
    i := 0;
    while i < 300
      invariant 0 <= i <= 300
      invariant t.State() == Run(Toggled(mid), i)
    {
      RunAppend(Toggled(mid), i, 1);
      t.Tick();
      i := i + 1;
    }
  }
}
