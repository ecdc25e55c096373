/**
 * The mock-test page: an exam countdown in one of three modes, started and
 * paused by the user, decremented once a second while running and stopped
 * when it reaches zero, and its clock display.
 */
module MockPage {
  import opened Text
  import Optional

  datatype Mode = Full | Listening | Reading

  /** The length of each mode, in seconds: 120, 45 and 75 minutes. */
  function Duration(m: Mode): (d: nat)
    ensures d > 0
  {
    match m
    case Full => 7200
    case Listening => 2700
    case Reading => 4500
  }

  lemma DurationsAreTheTestParts()
    ensures Duration(Full) == Duration(Listening) + Duration(Reading)
    ensures Duration(Listening) == 45 * 60 && Duration(Reading) == 75 * 60
  {
  }

  /**
   * `formatTime`: "h:mm:ss" when there is at least an hour left, "mm:ss" otherwise;
   * minutes and seconds below ten get a leading zero.
   */
  function FormatTime(seconds: nat): (r: string)
    ensures ':' in r
  {
    var h, m, s := seconds / 3600, (seconds % 3600) / 60, seconds % 60;
    var r := (if h > 0 then NatToString(h) + ":" else "") + Pad2(m) + ":" + Pad2(s);
    assert r[|r| - 3] == ':';
    r
  }

  /** The pieces between the colons of FormatTime's output. */
  function ClockFields(seconds: nat): seq<string> {
    var h, m, s := seconds / 3600, (seconds % 3600) / 60, seconds % 60;
    if h > 0 then [NatToString(h), Pad2(m), Pad2(s)] else [Pad2(m), Pad2(s)]
  }

  lemma FormatTimeJoins(seconds: nat)
    ensures FormatTime(seconds) == Join(ClockFields(seconds), ':')
  {
    var f := ClockFields(seconds);
    if seconds / 3600 > 0 {
      assert Join(f[1..], ':') == f[1] + [':'] + f[2];
    }
  }

  predicate DigitField(s: string) {
    |s| > 0 && AllDigits(s)
  }

  /** A minutes or seconds field: digits reading below 60. */
  predicate SexagesimalField(s: string) {
    DigitField(s) && DigitsValue(s) < 60
  }

  /**
   * Reads a clock back: "h:mm:ss" or "mm:ss" to seconds, anything else to None.
   * Minutes and seconds must read below 60, so every accepted text is a proper clock.
   */
  function ParseClock(str: string): Optional.Option<nat> {
    var p := Split(str, ':');
    if |p| == 3 && DigitField(p[0]) && SexagesimalField(p[1]) && SexagesimalField(p[2]) then
      Optional.Some(DigitsValue(p[0]) * 3600 + DigitsValue(p[1]) * 60 + DigitsValue(p[2]))
    else if |p| == 2 && SexagesimalField(p[0]) && SexagesimalField(p[1]) then
      Optional.Some(DigitsValue(p[0]) * 60 + DigitsValue(p[1]))
    else Optional.None
  }

  /** Division by 60 is determined by any quotient and remainder that fit. */
  lemma DivModSixty(x: int, q: int, t: int)
    requires x == 60 * q + t && 0 <= t < 60
    ensures x / 60 == q && x % 60 == t
  {
  }

  /** Hours, minutes and seconds put back together give the count. */
  lemma ClockArith(seconds: nat)
    ensures seconds == seconds / 3600 * 3600 + (seconds % 3600) / 60 * 60 + seconds % 60
  {
    var q, r := seconds / 3600, seconds % 3600;
    var m, t := r / 60, r % 60;
    assert seconds == 60 * (60 * q + m) + t;
    DivModSixty(seconds, 60 * q + m, t);
  }

  /** Every field of the clock is a run of digits, so none holds a colon. */
  lemma ClockFieldsDigits(seconds: nat)
    ensures forall k :: 0 <= k < |ClockFields(seconds)| ==>
      DigitField(ClockFields(seconds)[k]) && ':' !in ClockFields(seconds)[k]
  {
    var f := ClockFields(seconds);
    forall k | 0 <= k < |f| ensures DigitField(f[k]) && ':' !in f[k] {
      assert AllDigits(f[k]);
    }
  }

  /** The fields read back as the hours, minutes and seconds they were written from. */
  lemma ClockFieldsValues(seconds: nat)
    ensures var f, h, m, s := ClockFields(seconds), seconds / 3600, (seconds % 3600) / 60, seconds % 60;
      if h > 0 then |f| == 3 && DigitsValue(f[0]) == h && DigitsValue(f[1]) == m && DigitsValue(f[2]) == s
      else |f| == 2 && DigitsValue(f[0]) == m && DigitsValue(f[1]) == s
  {
    Pad2Value((seconds % 3600) / 60);
    Pad2Value(seconds % 60);
    NatToStringValue(seconds / 3600);
  }

  /** A text whose colon-separated pieces are the clock's fields reads back as the count. */
  lemma ParseClockFields(str: string, seconds: nat)
    requires Split(str, ':') == ClockFields(seconds)
    ensures ParseClock(str) == Optional.Some(seconds)
  {
    ClockFieldsDigits(seconds);
    ClockFieldsValues(seconds);
    ClockArith(seconds);
    if seconds / 3600 == 0 {
      assert seconds % 3600 == seconds;
    }
  }

  /** The display loses nothing: the clock reads back as the seconds it was made from. */
  lemma FormatTimeRoundTrip(seconds: nat)
    ensures ParseClock(FormatTime(seconds)) == Optional.Some(seconds)
    ensures var p := Split(FormatTime(seconds), ':');
      |p| >= 2 && SexagesimalField(p[|p| - 2]) && SexagesimalField(p[|p| - 1])
  {
    FormatTimeJoins(seconds);
    ClockFieldsDigits(seconds);
    SplitJoin(ClockFields(seconds), ':');
    ParseClockFields(FormatTime(seconds), seconds);
  }

  /** A number below 100 is written as its two digits. */
  lemma Pad2Digits(n: nat)
    requires n < 100
    ensures Pad2(n) == [DigitChar(n / 10), DigitChar(n % 10)]
  {
    if n >= 10 {
      assert NatToString(n / 10) == [DigitChar(n / 10)];
    }
  }

  /** Below ten hours the clock is seven characters: one hour digit, then two each for minutes and seconds. */
  lemma ClockCharacters(seconds: nat)
    requires 3600 <= seconds < 36000
    ensures FormatTime(seconds) == [DigitChar(seconds / 3600), ':',
      DigitChar((seconds % 3600) / 60 / 10), DigitChar((seconds % 3600) / 60 % 10), ':',
      DigitChar(seconds % 60 / 10), DigitChar(seconds % 60 % 10)]
  {
    var h, m, s := seconds / 3600, (seconds % 3600) / 60, seconds % 60;
    assert NatToString(h) == [DigitChar(h)];
    Pad2Digits(m);
    Pad2Digits(s);
  }

  /** Below an hour it is five characters, with no hour field. */
  lemma ShortClockCharacters(seconds: nat)
    requires seconds < 3600
    ensures FormatTime(seconds) == [DigitChar(seconds / 60 / 10), DigitChar(seconds / 60 % 10), ':',
      DigitChar(seconds % 60 / 10), DigitChar(seconds % 60 % 10)]
  {
    Pad2Digits(seconds / 60);
    Pad2Digits(seconds % 60);
  }

  /** Full mode opens at "2:00:00". */
  lemma FullModeClock(m: Mode)
    requires m == Full
    ensures FormatTime(Duration(m)) == "2:00:00"
  {
    ClockCharacters(Duration(m));
  }

  /** Listening mode opens at "45:00". */
  lemma ListeningModeClock(m: Mode)
    requires m == Listening
    ensures FormatTime(Duration(m)) == "45:00"
  {
    ShortClockCharacters(Duration(m));
  }

  /** Reading mode opens at "1:15:00". */
  lemma ReadingModeClock(m: Mode)
    requires m == Reading
    ensures FormatTime(Duration(m)) == "1:15:00"
  {
    ClockCharacters(Duration(m));
  }

  /** The timer's state: running or not, seconds left, and the chosen mode. */
  datatype TimerState = TimerState(isActive: bool, timeLeft: int, mode: Mode)

  /** What the timer keeps true: the count lies within the mode's length, and a timer at zero is stopped. */
  predicate Consistent(t: TimerState) {
    0 <= t.timeLeft <= Duration(t.mode) && (t.timeLeft == 0 ==> !t.isActive)
  }

  /** The effect that runs after each change: a timer at zero that is not counting is stopped. */
  function Settle(t: TimerState): TimerState {
    if !(t.isActive && t.timeLeft > 0) && t.timeLeft == 0 then t.(isActive := false) else t
  }

  /** One firing of the one-second interval, which exists only while running with time left. */
  function Ticked(t: TimerState): TimerState {
    if t.isActive && t.timeLeft > 0 then Settle(t.(timeLeft := t.timeLeft - 1)) else t
  }

  /** Start/Pause. */
  function Toggled(t: TimerState): TimerState {
    Settle(t.(isActive := !t.isActive))
  }

  /** `setTimerMode`: stop and load the mode's full length; Reset does this with the current mode. */
  function WithMode(m: Mode): (r: TimerState)
    ensures Consistent(r) && !r.isActive && r.timeLeft == Duration(m)
  {
    TimerState(false, Duration(m), m)
  }

  lemma TickedKeepsConsistent(t: TimerState)
    requires Consistent(t)
    ensures Consistent(Ticked(t))
    ensures t.isActive ==> Ticked(t).timeLeft == t.timeLeft - 1 && Ticked(t).mode == t.mode
    ensures !t.isActive ==> Ticked(t) == t
  {
  }

  lemma ToggledKeepsConsistent(t: TimerState)
    requires Consistent(t)
    ensures Consistent(Toggled(t))
    ensures Toggled(t).timeLeft == t.timeLeft && Toggled(t).mode == t.mode
    ensures Toggled(t).isActive <==> !t.isActive && t.timeLeft > 0
  {
  }

  /** `n` seconds of the interval. */
  function Ticks(t: TimerState, n: nat): TimerState
    decreases n
  {
    if n == 0 then t else Ticks(Ticked(t), n - 1)
  }

  /** A running timer counts down one second per tick and stops exactly when it reaches zero. */
  lemma {:induction false} CountdownRunsOut(t: TimerState, n: nat)
    requires Consistent(t) && t.isActive && n <= t.timeLeft
    ensures Consistent(Ticks(t, n))
    ensures Ticks(t, n).timeLeft == t.timeLeft - n && Ticks(t, n).mode == t.mode
    ensures Ticks(t, n).isActive <==> n < t.timeLeft
    decreases n
  {
    if n > 0 {
      TickedKeepsConsistent(t);
      if t.timeLeft > 1 {
        CountdownRunsOut(Ticked(t), n - 1);
      } else {
        assert n == 1 && !Ticked(t).isActive;
      }
    }
  }

  /** A stopped timer stays as it is, however many seconds pass. */
  lemma {:induction false} StoppedStays(t: TimerState, n: nat)
    requires !t.isActive
    ensures Ticks(t, n) == t
    decreases n
  {
    if n > 0 {
      StoppedStays(Ticked(t), n - 1);
    }
  }

  /** The timer card of the page. */
  class ExamTimer {
    var isActive: bool
    var timeLeft: int
    var mode: Mode

    function State(): TimerState
      reads this
    {
      TimerState(isActive, timeLeft, mode)
    }

    predicate Valid()
      reads this
    {
      Consistent(State())
    }

    /** The page opens in Full mode, stopped, at 7200 seconds. */
    constructor ()
      ensures State() == WithMode(Full) && Valid()
    {
      isActive, timeLeft, mode := false, 7200, Full;
    }

    /** The mode buttons. */
    method SetTimerMode(m: Mode)
      modifies this
      ensures State() == WithMode(m) && Valid()
    {
      mode := m;
      isActive := false;
      match m
      case Full => timeLeft := 7200;
      case Listening => timeLeft := 2700;
      case Reading => timeLeft := 4500;
    }

    /** The reset button reloads the current mode. */
    method Reset()
      modifies this
      ensures State() == WithMode(old(mode)) && Valid()
    {
      SetTimerMode(mode);
    }

    /** The Start/Pause button, followed by the effect. */
    method ToggleActive()
      requires Valid()
      modifies this
      ensures State() == Toggled(old(State())) && Valid()
    {
      ToggledKeepsConsistent(State());
      isActive := !isActive;
      if !(isActive && timeLeft > 0) && timeLeft == 0 {
        isActive := false;
      }
    }

    /** The interval callback `time => time - 1`, followed by the effect. */
    method Tick()
      requires Valid()
      modifies this
      ensures State() == Ticked(old(State())) && Valid()
    {
      TickedKeepsConsistent(State());
      if isActive && timeLeft > 0 {
        timeLeft := timeLeft - 1;
        if !(isActive && timeLeft > 0) && timeLeft == 0 {
          isActive := false;
        }
      }
    }
  }
}
