/** The countdown of the `Timer` component: its state, the one-second tick
    that the interval callback performs, and the mm:ss display. A tick is an
    explicit step; the interval that delivers it is the `isRunning` prop and
    the `intervalCleared` flag. */
module Timer {
  import opened NumberText
  import opened Wrappers

  /** The callbacks a tick can fire, in the order it fires them. */
  datatype Signal = Flip | Complete

  /** `timeRemaining` and `firstSide` are the component's state; `isRunning`
      is its prop; `intervalCleared` records that the callback has called
      `clearInterval` on the interval it runs in. */
  datatype TimerState = TimerState(
    timeRemaining: int,
    firstSide: bool,
    isRunning: bool,
    intervalCleared: bool)

  datatype TickResult = TickResult(next: TimerState, signals: seq<Signal>)

  /** `Math.floor(totalTime / 2)`. */
  function HalfwayPoint(totalTime: int): (h: int)
    ensures 2 * h <= totalTime < 2 * h + 2
  {
    totalTime / 2
  }

  /** The state of a freshly mounted timer, and the state its `totalTime`
      effect restores. */
  function Initial(totalTime: int, isRunning: bool): (s: TimerState)
    ensures s.timeRemaining == totalTime && s.firstSide
    ensures s.isRunning == isRunning && !s.intervalCleared
  {
    TimerState(totalTime, true, isRunning, false)
  }

  /** Whether an interval is registered and still delivers ticks. */
  predicate Ticking(s: TimerState) {
    s.isRunning && !s.intervalCleared
  }

  /** One run of the interval callback. */
  function Step(totalTime: int, s: TimerState): (r: TickResult)
    ensures !Ticking(s) ==> r.next == s && r.signals == []
    ensures Ticking(s) ==>
      && r.next.timeRemaining == (if s.timeRemaining - 1 > 0 then s.timeRemaining - 1 else 0)
      && (Flip in r.signals <==> s.firstSide && s.timeRemaining - 1 == HalfwayPoint(totalTime))
      && (Complete in r.signals <==> s.timeRemaining - 1 <= 0)
      && r.next.firstSide == (s.firstSide && Flip !in r.signals)
      && r.next.intervalCleared == (Complete in r.signals)
    ensures r.next.isRunning == s.isRunning
    ensures r.signals == (if Flip in r.signals then [Flip] else [])
                       + (if Complete in r.signals then [Complete] else [])
  {
    if !Ticking(s) then TickResult(s, [])
    else
      var newTime := s.timeRemaining - 1;
      var flip := s.firstSide && newTime == HalfwayPoint(totalTime);
      var flipped := if flip then [Flip] else [];
      if newTime <= 0 then
        TickResult(TimerState(0, s.firstSide && !flip, s.isRunning, true), flipped + [Complete])
      else
        TickResult(TimerState(newTime, s.firstSide && !flip, s.isRunning, false), flipped)
  }

  /** The state after `n` ticks. */
  function Run(totalTime: int, s: TimerState, n: nat): TimerState {
    if n == 0 then s else Step(totalTime, Run(totalTime, s, n - 1)).next
  }

  /** The signals fired by the first `n` ticks, in order. */
  function Signals(totalTime: int, s: TimerState, n: nat): seq<Signal> {
    if n == 0 then []
    else Signals(totalTime, s, n - 1) + Step(totalTime, Run(totalTime, s, n - 1)).signals
  }

  /** The bound on the remaining time, for a non-negative duration. */
  predicate Inv(totalTime: int, s: TimerState) {
    totalTime >= 0 ==>
      && 0 <= s.timeRemaining <= totalTime
      && (s.intervalCleared ==> s.timeRemaining == 0)
  }

  // ---------------------------------------------------------------------
  // Properties of the tick.

  lemma InitialInv(totalTime: int, isRunning: bool)
    ensures Inv(totalTime, Initial(totalTime, isRunning))
  {
  }

  /** The remaining time stays within [0, totalTime] whatever number of
      ticks is delivered. */
  lemma {:induction false} RunInv(totalTime: int, s: TimerState, n: nat)
    requires Inv(totalTime, s)
    ensures Inv(totalTime, Run(totalTime, s, n))
  {
    if n > 0 {
      RunInv(totalTime, s, n - 1);
    }
  }

  /** The number of times `x` occurs in `sigs`. */
  function Count(sigs: seq<Signal>, x: Signal): nat {
    if sigs == [] then 0
    else Count(sigs[..|sigs| - 1], x) + (if sigs[|sigs| - 1] == x then 1 else 0)
  }

  lemma {:induction false} CountAppend(a: seq<Signal>, b: seq<Signal>, x: Signal)
    ensures Count(a + b, x) == Count(a, x) + Count(b, x)
    decreases |b|
  {
    if b == [] {
      assert a + b == a;
    } else {
      assert (a + b)[..|a + b| - 1] == a + b[..|b| - 1];
      assert (a + b)[|a + b| - 1] == b[|b| - 1];
      CountAppend(a, b[..|b| - 1], x);
    }
  }

  lemma CountSingleton(y: Signal, x: Signal)
    ensures Count([y], x) == if x == y then 1 else 0
  {
    assert [y][..0] == [];
  }

  /** How many of each signal one tick fires. */
  lemma StepCounts(totalTime: int, s: TimerState)
    ensures var r := Step(totalTime, s);
      && Count(r.signals, Flip) == (if s.firstSide && !r.next.firstSide then 1 else 0)
      && Count(r.signals, Complete) == (if !s.intervalCleared && r.next.intervalCleared then 1 else 0)
      && (!s.firstSide ==> !r.next.firstSide)
      && (s.intervalCleared ==> r.next.intervalCleared)
  {
    var r := Step(totalTime, s);
    if Ticking(s) {
      var flip := s.firstSide && s.timeRemaining - 1 == HalfwayPoint(totalTime);
      var flips: seq<Signal> := if flip then [Flip] else [];
      var completes: seq<Signal> := if s.timeRemaining - 1 <= 0 then [Complete] else [];
      assert r.signals == flips + completes;
      CountAppend(flips, completes, Flip);
      CountAppend(flips, completes, Complete);
      CountSingleton(Flip, Flip);
      CountSingleton(Flip, Complete);
      CountSingleton(Complete, Flip);
      CountSingleton(Complete, Complete);
    }
  }

  /** Flip fires at most once, and not at all once the first side is done. */
  lemma {:induction false} FlipAtMostOnce(totalTime: int, s: TimerState, n: nat)
    ensures Count(Signals(totalTime, s, n), Flip)
         == (if s.firstSide && !Run(totalTime, s, n).firstSide then 1 else 0)
    ensures !s.firstSide ==> !Run(totalTime, s, n).firstSide
  {
    if n > 0 {
      FlipAtMostOnce(totalTime, s, n - 1);
      var before := Run(totalTime, s, n - 1);
      StepCounts(totalTime, before);
      CountAppend(Signals(totalTime, s, n - 1), Step(totalTime, before).signals, Flip);
    }
  }

  /** Completion fires at most once: it clears the interval. */
  lemma {:induction false} CompleteAtMostOnce(totalTime: int, s: TimerState, n: nat)
    ensures Count(Signals(totalTime, s, n), Complete)
         == (if !s.intervalCleared && Run(totalTime, s, n).intervalCleared then 1 else 0)
    ensures s.intervalCleared ==> Run(totalTime, s, n).intervalCleared
  {
    if n > 0 {
      CompleteAtMostOnce(totalTime, s, n - 1);
      var before := Run(totalTime, s, n - 1);
      StepCounts(totalTime, before);
      CountAppend(Signals(totalTime, s, n - 1), Step(totalTime, before).signals, Complete);
    }
  }

  /** A timer with no live interval neither changes nor fires. */
  lemma {:induction false} IdleStaysIdle(totalTime: int, s: TimerState, n: nat)
    requires !Ticking(s)
    ensures Run(totalTime, s, n) == s && Signals(totalTime, s, n) == []
  {
    if n > 0 {
      IdleStaysIdle(totalTime, s, n - 1);
    }
  }

  /** The state after k ticks of a session of length T >= 1, for k <= T. */
  lemma {:induction false} Schedule(T: int, k: nat)
    requires T >= 1 && k <= T
    ensures Run(T, Initial(T, true), k)
         == TimerState(T - k, k < T - HalfwayPoint(T), true, k == T)
  {
    if k > 0 {
      Schedule(T, k - 1);
    }
  }

  /** What tick number k (counting from 1) fires: flip on tick
      T - floor(T/2), completion on tick T, flip first when both. */
  lemma TickSignals(T: int, k: nat)
    requires T >= 1 && 1 <= k <= T
    ensures Step(T, Run(T, Initial(T, true), k - 1)).signals
         == (if k == T - HalfwayPoint(T) then [Flip] else [])
          + (if k == T then [Complete] else [])
  {
    Schedule(T, k - 1);
  }

  /** Everything a session of length T >= 1 fires up to tick k. */
  lemma {:induction false} SignalsUpTo(T: int, k: nat)
    requires T >= 1 && k <= T
    ensures Signals(T, Initial(T, true), k)
         == (if k >= T - HalfwayPoint(T) then [Flip] else [])
          + (if k == T then [Complete] else [])
  {
    if k > 0 {
      SignalsUpTo(T, k - 1);
      TickSignals(T, k);
    }
  }

  /** A whole session: exactly one flip, then exactly one completion, and
      remaining time 0 with the interval cleared. */
  lemma WholeSession(T: int)
    requires T >= 1
    ensures Signals(T, Initial(T, true), T) == [Flip, Complete]
    ensures Run(T, Initial(T, true), T) == TimerState(0, false, true, true)
  {
    SignalsUpTo(T, T);
    Schedule(T, T);
  }

  /** After completion, further ticks change nothing and fire nothing. */
  lemma {:induction false} AfterCompletion(T: int, m: nat)
    requires T >= 1
    ensures Run(T, Initial(T, true), T + m) == Run(T, Initial(T, true), T)
    ensures Signals(T, Initial(T, true), T + m) == [Flip, Complete]
  {
    WholeSession(T);
    if m > 0 {
      AfterCompletion(T, m - 1);
    }
  }

  /** With totalTime 0 the first tick reaches -1, which is not the halfway
      point 0: completion fires without a flip. */
  lemma ZeroDuration()
    ensures Step(0, Initial(0, true)) == TickResult(TimerState(0, true, true, true), [Complete])
  {
  }

  /** The medium-rare session: flip after 150 ticks, completion after 300. */
  lemma MediumRare()
    ensures Signals(300, Initial(300, true), 149) == []
    ensures Signals(300, Initial(300, true), 150) == [Flip]
    ensures !Run(300, Initial(300, true), 150).firstSide
    ensures Signals(300, Initial(300, true), 299) == [Flip]
    ensures Signals(300, Initial(300, true), 300) == [Flip, Complete]
    ensures Run(300, Initial(300, true), 300) == TimerState(0, false, true, true)
  {
    SignalsUpTo(300, 149);
    SignalsUpTo(300, 150);
    Schedule(300, 150);
    SignalsUpTo(300, 299);
    WholeSession(300);
  }

  /** An odd duration flips at remaining time floor(241 / 2) = 120. */
  lemma OddDuration()
    ensures Run(241, Initial(241, true), 121).timeRemaining == 120
    ensures Signals(241, Initial(241, true), 120) == []
    ensures Signals(241, Initial(241, true), 121) == [Flip]
  {
    Schedule(241, 121);
    SignalsUpTo(241, 120);
    SignalsUpTo(241, 121);
  }

  // ---------------------------------------------------------------------
  // The mm:ss display.

  /** JavaScript's `a % b` for b > 0: the remainder takes the sign of a. */
  function TruncRem(a: int, b: int): (r: int)
    requires b > 0
    ensures a >= 0 ==> r == a % b
    ensures a < 0 ==> -b < r <= 0 && r == a + b * ((-a) / b)
  {
    if a >= 0 then a % b
    else
      assert -a == b * ((-a) / b) + (-a) % b;
      -((-a) % b)
  }

  /** One display field: the number's text, padded with '0' to two
      characters. */
  function Field(n: int): (f: string)
    ensures |f| >= 2
    ensures n >= 0 ==> AllDigits(f) && DecimalValue(f) == n
    ensures n < 0 ==> f[0] == '-' && AllDigits(f[1..]) && DecimalValue(f[1..]) == -n
    ensures |f| > 2 ==> f[0] != '0' && (n < 0 ==> f[1] != '0')
  {
    if n >= 0 then
      PadStartValue(IntToString(n), 2);
      PadStart(IntToString(n), 2, '0')
    else
      PadStart(IntToString(n), 2, '0')
  }

  /** The text shown for `t` remaining seconds: the minutes t div 60, a
      colon, and the seconds as JavaScript's t % 60, each a field. For
      t >= 0 the seconds are two digits after the colon. */
  function Format(t: int): (text: string)
    ensures t >= 0 ==> ParseClock(text) == Some(Clock(t / 60, t % 60))
  {
    if t >= 0 then
      FieldOfNat(t / 60);
      FieldOfNat(t % 60);
      assert TruncRem(t, 60) == t % 60;
      ParseClockOf(Field(t / 60), Field(t % 60));
      Field(t / 60) + ":" + Field(TruncRem(t, 60))
    else
      Field(t / 60) + ":" + Field(TruncRem(t, 60))
  }

  /** A display read back into its two fields. */
  datatype Clock = Clock(minutes: nat, seconds: nat)

  /** The number of seconds a display stands for. */
  function TotalSeconds(c: Clock): nat {
    c.minutes * 60 + c.seconds
  }

  /** Reads a display back: minutes, a colon, and two second digits. */
  function ParseClock(s: string): Option<Clock> {
    if |s| >= 4 && s[|s| - 3] == ':' && AllDigits(s[..|s| - 3]) && AllDigits(s[|s| - 2..])
    then Some(Clock(DecimalValue(s[..|s| - 3]), DecimalValue(s[|s| - 2..])))
    else None
  }

  /** A field of a natural number reads back as that number and has
      exactly two characters below 100. */
  lemma FieldOfNat(n: nat)
    ensures AllDigits(Field(n)) && DecimalValue(Field(n)) == n
    ensures |Field(n)| >= 2 && (n < 100 <==> |Field(n)| == 2)
    ensures n >= 100 ==> Field(n)[0] != '0'
  {
    NatToStringValue(n);
    PadStartValue(NatToString(n), 2);
    NatToStringShort(n);
  }

  /** Where the two fields sit in "minutes:seconds" text. */
  lemma ClockSlices(m: string, sec: string)
    requires |sec| == 2
    ensures var f := m + ":" + sec;
      |f| == |m| + 3 && f[|m|] == ':' && f[..|m|] == m && f[|m| + 1..] == sec
  {
    var f := m + ":" + sec;
    assert f[..|m|] == m;
    assert f[|m| + 1..] == sec;
  }

  /** Reading "minutes:seconds" text built from two digit strings. */
  lemma ParseClockOf(m: string, sec: string)
    requires AllDigits(m) && AllDigits(sec) && |m| >= 1 && |sec| == 2
    ensures ParseClock(m + ":" + sec) == Some(Clock(DecimalValue(m), DecimalValue(sec)))
  {
    var f := m + ":" + sec;
    assert f[..|f| - 3] == m;
    assert f[|f| - 2..] == sec;
    assert f[|f| - 3] == ':';
  }

  /** The display reads back as the number of seconds it shows. */
  lemma FormatRoundTrip(t: int)
    requires t >= 0
    ensures ParseClock(Format(t)).Some?
    ensures var c := ParseClock(Format(t)).value; TotalSeconds(c) == t && c.seconds < 60
  {
  }

  /** A negative count (only from a negative `totalTime`) keeps
      JavaScript's signs: floor division for the minutes, a truncated
      remainder for the seconds. */
  lemma FormatNegative()
    ensures Format(-5) == "-1:-5"
  {
    assert -5 / 60 == -1 && TruncRem(-5, 60) == -5;
    assert NatToString(1) == "1" && NatToString(5) == "5";
    assert IntToString(-1) == "-1" && IntToString(-5) == "-5";
    assert Field(-1) == "-1";
    assert Field(-5) == "-5";
  }

  /** Below 100 minutes the display is exactly "MM:SS". */
  lemma FormatShape(t: int)
    requires 0 <= t < 6000
    ensures |Format(t)| == 5 && Format(t)[2] == ':'
    ensures AllDigits(Format(t)[..2]) && AllDigits(Format(t)[3..])
    ensures DecimalValue(Format(t)[..2]) == t / 60
    ensures DecimalValue(Format(t)[3..]) == t % 60 < 60
    ensures DecimalValue(Format(t)[..2]) * 60 + DecimalValue(Format(t)[3..]) == t
  {
    var q, r := t / 60, t % 60;
    FieldOfNat(q);
    FieldOfNat(r);
    ClockSlices(Field(q), Field(r));
    assert q * 60 + r == t;
  }

  // ---------------------------------------------------------------------
  // The component.

  class Timer {
    var totalTime: int
    var isRunning: bool
    var timeRemaining: int
    var firstSide: bool
    var intervalCleared: bool

    function State(): TimerState
      reads this
    {
      TimerState(timeRemaining, firstSide, isRunning, intervalCleared)
    }

    predicate Valid()
      reads this
    {
      Inv(totalTime, State())
    }

    /** Mounting: both state hooks start from their initial values. */
    constructor (totalTime: int, isRunning: bool)
      ensures this.totalTime == totalTime
      ensures State() == Initial(totalTime, isRunning)
      ensures Valid()
    {
      this.totalTime := totalTime;
      this.isRunning := isRunning;
      timeRemaining := totalTime;
      firstSide := true;
      intervalCleared := false;
    }

    /** The `totalTime` prop after a render: when it differs, the state
        returns to its initial values and the interval effect, which depends
        on `totalTime`, registers anew; when it is the same, neither effect
        runs and nothing changes. */
    method TotalTimeChanged(newTotal: int)
      requires Valid()
      modifies this
      ensures totalTime == newTotal
      ensures newTotal != old(totalTime) ==> State() == Initial(newTotal, old(isRunning))
      ensures newTotal == old(totalTime) ==> State() == old(State())
      ensures Valid()
    {
      if newTotal != totalTime {
        totalTime := newTotal;
        timeRemaining := newTotal;
        firstSide := true;
        intervalCleared := false;
      }
    }

    /** A new `isRunning` prop: the interval effect cleans up and, while
        running, registers a fresh interval. */
    method RunningChanged(running: bool)
      requires Valid()
      modifies this
      ensures totalTime == old(totalTime) && timeRemaining == old(timeRemaining)
      ensures firstSide == old(firstSide) && isRunning == running
      ensures intervalCleared == (old(intervalCleared) && running == old(isRunning))
      ensures Valid()
    {
      if running != isRunning {
        isRunning := running;
        intervalCleared := false;
      }
    }

    /** One delivery of the interval callback; returns the callbacks it
        fires, in order. */
    method Tick() returns (signals: seq<Signal>)
      requires Valid()
      modifies this
      ensures totalTime == old(totalTime)
      ensures TickResult(State(), signals) == Step(totalTime, old(State()))
      ensures Valid()
    {
      signals := [];
      if !isRunning || intervalCleared {
        return;
      }
      var newTime := timeRemaining - 1;
      if firstSide && newTime == HalfwayPoint(totalTime) {
        firstSide := false;
        signals := signals + [Flip];
      }
      if newTime <= 0 {
        intervalCleared := true;
        signals := signals + [Complete];
        timeRemaining := 0;
        return;
      }
      timeRemaining := newTime;
    }

    /** The text in the centre of the progress ring. */
    function FormattedTime(): (text: string)
      reads this
      ensures timeRemaining >= 0 ==> ParseClock(text) == Some(Clock(timeRemaining / 60, timeRemaining % 60))
      ensures timeRemaining >= 0 ==> TotalSeconds(ParseClock(text).value) == timeRemaining
    {
      if timeRemaining >= 0 then
        FormatRoundTrip(timeRemaining);
        Format(timeRemaining)
      else
        Format(timeRemaining)
    }
  }
}
