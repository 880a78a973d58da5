/**
 * The `Counter` component (src/components/Counter.jsx): a one-time count-up that starts when
 * the element first becomes visible. The interval tick, the timeout and the effect cleanup
 * (`clearInterval`) are events that may arrive in any order; their delays are not modelled.
 */
module Counter {
  import opened JsNumber

  /**
   * The component state (`count`, `hasAnimated`) and the effect closure of the run
   * (`start`, `end`, whether the interval and the timeout are still scheduled).
   */
  datatype CounterState = CounterState(
    count: Num,
    hasAnimated: bool,
    start: int,
    end: Num,
    intervalActive: bool,
    timeoutPending: bool)

  /** Before the first visible render: `count` is 0 and nothing is scheduled. */
  const Initial: CounterState := CounterState(Int(0), false, 0, Int(0), false, false)

  /**
   * The effect body. It starts a run only when visible and not yet animated; a run whose `end`
   * equals the initial `start` of 0 schedules nothing.
   */
  function Effect(s: CounterState, isVisible: bool, value: string): CounterState {
    if isVisible && !s.hasAnimated then
      var end := ParseInt(value);
      if end == Int(0) then s.(hasAnimated := true, start := 0, end := end)
      else s.(hasAnimated := true, start := 0, end := end, intervalActive := true, timeoutPending := true)
    else s
  }

  /** The interval callback: `start += 1; setCount(start)`, clearing itself once `start` equals `end`. */
  function Tick(s: CounterState): CounterState {
    if s.intervalActive then
      var next := s.start + 1;
      s.(start := next, count := Int(next), intervalActive := Int(next) != s.end)
    else s
  }

  /** The timeout callback: `setCount(end)`. */
  function Timeout(s: CounterState): CounterState {
    if s.timeoutPending then s.(count := s.end, timeoutPending := false) else s
  }

  /** The effect cleanup: `clearInterval(timer)`. The timeout is never cleared. */
  function Cancel(s: CounterState): CounterState {
    s.(intervalActive := false)
  }

  datatype Event = Render(isVisible: bool, value: string) | IntervalTick | TimeoutFires | Cleanup

  function Step(s: CounterState, e: Event): CounterState {
    match e
    case Render(isVisible, value) => Effect(s, isVisible, value)
    case IntervalTick => Tick(s)
    case TimeoutFires => Timeout(s)
    case Cleanup => Cancel(s)
  }

  function Run(s: CounterState, events: seq<Event>): CounterState
    decreases |events|
  {
    if events == [] then s else Run(Step(s, events[0]), events[1..])
  }

  /**
   * What holds in every state a counter reaches: before its run nothing has moved; a run with
   * `end` 0 schedules nothing; a run with a positive `end` keeps `0 <= start <= end`, shows
   * either `start` or `end`, shows `start` until the timeout fires, and stops the interval at `end`.
   */
  predicate Good(s: CounterState) {
    && (!s.hasAnimated ==> s.count == Int(0) && s.start == 0 && !s.intervalActive && !s.timeoutPending)
    && (s.hasAnimated && s.end == Int(0) ==> s.count == Int(0) && !s.intervalActive && !s.timeoutPending)
    && (s.hasAnimated && s.end.Int? && s.end.i > 0 ==>
          && 0 <= s.start <= s.end.i
          && (s.intervalActive ==> s.start < s.end.i)
          && (s.count == Int(s.start) || s.count == s.end)
          && (s.timeoutPending ==> s.count == Int(s.start)))
  }

  /** `end` is a positive number: the case in which the counter counts. */
  predicate Counts(s: CounterState) {
    s.end.Int? && s.end.i > 0
  }

  lemma InitialGood()
    ensures Good(Initial) && Initial.count == Int(0) && !Initial.hasAnimated
  {
  }

  lemma StepGood(s: CounterState, e: Event)
    requires Good(s)
    ensures Good(Step(s, e))
  {
  }

  lemma {:induction false} RunGood(s: CounterState, events: seq<Event>)
    requires Good(s)
    ensures Good(Run(s, events))
    decreases |events|
  {
    if events != [] {
      StepGood(s, events[0]);
      RunGood(Step(s, events[0]), events[1..]);
    }
  }

  /** For a positive `end`, every reachable state shows a count between 0 and `end`. */
  lemma {:induction false} CountStaysInRange(events: seq<Event>)
    ensures var s := Run(Initial, events);
      s.hasAnimated && Counts(s) ==> s.count.Int? && 0 <= s.count.i <= s.end.i
    ensures !Run(Initial, events).hasAnimated ==> Run(Initial, events).count == Int(0)
  {
    RunGood(Initial, events);
  }

  /** The run starts only when visible and not yet animated, and once started it never starts again. */
  lemma StartsOnce(s: CounterState, isVisible: bool, value: string)
    ensures Effect(s, isVisible, value).hasAnimated <==> s.hasAnimated || isVisible
    ensures s.hasAnimated || !isVisible ==> Effect(s, isVisible, value) == s
    ensures !s.hasAnimated && isVisible ==> Effect(s, isVisible, value).end == ParseInt(value)
  {
  }

  /** With `end` equal to 0 nothing is scheduled, and the count stays 0 whatever happens next. */
  lemma {:induction false} ZeroEndStaysZero(s: CounterState, events: seq<Event>)
    requires Good(s) && s.hasAnimated && s.end == Int(0)
    ensures Run(s, events).count == Int(0)
    ensures !Run(s, events).intervalActive && !Run(s, events).timeoutPending
    decreases |events|
  {
    if events != [] {
      StepGood(s, events[0]);
      ZeroEndStaysZero(Step(s, events[0]), events[1..]);
    }
  }

  /** A tick advances `start` by exactly one, shows it, and stops the interval exactly when it reaches `end`. */
  lemma TickAdvancesByOne(s: CounterState)
    requires s.intervalActive
    ensures Tick(s).start == s.start + 1 && Tick(s).count == Int(s.start + 1)
    ensures !Tick(s).intervalActive <==> Int(s.start + 1) == s.end
    ensures Tick(s).timeoutPending == s.timeoutPending && Tick(s).end == s.end
  {
  }

  /** A state in which nothing is scheduled any more is final. */
  lemma {:induction false} QuiescentIsFinal(s: CounterState, events: seq<Event>)
    requires s.hasAnimated && !s.intervalActive && !s.timeoutPending
    ensures Run(s, events) == s
    decreases |events|
  {
    if events != [] {
      QuiescentIsFinal(Step(s, events[0]), events[1..]);
    }
  }

  /** Without a timeout pending and with the interval stopped, only the timeout can still change the count, and it sets `end`. */
  lemma {:induction false} StoppedIntervalOnlyTimeout(s: CounterState, events: seq<Event>)
    requires s.hasAnimated && !s.intervalActive
    ensures Run(s, events).count == s.count || Run(s, events).count == s.end
    ensures !Run(s, events).intervalActive && Run(s, events).end == s.end
    decreases |events|
  {
    if events != [] {
      var s' := Step(s, events[0]);
      StoppedIntervalOnlyTimeout(s', events[1..]);
    }
  }

  /** Once the timeout has fired with the interval already stopped (finished or cancelled), the count is exactly `end` from then on. */
  lemma ExactAfterLateTimeout(s: CounterState, later: seq<Event>)
    requires s.hasAnimated && s.timeoutPending && !s.intervalActive
    ensures Run(Timeout(s), later).count == s.end
  {
    QuiescentIsFinal(Timeout(s), later);
  }

  /** Once the interval has counted up to `end`, the count is exactly `end` from then on. */
  lemma ExactAfterCompletedInterval(s: CounterState, later: seq<Event>)
    requires Good(s) && s.hasAnimated && Counts(s) && s.start == s.end.i
    ensures Run(s, later).count == s.end
  {
    StoppedIntervalOnlyTimeout(s, later);
  }

  /** `k` ticks in a row. */
  function Ticks(k: nat): (t: seq<Event>)
    ensures |t| == k && forall i | 0 <= i < k :: t[i] == IntervalTick
  {
    if k == 0 then [] else [IntervalTick] + Ticks(k - 1)
  }

  /** Left alone, the interval of a positive run shows 1, 2, …, and stops on `end` after exactly `end` ticks. */
  lemma {:induction false} TicksCountUp(s: CounterState, k: nat)
    requires Good(s) && s.hasAnimated && Counts(s) && s.intervalActive
    requires s.start + k <= s.end.i
    ensures Run(s, Ticks(k)).start == s.start + k
    ensures k > 0 ==> Run(s, Ticks(k)).count == Int(s.start + k)
    ensures Run(s, Ticks(k)).intervalActive <==> s.start + k < s.end.i
    ensures Run(s, Ticks(k)).end == s.end
    decreases k
  {
    if k > 0 {
      var s' := Tick(s);
      StepGood(s, IntervalTick);
      assert Ticks(k)[1..] == Ticks(k - 1);
      if k > 1 {
        TicksCountUp(s', k - 1);
      } else {
        assert Run(s', Ticks(0)) == s';
      }
    }
  }

  /** A run started with value `n` and left alone reaches exactly `n` after `n` ticks, and the timeout keeps it there. */
  lemma CountsUpToValue(n: nat, later: seq<Event>)
    requires n > 0
    ensures var s := Run(Effect(Initial, true, Decimal(n)), Ticks(n));
      s.count == Int(n) && !s.intervalActive && Run(s, later).count == Int(n)
  {
    ParseIntOfDecimal(n, []);
    assert Decimal(n) + [] == Decimal(n);
    var s0 := Effect(Initial, true, Decimal(n));
    TicksCountUp(s0, n);
    var s := Run(s0, Ticks(n));
    RunGood(s0, Ticks(n));
    ExactAfterCompletedInterval(s, later);
  }

  /**
   * In the order React produces (setting `hasAnimated` re-runs the effect, whose cleanup clears
   * the interval at once) the count never passes through the values in between: it stays 0
   * until the timeout and is `end` afterwards.
   */
  lemma CleanupRightAfterStart(s: CounterState, isVisible: bool, value: string, later: seq<Event>)
    requires !s.hasAnimated && Good(s) && isVisible
    ensures var r := Run(Cancel(Effect(s, isVisible, value)), later);
      r.count == Int(0) || r.count == ParseInt(value)
  {
    StoppedIntervalOnlyTimeout(Cancel(Effect(s, isVisible, value)), later);
  }

  /** The state a visible render of value `n` starts: counting from 0 to `n`, both timers scheduled. */
  lemma StartWithValue(n: nat)
    requires n > 0
    ensures Effect(Initial, true, Decimal(n)) == CounterState(Int(0), true, 0, Int(n), true, true)
  {
    ParseIntOfDecimal(n, []);
    assert Decimal(n) + [] == Decimal(n);
  }

  /** Running a sequence is one step, then the rest. */
  lemma RunCons(s: CounterState, e: Event, rest: seq<Event>)
    ensures Run(s, [e] + rest) == Run(Step(s, e), rest)
  {
    assert ([e] + rest)[1..] == rest;
  }

  /** With the interval stopped, ticks change nothing. */
  lemma {:induction false} IdleTicks(s: CounterState, k: nat)
    requires !s.intervalActive
    ensures Run(s, Ticks(k)) == s
    decreases k
  {
    if k > 0 {
      assert Ticks(k)[1..] == Ticks(k - 1);
      IdleTicks(s, k - 1);
    }
  }

  /**
   * The events of a run as the component is written: the render that starts it, the cleanup that
   * React runs when `setHasAnimated(true)` re-runs the effect, then `k` interval periods.
   */
  function AsWrittenOrder(value: string, k: nat): seq<Event> {
    [Render(true, value), Cleanup] + Ticks(k)
  }

  /** The events of a run whose interval is not cleared by the effect's own re-run. */
  function IntendedOrder(value: string, k: nat): seq<Event> {
    [Render(true, value)] + Ticks(k)
  }

  /** As written, the interval is gone before its first tick: however many periods pass, the count shows 0. */
  lemma AsWrittenNeverCountsUp(n: nat, k: nat)
    requires n > 0
    ensures Run(Initial, AsWrittenOrder(Decimal(n), k)).count == Int(0)
    ensures Run(Initial, AsWrittenOrder(Decimal(n), k)).timeoutPending
  {
    StartWithValue(n);
    var s1 := Effect(Initial, true, Decimal(n));
    var s := Cancel(s1);
    assert AsWrittenOrder(Decimal(n), k) == [Render(true, Decimal(n))] + ([Cleanup] + Ticks(k));
    RunCons(Initial, Render(true, Decimal(n)), [Cleanup] + Ticks(k));
    RunCons(s1, Cleanup, Ticks(k));
    IdleTicks(s, k);
  }

  /** With the intended order the count shows 1, 2, …, `n` on successive ticks. */
  lemma IntendedCountsUp(n: nat, k: nat)
    requires 0 < k <= n
    ensures Run(Initial, IntendedOrder(Decimal(n), k)).count == Int(k)
    ensures Run(Initial, IntendedOrder(Decimal(n), k)).intervalActive <==> k < n
  {
    StartWithValue(n);
    var s0 := Effect(Initial, true, Decimal(n));
    RunCons(Initial, Render(true, Decimal(n)), Ticks(k));
    TicksCountUp(s0, k);
  }

  /** A timeout that fires while the interval still runs is overwritten by later ticks; a cleanup then leaves the count short of `end`. */
  lemma TimeoutBeforeLastTickIsInexact(later: seq<Event>)
    ensures Run(Run(Initial, [Render(true, "5"), TimeoutFires, IntervalTick, Cleanup]), later).count == Int(1)
  {
    ParseIntOfDecimal(5, []);
    assert Decimal(5) == "5";
    var s := Run(Initial, [Render(true, "5"), TimeoutFires, IntervalTick, Cleanup]);
    assert s == Cancel(Tick(Timeout(Effect(Initial, true, "5"))));
    QuiescentIsFinal(s, later);
  }

  /** A value `parseInt` reads as negative or NaN never equals `start`, so the interval never stops by itself. */
  lemma UnreachableEndNeverStops(s: CounterState)
    requires s.intervalActive && s.start >= 0 && (s.end.NaN? || s.end.i <= 0)
    ensures Tick(s).intervalActive && Tick(s).start == s.start + 1
  {
  }

  /** The rendered text: prefix, the count, suffix. */
  function Text(prefix: string, count: Num, suffix: string): (t: string)
    ensures |t| > |prefix| + |suffix|
    ensures t[..|prefix|] == prefix && t[|t| - |suffix|..] == suffix
    ensures ParseInt(t[|prefix|..|t| - |suffix|]) == count
  {
    ParseIntOfShow(count);
    assert (prefix + Show(count) + suffix)[|prefix|..|prefix| + |Show(count)|] == Show(count);
    prefix + Show(count) + suffix
  }

  /** Reading the rendered text back with `parseInt` gives the count when there is no prefix and the suffix starts with a non-digit. */
  lemma TextReadsBack(n: nat, suffix: string)
    requires EndsNumber(suffix)
    ensures ParseInt(Text("", Int(n), suffix)) == Int(n)
  {
    assert Text("", Int(n), suffix) == Decimal(n) + suffix;
    ParseIntOfDecimal(n, suffix);
  }

  /** The class list of the rendered span. */
  function ClassName(isVisible: bool): (c: string)
    ensures c == "counter visible" <==> isVisible
    ensures |c| >= 8 && c[..8] == "counter "
  {
    if isVisible then "counter visible" else "counter "
  }

  /** One mounted counter; `duration` only sets the timer delays. */
  class CounterRun {
    const value: string
    const duration: real
    const prefix: string
    const suffix: string
    var count: Num
    var hasAnimated: bool
    var start: int
    var end: Num
    var intervalActive: bool
    var timeoutPending: bool

    function State(): CounterState
      reads this
    {
      CounterState(count, hasAnimated, start, end, intervalActive, timeoutPending)
    }

    constructor (value: string, duration: real := 2000.0, prefix: string := "", suffix: string := "")
      ensures State() == Initial
      ensures this.value == value && this.duration == duration
      ensures this.prefix == prefix && this.suffix == suffix
    {
      this.value := value;
      this.duration := duration;
      this.prefix := prefix;
      this.suffix := suffix;
      count := Int(0);
      hasAnimated := false;
      start := 0;
      end := Int(0);
      intervalActive := false;
      timeoutPending := false;
    }

    /** The effect, run after a render with the current visibility. */
    method RunEffect(isVisible: bool)
      modifies this
      ensures State() == Effect(old(State()), isVisible, value)
    {
      if isVisible && !hasAnimated {
        hasAnimated := true;
        start := 0;
        end := ParseInt(value);
        if end == Int(0) {
          return;
        }
        intervalActive := true;
        timeoutPending := true;
      }
    }

    method OnTick()
      modifies this
      ensures State() == Tick(old(State()))
    {
      if intervalActive {
        start := start + 1;
        count := Int(start);
        if Int(start) == end {
          intervalActive := false;
        }
      }
    }

    method OnTimeout()
      modifies this
      ensures State() == Timeout(old(State()))
    {
      if timeoutPending {
        count := end;
        timeoutPending := false;
      }
    }

    method OnCleanup()
      modifies this
      ensures State() == Cancel(old(State()))
    {
      intervalActive := false;
    }

    /** The text the span shows now. */
    method Display() returns (t: string)
      ensures t == Text(prefix, count, suffix)
    {
      t := prefix + Show(count) + suffix;
    }
  }
}
