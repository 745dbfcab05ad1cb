/**
 * The countdown timer component. Its state is the remaining `seconds` and the
 * `isActive` flag; `initialMinutes` is fixed for the component's life. An
 * interval, armed while the timer is active, calls `tick` once per second;
 * the last tick stops the timer and reports completion with `initialMinutes`.
 */
module TimerComponent {
  import opened Wrappers
  import opened Decimal

  // ---------------------------------------------------------------------------
  // The countdown display
  // ---------------------------------------------------------------------------

  /**
   * `MM:SS`: whole minutes and the remaining seconds, each padded to two digits.
   * The display is exactly five characters long exactly when the input is below
   * 6000 seconds (100 minutes).
   */
  function FormatTime(totalSeconds: nat): (t: string)
    ensures |t| >= 5 && t[|t| - 3] == ':'
    ensures |t| == 5 <==> totalSeconds < 6000
  {
    var mins := totalSeconds / 60;
    var secs := totalSeconds % 60;
    DecimalLength(mins);
    DecimalLength(secs);
    PadStart(ToDecimal(mins), 2, '0') + ":" + PadStart(ToDecimal(secs), 2, '0')
  }

  /**
   * Reads a display back: the text before the third-last character (which must
   * be ':') is the minutes, the last two characters are the seconds.
   */
  function ParseClock(t: string): Option<nat> {
    if |t| < 4 || t[|t| - 3] != ':' then None
    else
      var mm, ss := t[..|t| - 3], t[|t| - 2..];
      if AllDigits(mm) && AllDigits(ss) then Some(DecimalValue(mm) * 60 + DecimalValue(ss))
      else None
  }

  /**
   * The fields of the display: a digit string for the minutes, ':', two digits
   * for the seconds, where minutes * 60 + seconds is the input and the seconds
   * field is at most 59.
   */
  lemma FormatTimeFields(s: nat)
    ensures var t := FormatTime(s);
      && AllDigits(t[..|t| - 3]) && AllDigits(t[|t| - 2..])
      && DecimalValue(t[..|t| - 3]) == s / 60
      && DecimalValue(t[|t| - 2..]) == s % 60 <= 59
      && DecimalValue(t[..|t| - 3]) * 60 + DecimalValue(t[|t| - 2..]) == s
  {
    var mins, secs := s / 60, s % 60;
    assert s == mins * 60 + secs && secs < 60;
    var mm := PadStart(ToDecimal(mins), 2, '0');
    var ss := PadStart(ToDecimal(secs), 2, '0');
    PaddedField(mins);
    PaddedField(secs);
    assert FormatTime(s) == mm + ":" + ss;
    JoinFields(mm, ss);
  }

  lemma JoinFields(mm: string, ss: string)
    requires |ss| == 2
    ensures var t := mm + ":" + ss;
      |t| == |mm| + 3 && t[|t| - 3] == ':' && t[..|t| - 3] == mm && t[|t| - 2..] == ss
  {
  }

  /** A display field: digits reading back as n, exactly two of them exactly when n < 100. */
  lemma PaddedField(n: nat)
    ensures var p := PadStart(ToDecimal(n), 2, '0');
      && |p| >= 2 && AllDigits(p) && DecimalValue(p) == n
      && (|p| == 2 <==> n < 100)
  {
    DecimalLength(n);
    PaddedRoundTrip(n, 2);
  }

  /** The display determines the number of seconds shown. */
  lemma FormatTimeRoundTrip(s: nat)
    ensures ParseClock(FormatTime(s)) == Some(s)
  {
    FormatTimeFields(s);
  }

  // ---------------------------------------------------------------------------
  // The state machine as values
  // ---------------------------------------------------------------------------

  datatype TimerState = TimerState(seconds: int, isActive: bool)

  /** What one tick does: the new state, and the argument onComplete was called with, if it was. */
  datatype TickOutcome = TickOutcome(state: TimerState, completed: Option<nat>)

  /** The state on mount and after reset: the full duration, not running. */
  function Initial(initialMinutes: nat): (st: TimerState)
    ensures st.seconds == initialMinutes * 60 && !st.isActive
  {
    TimerState(initialMinutes * 60, false)
  }

  /**
   * The `tick` callback: on the last second (or below) the interval is
   * cleared, the timer deactivated, onComplete(initialMinutes) called and the
   * seconds set to 0; otherwise one second is taken off.
   */
  function Tick(initialMinutes: nat, st: TimerState): (r: TickOutcome)
    ensures r.completed.Some? <==> st.seconds <= 1
    ensures r.completed.Some? ==> r.completed.value == initialMinutes && r.state == TimerState(0, false)
    ensures r.completed.None? ==> r.state == TimerState(st.seconds - 1, st.isActive)
  {
    if st.seconds <= 1 then TickOutcome(TimerState(0, false), Some(initialMinutes))
    else TickOutcome(st.(seconds := st.seconds - 1), None)
  }

  /** One firing of the once-per-second interval, which exists only while the timer is active. */
  function IntervalTick(initialMinutes: nat, st: TimerState): (r: TickOutcome)
    ensures !st.isActive ==> r == TickOutcome(st, None)
    ensures r.completed.Some? <==> st.isActive && st.seconds <= 1
    ensures 0 <= st.seconds ==> 0 <= r.state.seconds <= st.seconds
  {
    if st.isActive then Tick(initialMinutes, st) else TickOutcome(st, None)
  }

  /** The start/pause button. */
  function Toggle(st: TimerState): (r: TimerState)
    ensures r.isActive != st.isActive && r.seconds == st.seconds
  {
    st.(isActive := !st.isActive)
  }

  /** The bounds the component keeps: 0 <= seconds <= initialMinutes * 60. */
  predicate InBounds(initialMinutes: nat, st: TimerState) {
    0 <= st.seconds <= initialMinutes * 60
  }

  /** What n interval firings do: the final state and every onComplete argument, in order. */
  datatype Run = Run(state: TimerState, completions: seq<nat>)

  function RunTicks(initialMinutes: nat, st: TimerState, n: nat): (r: Run)
    ensures |r.completions| <= n
    ensures forall i :: 0 <= i < |r.completions| ==> r.completions[i] == initialMinutes
    ensures 0 <= st.seconds ==> 0 <= r.state.seconds <= st.seconds
    decreases n
  {
    if n == 0 then Run(st, [])
    else
      var o := IntervalTick(initialMinutes, st);
      var rest := RunTicks(initialMinutes, o.state, n - 1);
      Run(rest.state, OptionToSeq(o.completed) + rest.completions)
  }

  /** A tick away from the last second takes off one second and changes nothing else. */
  lemma TickCountsDown(initialMinutes: nat, st: TimerState)
    requires st.seconds > 1
    ensures Tick(initialMinutes, st).state == TimerState(st.seconds - 1, st.isActive)
    ensures Tick(initialMinutes, st).completed == None
  {
  }

  /** The last tick zeroes the seconds, deactivates and completes once with initialMinutes. */
  lemma TickCompletes(initialMinutes: nat, st: TimerState)
    requires st.seconds <= 1
    ensures Tick(initialMinutes, st).state == TimerState(0, false)
    ensures OptionToSeq(Tick(initialMinutes, st).completed) == [initialMinutes]
  {
  }

  /** Ticks, toggles and resets all keep the seconds within bounds. */
  lemma InBoundsPreserved(initialMinutes: nat, st: TimerState)
    requires InBounds(initialMinutes, st)
    ensures InBounds(initialMinutes, IntervalTick(initialMinutes, st).state)
    ensures InBounds(initialMinutes, Toggle(st))
    ensures InBounds(initialMinutes, Initial(initialMinutes))
  {
  }

  /** Any number of ticks keeps the seconds within bounds. */
  lemma {:induction false} RunInBounds(initialMinutes: nat, st: TimerState, n: nat)
    requires InBounds(initialMinutes, st)
    ensures InBounds(initialMinutes, RunTicks(initialMinutes, st, n).state)
    decreases n
  {
    if n > 0 {
      InBoundsPreserved(initialMinutes, st);
      RunInBounds(initialMinutes, IntervalTick(initialMinutes, st).state, n - 1);
    }
  }

  /** While paused, ticks change nothing and complete nothing. */
  lemma {:induction false} PausedRunIsInert(initialMinutes: nat, st: TimerState, n: nat)
    requires !st.isActive
    ensures RunTicks(initialMinutes, st, n) == Run(st, [])
    decreases n
  {
    if n > 0 {
      PausedRunIsInert(initialMinutes, st, n - 1);
    }
  }

  /** Fewer ticks than remaining seconds count down one each, still running, with no completion. */
  lemma {:induction false} RunCountsDown(initialMinutes: nat, s: int, n: nat)
    requires n < s
    ensures RunTicks(initialMinutes, TimerState(s, true), n) == Run(TimerState(s - n, true), [])
    decreases n
  {
    if n > 0 {
      RunCountsDown(initialMinutes, s - 1, n - 1);
    }
  }

  /** Exactly as many ticks as remaining seconds stop the timer with one completion. */
  lemma {:induction false} RunCompletes(initialMinutes: nat, s: nat)
    requires s >= 1
    ensures RunTicks(initialMinutes, TimerState(s, true), s) == Run(TimerState(0, false), [initialMinutes])
    decreases s
  {
    if s > 1 {
      RunCompletes(initialMinutes, s - 1);
    }
  }

  /** n ticks followed by k ticks are n + k ticks. */
  lemma {:induction false} RunAppend(initialMinutes: nat, st: TimerState, n: nat, k: nat)
    ensures var first := RunTicks(initialMinutes, st, n);
      var second := RunTicks(initialMinutes, first.state, k);
      RunTicks(initialMinutes, st, n + k) == Run(second.state, first.completions + second.completions)
    decreases n
  {
    if n > 0 {
      RunAppend(initialMinutes, IntervalTick(initialMinutes, st).state, n - 1, k);
    }
  }

  /**
   * A started fresh session of initialMinutes >= 1: after n ticks onComplete
   * has been called not at all while n < initialMinutes * 60, and exactly once,
   * with initialMinutes, from tick initialMinutes * 60 on, the timer then
   * stopped at 0 for good.
   */
  lemma FreshSessionCompletesOnce(initialMinutes: nat, n: nat)
    requires initialMinutes >= 1
    ensures var r := RunTicks(initialMinutes, Toggle(Initial(initialMinutes)), n);
      && r.completions == (if n < initialMinutes * 60 then [] else [initialMinutes])
      && r.state == (if n < initialMinutes * 60 then TimerState(initialMinutes * 60 - n, true)
                     else TimerState(0, false))
  {
    var total := initialMinutes * 60;
    var st := Toggle(Initial(initialMinutes));
    assert st == TimerState(total, true);
    if n < total {
      RunCountsDown(initialMinutes, total, n);
    } else {
      RunAppend(initialMinutes, st, total, n - total);
      RunCompletes(initialMinutes, total);
      PausedRunIsInert(initialMinutes, TimerState(0, false), n - total);
    }
  }

  /**
   * The timer does not refuse to start at 0: pressing start after a completion,
   * without a reset, makes the next tick call onComplete again.
   */
  lemma ResumeAtZeroCompletesAgain(initialMinutes: nat)
    ensures IntervalTick(initialMinutes, Toggle(TimerState(0, false)))
      == TickOutcome(TimerState(0, false), Some(initialMinutes))
  {
  }

  // ---------------------------------------------------------------------------
  // The progress ring
  // ---------------------------------------------------------------------------

  /**
   * Percentage of the session elapsed, ((initialSeconds - seconds) / initialSeconds) * 100,
   * computed exactly; None where the component divides by zero (NaN).
   */
  function Progress(initialSeconds: nat, seconds: int): (p: Option<real>)
    ensures p.None? <==> initialSeconds == 0
  {
    if initialSeconds == 0 then None
    else Some(((initialSeconds - seconds) as real / initialSeconds as real) * 100.0)
  }

  /** Within bounds progress lies in [0, 100]: 0 exactly at the start, 100 exactly at 0 seconds. */
  lemma ProgressBounds(initialSeconds: nat, seconds: int)
    requires initialSeconds > 0 && 0 <= seconds <= initialSeconds
    ensures var p := Progress(initialSeconds, seconds).value;
      && 0.0 <= p <= 100.0
      && (p == 0.0 <==> seconds == initialSeconds)
      && (p == 100.0 <==> seconds == 0)
  {
  }

  /** Fewer remaining seconds never show less progress. */
  lemma ProgressMonotone(initialSeconds: nat, seconds: int, later: int)
    requires initialSeconds > 0 && later <= seconds
    ensures Progress(initialSeconds, seconds).value <= Progress(initialSeconds, later).value
  {
  }

  /** A tick from within bounds never lowers the progress shown. */
  lemma ProgressNeverDecreasesOnTick(initialMinutes: nat, st: TimerState)
    requires initialMinutes >= 1 && InBounds(initialMinutes, st)
    ensures Progress(initialMinutes * 60, st.seconds).value
      <= Progress(initialMinutes * 60, IntervalTick(initialMinutes, st).state.seconds).value
  {
    ProgressMonotone(initialMinutes * 60, st.seconds, IntervalTick(initialMinutes, st).state.seconds);
  }

  // ---------------------------------------------------------------------------
  // The component
  // ---------------------------------------------------------------------------

  class Timer {
    const initialMinutes: nat
    /** Captured once on mount, as the component's `initialSeconds` state. */
    const initialSeconds: nat
    var seconds: int
    var isActive: bool
    /** Whether `timerRef` holds a live interval handle. */
    var intervalArmed: bool
    /** The arguments onComplete has been called with, oldest first. */
    var completions: seq<nat>

    ghost predicate Valid()
      reads this
    {
      && initialSeconds == initialMinutes * 60
      && InBounds(initialMinutes, State())
      && intervalArmed == isActive
    }

    function State(): TimerState
      reads this
    {
      TimerState(seconds, isActive)
    }

    constructor (initialMinutes: nat)
      ensures Valid()
      ensures this.initialMinutes == initialMinutes
      ensures State() == Initial(initialMinutes) && completions == []
    {
      this.initialMinutes := initialMinutes;
      initialSeconds := initialMinutes * 60;
      seconds := initialMinutes * 60;
      isActive := false;
      intervalArmed := false;
      completions := [];
    }

    /** One firing of the interval; it acts only while the interval is armed. */
    method Tick() returns (completed: Option<nat>)
      requires Valid()
      modifies this
      ensures Valid()
      ensures TickOutcome(State(), completed) == IntervalTick(initialMinutes, old(State()))
      ensures completions == old(completions) + OptionToSeq(completed)
    {
      if !intervalArmed {
        return None;
      }
      if seconds <= 1 {
        intervalArmed := false;
        isActive := false;
        completions := completions + [initialMinutes];
        completed := Some(initialMinutes);
        seconds := 0;
      } else {
        seconds := seconds - 1;
        completed := None;
      }
    }

    /** The start/pause button: flips isActive and arms or clears the interval. */
    method ToggleActive()
      requires Valid()
      modifies this
      ensures Valid()
      ensures State() == Toggle(old(State()))
      ensures completions == old(completions)
    {
      isActive := !isActive;
      intervalArmed := isActive;
    }

    /** The reset button: back to the full duration, not running. */
    method Reset()
      requires Valid()
      modifies this
      ensures Valid()
      ensures State() == Initial(initialMinutes)
      ensures completions == old(completions)
    {
      isActive := false;
      intervalArmed := false;
      seconds := initialMinutes * 60;
    }
  }
}
