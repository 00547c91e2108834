/** A whole session: the engine driven by the one-second tick with no other
    input, from Start until it halts. */
module Session {
  import opened Effects
  import opened Settings
  import opened Engine

  /** `k` ticks from `s` under fixed settings: the state reached and every
      request made on the way, in order. */
  function Run(s: State, c: Config, k: nat): (r: Step)
    // an idle timer has no tick source: nothing happens
    ensures !s.running ==> r == Step(s, [])
    // at most three requests per tick
    ensures |r.events| <= 3 * k
    decreases k
  {
    if k == 0 then Step(s, [])
    else
      var first := Tick(s, c);
      var rest := Run(first.state, c, k - 1);
      Step(rest.state, first.events + rest.events)
  }

  /** How many of the first `k` ticks from `s` end a Focus phase (and so
      complete the Focus half of an interval). */
  function Cycles(s: State, c: Config, k: nat): (n: nat)
    ensures n <= k
    // an idle timer completes nothing
    ensures !s.running ==> n == 0
    decreases k
  {
    if k == 0 then 0
    else
      var next := Tick(s, c).state;
      (if s.phase == Focus && next.phase == Rest then 1 else 0) + Cycles(next, c, k - 1)
  }

  /** Ticks a phase whose countdown starts at `t` lasts: the transition
      fires when the countdown is at 1 or below, so a 0-second phase still
      takes one tick. */
  function PhaseTicks(t: nat): (n: nat)
    ensures n >= 1 && n >= t
  {
    if t == 0 then 1 else t
  }

  /** Ticks one Focus phase and one Rest phase take together. */
  function IntervalTicks(c: Config): nat {
    PhaseTicks(Duration(Focus, c)) + PhaseTicks(Duration(Rest, c))
  }

  /** Ticks a full session takes. */
  function SessionTicks(c: Config): nat {
    c.intervals * IntervalTicks(c)
  }

  /** The running state at the start of the Focus phase of interval `i`. */
  function FocusPhase(i: nat, c: Config): State {
    State(Focus, Duration(Focus, c), i, true)
  }

  /** Running `a + b` ticks is running `a` ticks and then `b` more. */
  lemma {:induction false} RunSplit(s: State, c: Config, a: nat, b: nat)
    ensures var first := Run(s, c, a);
            var second := Run(first.state, c, b);
            Run(s, c, a + b) == Step(second.state, first.events + second.events)
    decreases a
  {
    if a == 0 {
      var second := Run(s, c, b);
      assert [] + second.events == second.events;
    } else {
      var t := Tick(s, c);
      RunSplit(t.state, c, a - 1, b);
      var first := Run(t.state, c, a - 1);
      var second := Run(first.state, c, b);
      assert a + b - 1 == (a - 1) + b;
      assert t.events + (first.events + second.events) == (t.events + first.events) + second.events;
    }
  }

  /** The state after `a + b` ticks is the state `b` ticks after the state
      after `a`. */
  lemma SplitState(s: State, c: Config, a: nat, b: nat)
    ensures Run(s, c, a + b).state == Run(Run(s, c, a).state, c, b).state
  {
    RunSplit(s, c, a, b);
  }

  /** Cues over `a + b` ticks add up. */
  lemma SplitCues(s: State, c: Config, a: nat, b: nat)
    ensures Cues(Run(s, c, a + b).events)
         == Cues(Run(s, c, a).events) + Cues(Run(Run(s, c, a).state, c, b).events)
  {
    RunSplit(s, c, a, b);
    var first := Run(s, c, a).events;
    var second := Run(Run(s, c, a).state, c, b).events;
    CuesConcat(first, second);
  }

  /** Completed cycles over `a + b` ticks add up. */
  lemma {:induction false} SplitCycles(s: State, c: Config, a: nat, b: nat)
    ensures Cycles(s, c, a + b) == Cycles(s, c, a) + Cycles(Run(s, c, a).state, c, b)
    decreases a
  {
    if a > 0 {
      var t := Tick(s, c).state;
      SplitCycles(t, c, a - 1, b);
      assert a + b - 1 == (a - 1) + b;
      assert Run(s, c, a).state == Run(t, c, a - 1).state;
    }
  }

  /** When the last `b` ticks end with a pause request, so do all `a + b`. */
  lemma SplitEndsPaused(s: State, c: Config, a: nat, b: nat)
    requires EndsWithPause(Run(Run(s, c, a).state, c, b).events)
    ensures EndsWithPause(Run(s, c, a + b).events)
  {
    RunSplit(s, c, a, b);
    var first := Run(s, c, a).events;
    var second := Run(Run(s, c, a).state, c, b).events;
    assert (first + second)[|first + second| - 1] == second[|second| - 1];
  }

  /** One more tick appends that tick's outcome. */
  lemma {:induction false} RunOneMore(s: State, c: Config, k: nat)
    ensures var done := Run(s, c, k);
            var step := Tick(done.state, c);
            && Run(s, c, k + 1) == Step(step.state, done.events + step.events)
            && Cues(Run(s, c, k + 1).events) == Cues(done.events) + Cues(step.events)
  {
    RunSplit(s, c, k, 1);
    var done := Run(s, c, k);
    var step := Tick(done.state, c);
    assert Run(done.state, c, 1) == Step(step.state, step.events + []);
    assert step.events + [] == step.events;
    CuesConcat(done.events, step.events);
  }

  /** Fewer ticks than the countdown only count it down: no transition, no
      request. */
  lemma {:induction false} Countdown(s: State, c: Config, k: nat)
    requires s.running && k < s.timer
    ensures Run(s, c, k) == Step(s.(timer := s.timer - k), [])
    ensures Cycles(s, c, k) == 0
    decreases k
  {
    if k > 0 {
      var t := Tick(s, c);
      assert t == Step(s.(timer := s.timer - 1), []);
      Countdown(t.state, c, k - 1);
      assert t.state.(timer := t.state.timer - (k - 1)) == s.(timer := s.timer - k);
    }
  }

  /** A running phase lasts exactly `PhaseTicks(timer)` ticks and then runs
      the transition protocol once. */
  lemma {:induction false} PhaseElapses(s: State, c: Config)
    requires s.running
    ensures Run(s, c, PhaseTicks(s.timer)) == Expire(s.phase, s.index, c)
    ensures Cycles(s, c, PhaseTicks(s.timer)) == (if s.phase == Focus then 1 else 0)
  {
    var last := s.(timer := 1);
    var t := Tick(last, c);
    assert t == Expire(s.phase, s.index, c);
    assert Run(t.state, c, 0) == Step(t.state, []);
    assert Run(last, c, 1) == Step(t.state, t.events + []);
    assert t.events + [] == t.events;
    if s.timer <= 1 {
      assert Tick(s, c) == t;
      assert Run(s, c, 1) == Run(last, c, 1);
    } else {
      var k := s.timer - 1;
      Countdown(s, c, k);
      assert Run(s, c, k) == Step(last, []);
      RunSplit(s, c, k, 1);
      SplitCycles(s, c, k, 1);
      assert [] + t.events == t.events;
    }
  }

  /** Adding minutes to a running countdown delays the transition by that
      many seconds' worth of ticks; on a countdown already at 0, whose
      transition was one tick away, by one tick fewer. */
  lemma AddTimeDelaysTransition(s: State, c: Config, minutes: nat)
    requires s.running
    ensures var added := minutes * SecondsPerMinute;
            PhaseTicks(AddTime(s, minutes).timer)
            == PhaseTicks(s.timer) + added - (if s.timer == 0 && minutes > 0 then 1 else 0)
    ensures Run(AddTime(s, minutes), c, PhaseTicks(s.timer + minutes * SecondsPerMinute))
            == Expire(s.phase, s.index, c)
  {
    PhaseElapses(AddTime(s, minutes), c);
  }

  /** A paused timer stays exactly as it was, however many seconds pass. */
  lemma PauseFreezes(s: State, c: Config, k: nat)
    ensures Run(PauseTimer(s), c, k) == Step(PauseTimer(s), [])
  {
  }

  /** A running phase is still running before its last tick. */
  lemma {:induction false} RunningWithinPhase(s: State, c: Config, k: nat)
    requires s.running && k < PhaseTicks(s.timer)
    ensures Run(s, c, k).state.running
  {
    if k > 0 {
      Countdown(s, c, k);
    }
  }

  /** One interval from the Focus phase of interval `i` is the Focus phase's
      transition followed by the Rest phase's, and nothing else. */
  lemma {:induction false} IntervalElapses(i: nat, c: Config)
    ensures var first := Expire(Focus, i, c);
            var second := Expire(Rest, i, c);
            && Run(FocusPhase(i, c), c, IntervalTicks(c)) == Step(second.state, first.events + second.events)
            && Cycles(FocusPhase(i, c), c, IntervalTicks(c)) == 1
  {
    var f := FocusPhase(i, c);
    var focusTicks, restTicks := PhaseTicks(Duration(Focus, c)), PhaseTicks(Duration(Rest, c));
    RunSplit(f, c, focusTicks, restTicks);
    SplitCycles(f, c, focusTicks, restTicks);
    PhaseElapses(f, c);
    TransitionProtocol(Focus, i, c);
    var rest := State(Rest, Duration(Rest, c), i, true);
    assert Run(f, c, focusTicks) == Expire(Focus, i, c);
    assert Run(f, c, focusTicks).state == rest;
    PhaseElapses(rest, c);
    assert Run(rest, c, restTicks) == Expire(Rest, i, c);
  }

  /** One interval from the Focus phase of interval `i`: two cues, one
      Focus -> Rest transition, and then either the next interval's Focus
      phase or the halted state after a final pause request. */
  lemma {:induction false} OneInterval(i: nat, c: Config)
    requires i < c.intervals
    ensures var r := Run(FocusPhase(i, c), c, IntervalTicks(c));
            && r.state == (if i + 1 < c.intervals then FocusPhase(i + 1, c) else Halted)
            && Cues(r.events) == 2
            && (i + 1 >= c.intervals ==> EndsWithPause(r.events))
    ensures Cycles(FocusPhase(i, c), c, IntervalTicks(c)) == 1
  {
    IntervalElapses(i, c);
    TransitionProtocol(Focus, i, c);
    TransitionProtocol(Rest, i, c);
    var first := Expire(Focus, i, c);
    var second := Expire(Rest, i, c);
    CuesConcat(first.events, second.events);
  }

  /** Ticks from the start of interval `i`'s Focus phase to the end of the
      session: one interval's worth for each interval left. */
  function RemainingTicks(i: nat, c: Config): nat
    requires i < c.intervals
    decreases c.intervals - i
  {
    if i + 1 >= c.intervals then IntervalTicks(c)
    else IntervalTicks(c) + RemainingTicks(i + 1, c)
  }

  /** The ticks left from interval `i` are `intervals - i` whole intervals. */
  lemma {:induction false} RemainingTicksCount(i: nat, c: Config)
    requires i < c.intervals
    ensures RemainingTicks(i, c) == (c.intervals - i) * IntervalTicks(c)
    decreases c.intervals - i
  {
    if i + 1 < c.intervals {
      RemainingTicksCount(i + 1, c);
      assert (c.intervals - i) * IntervalTicks(c)
          == IntervalTicks(c) + (c.intervals - (i + 1)) * IntervalTicks(c);
    }
  }

  /** From the Focus phase of interval `i`, the remaining intervals end in
      the halted state. */
  lemma {:induction false} HaltsFrom(i: nat, c: Config)
    requires i < c.intervals
    ensures Run(FocusPhase(i, c), c, RemainingTicks(i, c)).state == Halted
    decreases c.intervals - i
  {
    OneInterval(i, c);
    if i + 1 < c.intervals {
      var f := FocusPhase(i, c);
      var len, more := IntervalTicks(c), RemainingTicks(i + 1, c);
      assert RemainingTicks(i, c) == len + more;
      assert Run(f, c, len).state == FocusPhase(i + 1, c);
      SplitState(f, c, len, more);
      HaltsFrom(i + 1, c);
      assert Run(f, c, len + more).state == Halted;
    }
  }

  /** From the Focus phase of interval `i`, each remaining interval sounds
      two cues. */
  lemma {:induction false} CuesFrom(i: nat, c: Config)
    requires i < c.intervals
    ensures Cues(Run(FocusPhase(i, c), c, RemainingTicks(i, c)).events) == 2 * (c.intervals - i)
    decreases c.intervals - i
  {
    OneInterval(i, c);
    if i + 1 < c.intervals {
      var f := FocusPhase(i, c);
      var len, more := IntervalTicks(c), RemainingTicks(i + 1, c);
      assert RemainingTicks(i, c) == len + more;
      var first := Run(f, c, len);
      assert first.state == FocusPhase(i + 1, c);
      SplitCues(f, c, len, more);
      CuesFrom(i + 1, c);
      assert Cues(Run(f, c, len + more).events) == 2 + 2 * (c.intervals - (i + 1));
    }
  }

  /** From the Focus phase of interval `i`, each remaining interval
      completes one Focus -> Rest cycle. */
  lemma {:induction false} CyclesFrom(i: nat, c: Config)
    requires i < c.intervals
    ensures Cycles(FocusPhase(i, c), c, RemainingTicks(i, c)) == c.intervals - i
    decreases c.intervals - i
  {
    OneInterval(i, c);
    if i + 1 < c.intervals {
      var len, more := IntervalTicks(c), RemainingTicks(i + 1, c);
      assert RemainingTicks(i, c) == len + more;
      assert Run(FocusPhase(i, c), c, len).state == FocusPhase(i + 1, c);
      SplitCycles(FocusPhase(i, c), c, len, more);
      CyclesFrom(i + 1, c);
    }
  }

  /** The last request of the remaining session is the final pause. */
  lemma {:induction false} EndsPausedFrom(i: nat, c: Config)
    requires i < c.intervals
    ensures EndsWithPause(Run(FocusPhase(i, c), c, RemainingTicks(i, c)).events)
    decreases c.intervals - i
  {
    OneInterval(i, c);
    if i + 1 < c.intervals {
      var len, more := IntervalTicks(c), RemainingTicks(i + 1, c);
      assert RemainingTicks(i, c) == len + more;
      assert Run(FocusPhase(i, c), c, len).state == FocusPhase(i + 1, c);
      EndsPausedFrom(i + 1, c);
      SplitEndsPaused(FocusPhase(i, c), c, len, more);
    }
  }

  /** Before the session's last tick the timer is still running. */
  lemma {:induction false} RunningUntilDone(i: nat, c: Config, k: nat)
    requires i < c.intervals && k < RemainingTicks(i, c)
    ensures Run(FocusPhase(i, c), c, k).state.running
    decreases c.intervals - i
  {
    var f := FocusPhase(i, c);
    var focusTicks := PhaseTicks(Duration(Focus, c));
    var len := IntervalTicks(c);
    if k < focusTicks {
      RunningWithinPhase(f, c, k);
    } else if k < len {
      SplitState(f, c, focusTicks, k - focusTicks);
      PhaseElapses(f, c);
      RunningWithinPhase(State(Rest, Duration(Rest, c), i, true), c, k - focusTicks);
    } else {
      SplitState(f, c, len, k - len);
      OneInterval(i, c);
      RunningUntilDone(i + 1, c, k - len);
    }
  }

  /** Once halted, further ticks change nothing. */
  lemma {:induction false} StaysHalted(s: State, c: Config, k: nat, extra: nat)
    requires Run(s, c, k).state == Halted
    ensures Run(s, c, k + extra).state == Halted
  {
    SplitState(s, c, k, extra);
  }

  /** After Start, with the settings left alone, `SessionTicks` ticks
      leave the timer halted with index 0 and timer 0. */
  lemma SessionHalts(c: Config)
    requires MinIntervals <= c.intervals
    ensures Run(StartTimer(c).state, c, SessionTicks(c)).state == Halted
  {
    assert StartTimer(c).state == FocusPhase(0, c);
    RemainingTicksCount(0, c);
    HaltsFrom(0, c);
  }

  /** After Start, the session sounds two cues per interval. */
  lemma SessionCues(c: Config)
    requires MinIntervals <= c.intervals
    ensures Cues(Run(StartTimer(c).state, c, SessionTicks(c)).events) == 2 * c.intervals
  {
    assert StartTimer(c).state == FocusPhase(0, c);
    RemainingTicksCount(0, c);
    CuesFrom(0, c);
  }

  /** After Start, the session completes one Focus -> Rest cycle per
      interval. */
  lemma SessionCycles(c: Config)
    requires MinIntervals <= c.intervals
    ensures Cycles(StartTimer(c).state, c, SessionTicks(c)) == c.intervals
  {
    assert StartTimer(c).state == FocusPhase(0, c);
    RemainingTicksCount(0, c);
    CyclesFrom(0, c);
  }

  /** After Start, the last request of the session is a pause. */
  lemma SessionEndsPaused(c: Config)
    requires MinIntervals <= c.intervals
    ensures EndsWithPause(Run(StartTimer(c).state, c, SessionTicks(c)).events)
  {
    assert StartTimer(c).state == FocusPhase(0, c);
    RemainingTicksCount(0, c);
    EndsPausedFrom(0, c);
  }

  /** The central property: after Start, with the settings left alone,
      `SessionTicks` ticks complete exactly `intervals` Focus -> Rest cycles,
      sound two cues per interval, and leave the timer halted with index 0
      and timer 0, the last request being a pause. */
  lemma SessionCompletes(c: Config)
    requires MinIntervals <= c.intervals
    ensures var s := StartTimer(c).state;
            var r := Run(s, c, SessionTicks(c));
            && r.state == Halted
            && Cycles(s, c, SessionTicks(c)) == c.intervals
            && Cues(r.events) == 2 * c.intervals
            && EndsWithPause(r.events)
  {
    SessionHalts(c);
    SessionCues(c);
    SessionCycles(c);
    SessionEndsPaused(c);
  }

  /** No session stops early: before `SessionTicks` ticks the timer is
      still running. */
  lemma {:induction false} RunningBeforeEnd(c: Config, k: nat)
    requires MinIntervals <= c.intervals && k < SessionTicks(c)
    ensures Run(StartTimer(c).state, c, k).state.running
  {
    assert StartTimer(c).state == FocusPhase(0, c);
    RemainingTicksCount(0, c);
    RunningUntilDone(0, c, k);
  }

  /** Once the session is over, further ticks change nothing. */
  lemma {:induction false} HaltedAfterEnd(c: Config, k: nat)
    requires MinIntervals <= c.intervals && SessionTicks(c) <= k
    ensures Run(StartTimer(c).state, c, k).state == Halted
  {
    var s := StartTimer(c).state;
    var total := SessionTicks(c);
    SessionHalts(c);
    assert total + (k - total) == k;
    StaysHalted(s, c, total, k - total);
  }

  /** The one-second tick source driving a started session until it stops:
      it ticks exactly `intervals * IntervalTicks` times and sounds exactly
      two cues per interval. */
  method DriveSession(c: Config) returns (ticks: nat, cues: nat)
    requires MinIntervals <= c.intervals
    ensures ticks == c.intervals * IntervalTicks(c)
    ensures cues == 2 * c.intervals
  {
    var start := StartTimer(c).state;
    SessionHalts(c);
    RemainingTicksCount(0, c);
    var s := start;
    ticks, cues := 0, 0;
    while s.running
      invariant ticks <= SessionTicks(c)
      invariant s == Run(start, c, ticks).state
      invariant s.running <==> ticks < SessionTicks(c)
      invariant cues == Cues(Run(start, c, ticks).events)
      decreases SessionTicks(c) - ticks
    {
      var step := Tick(s, c);
      RunOneMore(start, c, ticks);
      if ticks + 1 < SessionTicks(c) {
        RunningBeforeEnd(c, ticks + 1);
      }
      s := step.state;
      cues := cues + Cues(step.events);
      ticks := ticks + 1;
    }
    SessionCues(c);
  }

  /** Two intervals: after one interval's ticks the timer is in the Focus
      phase of the second interval rather than halted; after two it halts. */
  lemma TwoIntervals(c: Config)
    requires c.intervals == 2
    ensures Run(StartTimer(c).state, c, IntervalTicks(c)).state == FocusPhase(1, c)
    ensures Run(StartTimer(c).state, c, 2 * IntervalTicks(c)).state == Halted
  {
    assert StartTimer(c).state == FocusPhase(0, c);
    OneInterval(0, c);
    SessionCompletes(c);
  }

  /** 25 minutes of Focus and 5 of Rest, one interval: 1500 ticks after
      Start the timer is in Rest at 300 seconds, one cue sounded; 300 more
      ticks end the session with a second cue and a final pause request. */
  lemma ScenarioOneInterval(c: Config)
    requires c.focus == 25 && c.rest == 5 && c.intervals == 1
    ensures StartTimer(c).state == State(Focus, 1500, 0, true)
    ensures var r := Run(StartTimer(c).state, c, 1500);
            r.state == State(Rest, 300, 0, true) && Cues(r.events) == 1
    ensures var r := Run(StartTimer(c).state, c, 1800);
            && r.state == Halted && Cues(r.events) == 2
            && EndsWithPause(r.events)
  {
    var s := StartTimer(c).state;
    assert s == State(Focus, 1500, 0, true);
    PhaseElapses(s, c);
    TransitionProtocol(Focus, 0, c);
    SessionCompletes(c);
  }
}
