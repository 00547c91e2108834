/** The interval timer: an explicit state record and one pure step function
    per thing that can happen to it (a tick of the one-second timer, or a
    button or settings edit). Each step returns the new state and the
    requests it makes of the collaborators. */
module Engine {
  import opened Effects
  import opened Settings

  datatype Phase = Focus | Rest

  function Toggle(p: Phase): Phase {
    if p == Focus then Rest else Focus
  }

  /** Full length in seconds of a phase, read from the current settings. */
  function Duration(p: Phase, c: Config): nat {
    (if p == Focus then c.focus else c.rest) * SecondsPerMinute
  }

  /** The timer's state: the phase shown, the seconds left, the zero-based
      interval index and whether the one-second tick source is armed. */
  datatype State = State(phase: Phase, timer: nat, index: nat, running: bool)

  /** What the page shows before anything is pressed: 25 minutes of Focus. */
  const Initial := State(Focus, 1500, 0, false)

  /** Where a completed session stops. */
  const Halted := State(Focus, 0, 0, false)

  /** A step's outcome: the new state and the requests made, in order. */
  datatype Step = Step(state: State, events: seq<Event>)

  /** The page's initial timer is the default Focus length. */
  lemma InitialIsDefaultFocus()
    ensures Initial.timer == Duration(Focus, Default)
    ensures !Initial.running && Initial.phase == Focus
  {
  }

  /** The interval index never reaches the interval count while the timer
      runs. */
  predicate IndexInRange(s: State, c: Config) {
    s.running ==> s.index < c.intervals
  }

  /** The condition under which the page re-arms the tick source after a
      transition (the `if` guarding the deferred re-arm). */
  predicate RearmGuard(phase: Phase, index: nat, c: Config) {
    !(Toggle(phase) == Focus && index >= c.intervals - 1)
  }

  /** The playback request a transition into `next` makes: none unless
      auto-pause is on; then a pause on entering Rest, and a play of the
      selected playlist, if any, on entering Focus. */
  function AutoPlayback(next: Phase, c: Config): (evs: seq<Event>)
    ensures Cues(evs) == 0 && |evs| <= 1
    ensures !c.autoPause ==> evs == []
  {
    if !c.autoPause then []
    else if next == Rest then [Pause]
    else PlayRequest(c.selection)
  }

  /** The play request made on entering Focus: the selected playlist's,
      exactly when auto-pause is on and a playlist is selected. */
  function FocusPlayback(c: Config): seq<Event> {
    if c.autoPause && HasPlaylist(c.selection) then [Play(c.selection.id)] else []
  }

  /** The transition protocol, run when the running timer's countdown ends:
      the cue, the phase toggle, the auto-pause playback request, then
      either the end of the session or the next phase at its full length.
      It reads only the phase and interval index, never the countdown. */
  function Expire(phase: Phase, index: nat, c: Config): (r: Step)
    ensures r.state.phase == Toggle(phase)
    ensures |r.events| >= 1 && r.events[0] == Notify
  {
    var next := Toggle(phase);
    var events := [Notify] + AutoPlayback(next, c);
    if next == Focus && index + 1 >= c.intervals then
      Step(State(next, 0, 0, false), events + [Pause])
    else
      var index' := if next == Focus then index + 1 else index;
      Step(State(next, Duration(next, c), index', true), events)
  }

  /** One tick of the one-second timer. A countdown above 1 just decrements;
      at 1 or 0 the transition protocol runs. When the timer is not running
      no tick source is armed, so a tick changes nothing. */
  function Tick(s: State, c: Config): (r: Step)
    ensures !s.running ==> r == Step(s, [])
    ensures r.state.running ==> s.running
  {
    if !s.running then Step(s, [])
    else if s.timer > 1 then Step(s.(timer := s.timer - 1), [])
    else Expire(s.phase, s.index, c)
  }

  /** Auto-pause requests: nothing when the switch is off; otherwise a pause
      exactly on entering Rest and a play exactly on entering Focus with a
      playlist selected. Never a cue, never more than one request. */
  lemma AutoPlaybackRequests(next: Phase, c: Config)
    ensures var evs := AutoPlayback(next, c);
            && Cues(evs) == 0 && |evs| <= 1
            && (Pause in evs <==> c.autoPause && next == Rest)
            && (Plays(evs) <==> c.autoPause && next == Focus && HasPlaylist(c.selection))
            && (Pause in evs ==> evs == [Pause])
            && (Plays(evs) ==> evs == [Play(c.selection.id)])
  {
  }

  /** The transition protocol's promises: exactly one cue, first; the phase
      toggles; on entering Rest the index is kept, Rest starts at its full
      length and a pause is asked for exactly when auto-pause is on; on
      entering Focus a play is asked for exactly when auto-pause is on and a
      playlist is selected, and either the index moves up by one with Focus
      at full length, or, after the last interval, the session halts with a
      final pause request. The timer keeps running exactly when the page's
      re-arm guard holds. */
  lemma {:induction false} TransitionProtocol(phase: Phase, index: nat, c: Config)
    ensures var r := Expire(phase, index, c);
            && |r.events| >= 1 && r.events[0] == Notify && Cues(r.events) == 1
            && |r.events| <= 3
            && r.state.phase == Toggle(phase)
            && (r.state.running <==> RearmGuard(phase, index, c))
    ensures var r := Expire(phase, index, c);
            phase == Focus ==>
              && r.state == State(Rest, Duration(Rest, c), index, true)
              && r.events == [Notify] + (if c.autoPause then [Pause] else [])
              && (Pause in r.events <==> c.autoPause)
              && !Plays(r.events)
    ensures var r := Expire(phase, index, c);
            phase == Rest ==> (Plays(r.events) <==> c.autoPause && HasPlaylist(c.selection))
    ensures var r := Expire(phase, index, c);
            phase == Rest && index + 1 < c.intervals ==>
              && r.state == State(Focus, Duration(Focus, c), index + 1, true)
              && r.events == [Notify] + FocusPlayback(c)
              && Pause !in r.events
    ensures var r := Expire(phase, index, c);
            phase == Rest && index + 1 >= c.intervals ==>
              && r.state == Halted
              && r.events == [Notify] + FocusPlayback(c) + [Pause]
              && EndsWithPause(r.events)
  {
    var next := Toggle(phase);
    var playback := AutoPlayback(next, c);
    AutoPlaybackRequests(next, c);
    PlaysConcat([Notify], playback);
    PlaysConcat([Notify] + playback, [Pause]);
    CuesConcat([Notify], playback);
    CuesConcat([Notify] + playback, [Pause]);
  }

  /** A tick's promises: idle, nothing happens; above 1, the countdown drops
      by one and nothing else changes; at 1 or 0, one cue and the phase
      toggles. The index moves only on a Rest -> Focus transition, up by one
      or back to 0 on halting, and a running timer stops only by finishing
      its last interval. */
  lemma {:induction false} TickSteps(s: State, c: Config)
    ensures var r := Tick(s, c);
            && (!s.running ==> r == Step(s, []))
            && (s.running && s.timer > 1 ==> r.state == s.(timer := s.timer - 1) && r.events == [])
            && (s.running && s.timer <= 1 ==> Cues(r.events) == 1 && r.state.phase == Toggle(s.phase))
    ensures var r := Tick(s, c);
            r.state.index != s.index ==>
              && s.phase == Rest && r.state.phase == Focus
              && (r.state.index == s.index + 1 || r.state == Halted)
    ensures var r := Tick(s, c);
            s.running && !r.state.running <==>
              s.running && s.timer <= 1 && s.phase == Rest && s.index + 1 >= c.intervals
    ensures s.running && s.timer <= 1 ==> Tick(s, c) == Expire(s.phase, s.index, c)
    ensures IndexInRange(s, c) ==> IndexInRange(Tick(s, c).state, c)
  {
    if s.running && s.timer <= 1 {
      TransitionProtocol(s.phase, s.index, c);
    }
  }

  /** The Start button: a fresh session from the first Focus phase, with a
      play request for the selected playlist whatever auto-pause says. */
  function StartTimer(c: Config): (r: Step)
    ensures r.state.running && r.state.phase == Focus && r.state.index == 0
    ensures r.state.timer == Duration(Focus, c)
    ensures r.events == (if HasPlaylist(c.selection) then [Play(c.selection.id)] else [])
    ensures Plays(r.events) <==> HasPlaylist(c.selection)
    ensures Pause !in r.events && Cues(r.events) == 0
    ensures MinIntervals <= c.intervals ==> IndexInRange(r.state, c)
  {
    Step(State(Focus, c.focus * SecondsPerMinute, 0, true), PlayRequest(c.selection))
  }

  /** The Reset button: stop, rewind the current phase to its full length,
      return to the first interval and always request a pause, whatever
      auto-pause says. */
  function ResetTimer(s: State, c: Config): (r: Step)
    ensures !r.state.running && r.state.index == 0
    ensures r.state.phase == s.phase
    ensures r.state.timer == Duration(s.phase, c)
    ensures r.events == [Pause]
  {
    var full := if s.phase == Focus then c.focus * SecondsPerMinute else c.rest * SecondsPerMinute;
    Step(State(s.phase, full, 0, false), [Pause])
  }

  /** The Pause button: only disarms the tick source. */
  function PauseTimer(s: State): (r: State)
    ensures !r.running
    ensures r.phase == s.phase && r.timer == s.timer && r.index == s.index
  {
    s.(running := false)
  }

  /** The +1 min and +5 min buttons. They are disabled while the timer is
      idle, so pressing them then has no effect. */
  function AddTime(s: State, minutes: nat): (r: State)
    ensures s.running ==> r.timer == s.timer + minutes * SecondsPerMinute
    ensures !s.running ==> r == s
    ensures r.phase == s.phase && r.index == s.index && r.running == s.running
  {
    if s.running then s.(timer := s.timer + minutes * SecondsPerMinute) else s
  }

  /** The outcome of editing a minute field: the timer state and the
      settings after the edit. */
  datatype Edited = Edited(state: State, config: Config)

  /** Editing the Focus or Rest minute field: the clamped value is stored,
      and an idle timer showing that same phase is rewound to the new
      length. A running countdown is never touched. */
  function UpdateTimerSettings(s: State, c: Config, kind: Phase, raw: RawInput): (r: Edited)
    ensures Duration(kind, r.config) == ClampMinutes(raw) * SecondsPerMinute
    ensures Duration(Toggle(kind), r.config) == Duration(Toggle(kind), c)
    ensures r.config.intervals == c.intervals && r.config.autoPause == c.autoPause
    ensures r.config.selection == c.selection
    ensures !s.running && kind == s.phase ==> r.state.timer == Duration(s.phase, r.config)
    ensures s.running || kind != s.phase ==> r.state == s
    ensures r.state.phase == s.phase && r.state.index == s.index && r.state.running == s.running
    ensures Valid(c) ==> Valid(r.config)
  {
    var value := ClampMinutes(raw);
    if kind == Focus then
      var s' := if s.phase == Focus && !s.running then s.(timer := value * SecondsPerMinute) else s;
      Edited(s', c.(focus := value))
    else
      var s' := if s.phase == Rest && !s.running then s.(timer := value * SecondsPerMinute) else s;
      Edited(s', c.(rest := value))
  }

  /** An edit made while the timer runs leaves the countdown alone, and the
      next phase of the edited kind starts at the new length: editing Focus
      during a Rest phase that is not the last one shapes the Focus phase
      that follows. */
  lemma EditAppliesAtNextPhase(s: State, c: Config, raw: RawInput)
    requires s.running && s.phase == Rest && s.index + 1 < c.intervals
    ensures var e := UpdateTimerSettings(s, c, Focus, raw);
            && e.state == s
            && Expire(s.phase, s.index, e.config).state
               == State(Focus, ClampMinutes(raw) * SecondsPerMinute, s.index + 1, true)
  {
  }

  /** Every operation except editing the interval count keeps the index
      below the interval count while the timer runs. */
  lemma IndexStaysInRange(s: State, c: Config, kind: Phase, raw: RawInput, minutes: nat)
    requires IndexInRange(s, c) && MinIntervals <= c.intervals
    ensures IndexInRange(Tick(s, c).state, c)
    ensures IndexInRange(StartTimer(c).state, c)
    ensures IndexInRange(ResetTimer(s, c).state, c)
    ensures IndexInRange(PauseTimer(s), c)
    ensures IndexInRange(AddTime(s, minutes), c)
    ensures IndexInRange(UpdateTimerSettings(s, c, kind, raw).state, UpdateTimerSettings(s, c, kind, raw).config)
  {
  }

  /** Lowering the interval count while the timer runs can leave the index
      at or beyond the new count; the `>=` test at the next Rest -> Focus
      transition still ends the session there. */
  lemma LoweringIntervalsWhileRunning()
    ensures var c := Default.(intervals := 5);
            var s := State(Rest, 1, 3, true);
            var c' := UpdateIntervals(c, Num(2));
            && IndexInRange(s, c)
            && !IndexInRange(s, c')
            && Tick(s, c').state == Halted
  {
  }

  /** With auto-pause on and a playlist selected, the last transition of a
      session asks to play and then to pause in the same step. */
  lemma CompletionPlaysThenPauses(s: State, c: Config)
    requires s.running && s.timer <= 1 && s.phase == Rest && s.index + 1 >= c.intervals
    requires c.autoPause && HasPlaylist(c.selection)
    ensures Tick(s, c).events == [Notify, Play(c.selection.id), Pause]
  {
  }
}
