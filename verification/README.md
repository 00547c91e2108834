# Pomodoro interval timer — a verified model

The page is a Pomodoro timer that drives a music player. A session is a run of
`intervals` Focus/Rest intervals. Each phase counts down one second per tick.
When a phase ends:

- a tone sounds;
- the phase flips;
- with auto-pause on, the music is paused on entering Rest, or the selected
  playlist is played on entering Focus;
- after the last Rest phase the timer halts.

Start, Reset, Pause, +1/+5 min and the three settings fields act on the same
state.

The model takes that interval state machine out of the page's hooks and
makes it an explicit state record. Each thing that can happen becomes one
pure step function, which returns the new state and the requests made of the
collaborators, in order. There are three kinds of request:

- `Notify`: the tone;
- `Play(id)`: play a playlist;
- `Pause`: pause playback.

The modules:

- `Effects`: the requests as data, the playlist selection, and the access
  token gate in front of the music service.
- `Settings`: the configuration record and the validators that clamp what the
  user types.
- `Engine`: the timer state, the tick and its transition protocol, and every
  button and settings edit.
- `Session`: ticks iterated under fixed settings. It holds the central
  theorem: after Start, exactly `intervals` Focus -> Rest cycles happen and
  the timer halts. It also has a method that drives a session to its end.
- `Display`: the `m:ss` countdown text, with a parser as its partner. The two
  are proved inverse.
- `Options`: the optional value.

Behaviours of the code worth knowing:

- The transition fires when the countdown is at 1 or below, not when it
  reaches 0. A phase of `L >= 1` seconds therefore takes `L` ticks, and a
  0-minute phase takes one tick (`Session.PhaseElapses`). The countdown never
  ticks down to 0. A 0 appears on the timer only at completion or as a
  0-minute phase.
- A completed session stops, showing Focus at `0:00`. The phase toggle is
  applied before the early return that halts the timer.
- The index stays below the interval count under every operation except one
  (`Engine.IndexStaysInRange`). Lowering the interval count while the timer
  runs can push the index past the new count. The `>=` test at the next
  Rest -> Focus transition still ends the session there
  (`Engine.LoweringIntervalsWhileRunning`).
- Suppose auto-pause is on and a playlist is selected. The last transition
  then asks to play the playlist and then, in the same step, to pause
  (`Engine.CompletionPlaysThenPauses`).
- A selected playlist whose id is the empty string counts as no selection,
  as the page's truthiness test treats it.

## Model

| member | source | states |
|---|---|---|
| Settings.ClampMinutes | src/App.jsx:204 | Empty or non-numeric input gives 0. A number gives the point of [0, 60] nearest to it, so in-range numbers are kept. |
| Settings.ClampIntervals | src/App.jsx:219 | Empty or non-numeric input gives 1. A number gives the point of [1, 10] nearest to it, so in-range numbers are kept. |
| Settings.ClampIdempotent | src/App.jsx:204 | Feeding a stored value back through either validator leaves it unchanged. |
| Settings.UpdateIntervals | src/App.jsx:218-221 | Stores the clamped count, always in [1, 10]. Touches no other setting and keeps the settings within their ranges. |
| Engine.InitialIsDefaultFocus | src/App.jsx:28-33 | The page starts idle in Focus, showing the default 25-minute Focus length. |
| Engine.AutoPlayback | src/App.jsx:147-153 | The auto-pause request on a transition: never a cue, at most one request, and none with auto-pause off. The exact requests are stated by `Engine.AutoPlaybackRequests`. |
| Engine.Expire | src/App.jsx:140-173 | The transition toggles the phase and sounds the cue before any other request. Its full contract is `Engine.TransitionProtocol`. |
| Engine.Tick | src/App.jsx:139-176 | An idle tick changes nothing, and a tick never starts a stopped timer. `Engine.TickSteps` states every case, and its transition case is exactly `Engine.Expire`, which `Engine.TransitionProtocol` pins down. |
| Engine.AutoPlaybackRequests | src/App.jsx:147-153 | With auto-pause off there is no request. Otherwise entering Rest requests exactly `[Pause]`. Entering Focus with a playlist selected requests exactly `[Play(id)]` of the selected playlist, and nothing without one. There is never a cue and never more than one request. |
| Engine.TransitionProtocol | src/App.jsx:140-173 | Exact request sequences. Focus -> Rest gives `[Notify]`, then `Pause` if auto-pause is on, and keeps the index with Rest at full length. Rest -> Focus gives `[Notify]`, then `Play(id)` if auto-pause is on and a playlist is selected. It then either moves the index up by one with Focus at full length, or after the last interval halts (Focus, timer 0, index 0, stopped) with one final `Pause` appended. The timer keeps running exactly when the re-arm guard at line 167 holds. |
| Engine.TickSteps | src/App.jsx:139-176 | An idle tick does nothing. Above 1 the countdown drops by one, with no other change and no request. At 1 or 0 the tick is exactly the transition protocol (`Engine.Expire`): one cue and a phase toggle. The index moves only on Rest -> Focus, by +1 or back to 0 on halting. A running timer stops only by finishing its last Rest. The index bound is preserved. |
| Engine.StartTimer | src/App.jsx:184-190 | Running from index 0 in Focus at the full Focus length. The requests are exactly `[Play(id)]` for the selected playlist when there is one, and none otherwise, whatever auto-pause says. Never pauses, never cues. |
| Engine.ResetTimer | src/App.jsx:192-197 | Stopped, index 0, same phase, rewound to that phase's full length. Exactly one request, a pause, whatever auto-pause says. |
| Engine.PauseTimer | src/App.jsx:365 | Only stops the timer. Phase, countdown and index are kept. |
| Engine.AddTime | src/App.jsx:199-201 | While running, adds the minutes in seconds to the countdown and changes nothing else. While idle the buttons are disabled and nothing changes. |
| Engine.UpdateTimerSettings | src/App.jsx:203-216 | The clamped minutes become the edited phase's length, and the other phase's length is kept. An idle timer showing the edited phase is rewound to the new length. Any other timer is left untouched. |
| Engine.EditAppliesAtNextPhase | src/App.jsx:163-173 | Editing Focus during a running Rest leaves the countdown alone, and the Focus phase that follows starts at the new length. |
| Engine.IndexStaysInRange | src/App.jsx:155-163 | Tick, Start, Reset, Pause, add-time and minute edits all keep the index below the count while the timer runs. Interval edits are not covered: an idle edit cannot break the bound, which only constrains a running timer, and Start resets the index anyway. A running edit can break it (`Engine.LoweringIntervalsWhileRunning`). |
| Engine.LoweringIntervalsWhileRunning | src/App.jsx:155-162 | Example: lowering the count while running breaks the index bound, yet the next Rest -> Focus transition still halts. |
| Engine.CompletionPlaysThenPauses | src/App.jsx:147-161 | With auto-pause and a playlist, the final transition requests a cue, a play and then a pause. |
| Effects.PlayRequest | src/App.jsx:189 | One play request for the selected playlist if there is one, none otherwise. A selection with an empty id counts as none. |
| Effects.Deliver | src/App.jsx:68-90 | With a token every request goes through. Without one no play or pause request reaches the music service, while every cue still sounds. |
| Session.Run | src/App.jsx:136-182 | An idle timer has no tick source, so ticks change nothing and request nothing. Each tick makes at most three requests. |
| Session.PhaseElapses | src/App.jsx:139-176 | A running phase lasts exactly its countdown in ticks (one tick for 0) and then runs the transition protocol once. |
| Session.AddTimeDelaysTransition | src/App.jsx:199-201 | Adding `m` minutes to a running countdown delays its transition by exactly `60*m` ticks. The exception is a countdown already at 0, whose transition was one tick away: there the delay is `60*m - 1` ticks. |
| Session.PauseFreezes | src/App.jsx:178-181 | A paused timer stays exactly as it was, with no request, however many seconds pass. |
| Session.IntervalElapses | src/App.jsx:155-173 | One interval from a Focus start is the Focus transition followed by the Rest transition, and nothing else. |
| Session.OneInterval | src/App.jsx:155-173 | One interval sounds two cues and completes one cycle. It ends in the next interval's Focus phase, or halted after a final pause. |
| Session.HaltsFrom | src/App.jsx:155-163 | From interval `i`'s Focus start, the remaining intervals end halted. |
| Session.CuesFrom | src/App.jsx:141-142 | From interval `i`'s Focus start, the remaining intervals sound two cues each. |
| Session.CyclesFrom | src/App.jsx:155-163 | From interval `i`'s Focus start, each remaining interval completes one Focus -> Rest cycle. |
| Session.EndsPausedFrom | src/App.jsx:157-161 | From interval `i`'s Focus start, the last request of the session is the final pause. |
| Session.SessionHalts | src/App.jsx:155-163 | After Start, `intervals` intervals' worth of ticks leave the timer halted. |
| Session.SessionCues | src/App.jsx:141-142 | After Start, a session sounds exactly two cues per interval. |
| Session.SessionCycles | src/App.jsx:155-163 | After Start, exactly `intervals` Focus -> Rest cycles complete. |
| Session.SessionEndsPaused | src/App.jsx:157-161 | After Start, a session's last request is a pause. |
| Session.SessionCompletes | src/App.jsx:136-182 | After Start with the settings left alone, a full session gives exactly `intervals` cycles and two cues per interval. It ends halted at Focus 0:00, index 0, with a final pause. |
| Session.RunningUntilDone | src/App.jsx:155-173 | From interval `i`'s Focus start the timer keeps running until the last tick of the session. |
| Session.RunningBeforeEnd | src/App.jsx:155-173 | No session stops early. |
| Session.HaltedAfterEnd | src/App.jsx:158-161 | Once a session has halted, further ticks change nothing. |
| Session.DriveSession | src/App.jsx:136-182 | Ticking a started session until it stops takes exactly `intervals * (Focus ticks + Rest ticks)` ticks and sounds two cues per interval. |
| Session.TwoIntervals | src/App.jsx:155-163 | With two intervals, the timer is in the second interval's Focus phase after one interval rather than halted, and halts after two. |
| Session.ScenarioOneInterval | src/App.jsx:139-190 | 25/5 minutes and one interval: 1500 ticks after Start the timer is in Rest at 300 with one cue. 300 more ticks halt it with a second cue and a final pause. |
| Display.Decimal | src/App.jsx:327 | `String(n)` writes digits only, with no leading zero. `Display.DecimalValue` and `Display.CanonicalDecimal` prove that the digits denote `n` and that this is the only such numeral. |
| Display.DecimalValue | src/App.jsx:327 | The numeral written for `n` denotes `n`. |
| Display.CanonicalDecimal | src/App.jsx:327 | Every digit string without a leading zero is the numeral written for its own value, so the numeral of a number is unique. |
| Display.PadStart | src/App.jsx:327 | Padding gives the requested width by putting exactly the missing number of fill characters in front. A string that is already long enough is left alone. |
| Display.Clock | src/App.jsx:327 | The countdown text is a canonical minute numeral, a colon and two digits. `Display.ClockRoundTrip` proves that they denote the countdown. |
| Display.ClockRoundTrip | src/App.jsx:327 | Reading the shown `m:ss` text back gives the seconds it was made from. |
| Display.ParseClockExact | src/App.jsx:327 | Every text the reader accepts is exactly how its value is shown, so distinct countdowns never look alike. |
| Display.DefaultFocusShows | src/App.jsx:327 | 1500 seconds show as `25:00`. |

## Left out

- Music-service requests: the HTTP calls behind play, pause and volume, and the playlist fetch. They are network I/O. Only the requests survive, as `Play`/`Pause` events, and the token check in front of them becomes the boolean argument of `Effects.Deliver`.
- Reading the access token from the address bar and local storage. This is browser sign-in plumbing.
- The notification tone's synthesis (oscillator frequencies and gains, floating point). It becomes the single `Notify` event.
- Scheduling: arming and clearing the one-second interval, and the deferred re-arm after a transition. A tick is one call of `Engine.Tick`. "Running" is read as "a tick source is armed", so an idle timer ignores ticks. The re-arm guard is kept only as `Engine.RearmGuard`, and `Engine.TransitionProtocol` proves the timer keeps running exactly when that guard holds.
- The hooks' deferred state updates and the effect's re-subscription. Each step reads the settings current at the moment it runs.
- The progress bar (a floating-point percentage), the interval label and all other rendering.
- Number parsing of the input fields. Raw input is the abstract `Empty | NonNumeric | Num(n)`, where `n` is what `parseInt` reads.
- Settings.ClampMinutes: always in [0, 60] only within that abstraction. A field can pass text such as `.5`, which is not NaN for `isNaN` but from which `parseInt` reads NaN. The page then stores NaN as a length. An idle timer shows NaN, and a started phase of that length never expires, because `prev <= 1` never holds. The model has no such input.
- Settings.ClampIntervals: always in [1, 10] only within the same abstraction. The same kind of text stores NaN as the interval count, and then `nextInterval >= intervals` never holds, so the session never halts. The model has no such input.
- The auto-pause switch, the playlist dropdown and the volume slider. They only set a field of `Settings.Config` (or nothing the timer reads).
- The Start/Reset button shows Start only while idle and Reset only while running. `Engine.StartTimer` and `Engine.ResetTimer` accept any state. Pause followed by Start begins a new session rather than resuming.
- Engine.AddTime: modelled as a no-op while idle. The handler itself would add the time, but its buttons are disabled then.
- Session.Run: only bounds the number of requests per tick, at most three. Their exact content is stated per tick by `Engine.TickSteps` and `Engine.TransitionProtocol`.
- The privacy notice component. It is static text.
