/** The session controller of the breathing widget: the component's state
    (`isRunning`, `isPaused`, `duration`, `theme`, `breathCount`, `showSummary`,
    `totalTime`, `startTime`, `isReady`), its refs (`startTimeRef`,
    `pauseTimeRef`, `cycleCountRef`), the start, pause and stop handlers, the two
    effects that react to `isRunning`, `isPaused` and `duration`, and the timers
    they schedule.

    Clock readings are passed in as `now` (whole milliseconds). A timer is a due
    time kept in the state, and its firing is an explicit event that may happen at
    any `now` at or after that time. A handler runs, then the effects whose
    dependencies changed run once: first the cleanup of their previous run, then
    their body. */
module BoxBreathing {
  import opened JsMath
  import opened BoxColors
  import Box

  /** The lead-in before the animation starts, in milliseconds. */
  const LeadIn: int := 2500

  /** The durations the selector offers, in seconds. */
  predicate ValidDuration(d: int)
  {
    d == 4 || d == 5 || d == 6
  }

  /** The component's state, its refs and its pending timers. `startLeadIns`
      holds the due times of the timeouts `handleStart` schedules (never
      cleared), `effectLeadIn` that of the lead-in effect's timeout, and
      `intervalDue` the next firing of the breath-counting interval. */
  datatype SessionState = SessionState(
    isRunning: bool,
    isPaused: bool,
    duration: int,
    theme: Theme,
    breathCount: int,
    showSummary: bool,
    totalTime: int,
    startTime: Option<int>,
    isReady: bool,
    startTimeRef: Option<int>,
    pauseTimeRef: Option<int>,
    cycleCount: int,
    startLeadIns: seq<int>,
    effectLeadIn: Option<int>,
    intervalDue: Option<int>)

  /** What every reachable state satisfies: one breath is counted per four
      interval ticks, a pause has recorded its elapsed time, the lead-in cue and
      its timeout belong to a running, unpaused session, and the interval runs
      exactly while the session runs unpaused. */
  predicate Inv(s: SessionState)
  {
    && ValidDuration(s.duration)
    && s.cycleCount >= 0
    && s.breathCount == s.cycleCount / 4
    && (s.isPaused ==> s.pauseTimeRef.Some?)
    && (s.isReady ==> Active(s))
    && (s.effectLeadIn.Some? ==> Active(s))
    && (s.intervalDue.Some? <==> Active(s))
  }

  /** Running and not paused: the state in which the lead-in cue, its timeout
      and the breath-counting interval may be active. */
  predicate Active(s: SessionState)
  {
    s.isRunning && !s.isPaused
  }

  /** The state when the widget mounts: idle, 4-second phases, default theme. */
  function Initial(): (s: SessionState)
    ensures Inv(s)
    ensures !s.isRunning && !s.isPaused && !s.isReady && !s.showSummary
    ensures s.startTimeRef.None? && s.startLeadIns == [] && s.effectLeadIn.None? && s.intervalDue.None?
  {
    SessionState(false, false, 4, Default, 0, false, 0, None, false, None, None, 0, [], None, None)
  }

  // ----- The effects -----

  /** The lead-in effect: its cleanup cancels the timeout of its previous run;
      then a running, unpaused session shows the lead-in cue and schedules the
      end of the lead-in, and any other session loses `startTime` and the cue. */
  function LeadInEffect(s: SessionState, now: int): SessionState
  {
    if Active(s) then s.(isReady := true, effectLeadIn := Some(now + LeadIn))
    else s.(startTime := None, isReady := false, effectLeadIn := None)
  }

  /** The breath-counting effect: its cleanup clears the previous interval; a
      running, unpaused session starts a new one. */
  function IntervalEffect(s: SessionState, now: int): SessionState
  {
    if Active(s) then s.(intervalDue := Some(now + Box.Span(s.duration)))
    else s.(intervalDue := None)
  }

  /** The effects run after a handler: the lead-in effect when `isRunning` or
      `isPaused` changed, the interval effect when one of them or `duration` did.
      They touch only the cue, `startTime` and the two timers. */
  function Commit(s: SessionState, wasRunning: bool, wasPaused: bool, prevDuration: int, now: int): (t: SessionState)
    ensures t == s.(isReady := t.isReady, startTime := t.startTime, effectLeadIn := t.effectLeadIn, intervalDue := t.intervalDue)
    ensures wasRunning == s.isRunning && wasPaused == s.isPaused ==>
      t.isReady == s.isReady && t.startTime == s.startTime && t.effectLeadIn == s.effectLeadIn
    ensures (wasRunning != s.isRunning || wasPaused != s.isPaused) && Active(s) ==>
      t.isReady && t.startTime == s.startTime && t.effectLeadIn == Some(now + LeadIn)
    ensures (wasRunning != s.isRunning || wasPaused != s.isPaused) && !Active(s) ==>
      !t.isReady && t.startTime.None? && t.effectLeadIn.None?
    ensures wasRunning == s.isRunning && wasPaused == s.isPaused && prevDuration == s.duration ==>
      t.intervalDue == s.intervalDue
    ensures (wasRunning != s.isRunning || wasPaused != s.isPaused || prevDuration != s.duration) && Active(s) ==>
      t.intervalDue == Some(now + Box.Span(s.duration))
    ensures (wasRunning != s.isRunning || wasPaused != s.isPaused || prevDuration != s.duration) && !Active(s) ==>
      t.intervalDue.None?
  {
    var a := if wasRunning != s.isRunning || wasPaused != s.isPaused then LeadInEffect(s, now) else s;
    if wasRunning != s.isRunning || wasPaused != s.isPaused || prevDuration != s.duration then IntervalEffect(a, now)
    else a
  }

  // ----- The handlers -----

  /** `handleStart`. A paused session resumes with its anchor moved so that the
      elapsed time equals the one recorded at the pause; any other session enters
      the lead-in, schedules a timeout that is never cleared and resets both
      counters. Either way the session runs and the summary closes; the
      duration, theme, total and recorded pause stay. */
  function AfterStart(s: SessionState, now: int): (t: SessionState)
    ensures Inv(s) ==> Inv(t)
    ensures t == s.(isRunning := true, isPaused := false, showSummary := false,
                    isReady := t.isReady, startTime := t.startTime, startTimeRef := t.startTimeRef,
                    cycleCount := t.cycleCount, breathCount := t.breathCount,
                    startLeadIns := t.startLeadIns, effectLeadIn := t.effectLeadIn, intervalDue := t.intervalDue)
    ensures s.isPaused ==>
      && t.startTimeRef.Some? && now - t.startTimeRef.value == NumOr0(s.pauseTimeRef)
      && t.startTime == t.startTimeRef
      && t.cycleCount == s.cycleCount && t.breathCount == s.breathCount
      && t.startLeadIns == s.startLeadIns
    ensures !s.isPaused ==>
      && t.isReady && t.cycleCount == 0 && t.breathCount == 0
      && t.startLeadIns == s.startLeadIns + [now + LeadIn]
      && t.startTimeRef == s.startTimeRef && t.startTime == s.startTime
    ensures !Active(s) ==>
      t.isReady && t.effectLeadIn == Some(now + LeadIn) && t.intervalDue == Some(now + Box.Span(s.duration))
    ensures Active(s) ==> t.effectLeadIn == s.effectLeadIn && t.intervalDue == s.intervalDue
  {
    var h := if s.isPaused then
               s.(startTime := Some(now - NumOr0(s.pauseTimeRef)),
                  startTimeRef := Some(now - NumOr0(s.pauseTimeRef)),
                  isPaused := false)
             else
               s.(isReady := true,
                  startLeadIns := s.startLeadIns + [now + LeadIn],
                  cycleCount := 0,
                  breathCount := 0);
    Commit(h.(isRunning := true, showSummary := false), s.isRunning, s.isPaused, s.duration, now)
  }

  /** `handlePause`: records the elapsed time against `startTimeRef`, which it
      leaves alone, and pauses. Pausing a session that was not paused cancels the
      lead-in timeout and the interval, and drops `startTime` and the lead-in cue;
      pausing again only records the elapsed time anew. */
  function AfterPause(s: SessionState, now: int): (t: SessionState)
    ensures Inv(s) ==> Inv(t)
    ensures t == s.(pauseTimeRef := Some(now - NumOr0(s.startTimeRef)), isPaused := true,
                    startTime := t.startTime, isReady := t.isReady,
                    effectLeadIn := t.effectLeadIn, intervalDue := t.intervalDue)
    ensures s.isPaused ==> t == s.(pauseTimeRef := Some(now - NumOr0(s.startTimeRef)))
    ensures !s.isPaused ==>
      t.startTime.None? && !t.isReady && t.effectLeadIn.None? && t.intervalDue.None?
  {
    var h := s.(pauseTimeRef := Some(now - NumOr0(s.startTimeRef)), isPaused := true);
    Commit(h, s.isRunning, s.isPaused, s.duration, now)
  }

  /** `handleStop`: nothing happens unless the session runs or is paused.
      Otherwise the total time is the whole seconds since `startTimeRef`, read
      before the anchor is cleared, the session stops, the summary opens, and the
      lead-in effect's timeout and the interval end; the timeouts `handleStart`
      scheduled stay pending, and the counters, the recorded pause, the duration
      and the theme stay. */
  function AfterStop(s: SessionState, now: int): (t: SessionState)
    ensures Inv(s) ==> Inv(t)
    ensures !(s.isRunning || s.isPaused) ==> t == s
    ensures (s.isRunning || s.isPaused) ==>
      && t == s.(isRunning := false, isPaused := false, totalTime := t.totalTime,
                 startTime := None, startTimeRef := None, showSummary := true,
                 isReady := false, effectLeadIn := None, intervalDue := None)
      && t.totalTime * 1000 <= now - NumOr0(s.startTimeRef) < (t.totalTime + 1) * 1000
  {
    if s.isRunning || s.isPaused then
      var h := s.(isRunning := false,
                  isPaused := false,
                  totalTime := (now - NumOr0(s.startTimeRef)) / 1000,
                  startTime := None,
                  startTimeRef := None,
                  showSummary := true);
      Commit(h, s.isRunning, s.isPaused, s.duration, now)
    else s
  }

  // ----- The timers -----

  /** The body shared by both lead-in timeouts: hide the cue and anchor the
      animation at the current time. */
  function LeadInDone(s: SessionState, now: int): SessionState
  {
    s.(isReady := false, startTime := Some(now), startTimeRef := Some(now))
  }

  /** The `k`-th timeout scheduled by `handleStart` fires, at or after its due
      time, whatever the session has done since: that timeout, and only it,
      leaves the pending ones, and the other timers stay. */
  function AfterStartTimeout(s: SessionState, k: int, now: int): (t: SessionState)
    requires 0 <= k < |s.startLeadIns| && s.startLeadIns[k] <= now
    ensures Inv(s) ==> Inv(t)
    ensures t == s.(isReady := false, startTime := Some(now), startTimeRef := Some(now),
                    startLeadIns := t.startLeadIns)
    ensures t.startLeadIns == s.startLeadIns[..k] + s.startLeadIns[k + 1..]
    ensures multiset(t.startLeadIns) + multiset{s.startLeadIns[k]} == multiset(s.startLeadIns)
  {
    assert s.startLeadIns == s.startLeadIns[..k] + [s.startLeadIns[k]] + s.startLeadIns[k + 1..];
    LeadInDone(s, now).(startLeadIns := s.startLeadIns[..k] + s.startLeadIns[k + 1..])
  }

  /** The lead-in effect's timeout fires, at or after its due time; the pending
      `handleStart` timeouts and the interval stay. */
  function AfterLeadIn(s: SessionState, now: int): (t: SessionState)
    requires s.effectLeadIn.Some? && s.effectLeadIn.value <= now
    ensures Inv(s) ==> Inv(t)
    ensures t == s.(isReady := false, startTime := Some(now), startTimeRef := Some(now), effectLeadIn := None)
  {
    LeadInDone(s, now).(effectLeadIn := None)
  }

  /** The breath-counting interval fires: one more tick, and one more breath
      whenever the tick count reaches a multiple of four. */
  function AfterTick(s: SessionState, now: int): (t: SessionState)
    requires s.intervalDue.Some? && s.intervalDue.value <= now
    ensures Inv(s) ==> Inv(t)
    ensures t.cycleCount == s.cycleCount + 1
    ensures t.intervalDue == Some(s.intervalDue.value + Box.Span(s.duration))
    ensures t == s.(cycleCount := t.cycleCount, breathCount := t.breathCount, intervalDue := t.intervalDue)
  {
    var count := s.cycleCount + 1;
    s.(cycleCount := count,
       breathCount := if count % 4 == 0 then s.breathCount + 1 else s.breathCount,
       intervalDue := Some(s.intervalDue.value + Box.Span(s.duration)))
  }

  // ----- The settings and the summary -----

  /** The duration selector: a new value restarts the interval of a running,
      unpaused session with the new period; nothing else changes. */
  function AfterSetDuration(s: SessionState, d: int, now: int): (t: SessionState)
    requires ValidDuration(d)
    ensures Inv(s) ==> Inv(t)
    ensures t == s.(duration := d, intervalDue := t.intervalDue)
    ensures d != s.duration && Active(s) ==> t.intervalDue == Some(now + Box.Span(d))
    ensures d != s.duration && !Active(s) ==> t.intervalDue.None?
    ensures d == s.duration ==> t == s
  {
    Commit(s.(duration := d), s.isRunning, s.isPaused, s.duration, now)
  }

  /** The theme selector. */
  function AfterSetTheme(s: SessionState, theme: Theme): (t: SessionState)
    ensures Inv(s) ==> Inv(t)
    ensures t.theme == theme && t == s.(theme := t.theme)
  {
    s.(theme := theme)
  }

  /** Closing the summary dialog. */
  function AfterCloseSummary(s: SessionState): (t: SessionState)
    ensures Inv(s) ==> Inv(t)
    ensures !t.showSummary && t == s.(showSummary := false)
  {
    s.(showSummary := false)
  }

  /** What the box shows at time `now` for the props the session hands it. */
  function View(s: SessionState, now: int): Box.Scene
    requires s.duration >= 1
  {
    Box.Render(s.isRunning, s.duration, s.theme, s.startTime, s.isReady, now)
  }

  // ----- Runs of events -----

  datatype Event =
    | StartClicked(now: int)
    | PauseClicked(now: int)
    | StopClicked(now: int)
    | StartTimeoutFires(k: int, now: int)
    | LeadInFires(now: int)
    | IntervalFires(now: int)
    | DurationChosen(d: int, now: int)
    | ThemeChosen(theme: Theme)
    | SummaryClosed

  /** Whether an event can happen: a timer fires only once due. */
  predicate Enabled(s: SessionState, e: Event)
  {
    match e
    case StartTimeoutFires(k, now) => 0 <= k < |s.startLeadIns| && s.startLeadIns[k] <= now
    case LeadInFires(now) => s.effectLeadIn.Some? && s.effectLeadIn.value <= now
    case IntervalFires(now) => s.intervalDue.Some? && s.intervalDue.value <= now
    case DurationChosen(d, _) => ValidDuration(d)
    case _ => true
  }

  function Step(s: SessionState, e: Event): (t: SessionState)
    requires Enabled(s, e)
    ensures Inv(s) ==> Inv(t)
  {
    match e
    case StartClicked(now) => AfterStart(s, now)
    case PauseClicked(now) => AfterPause(s, now)
    case StopClicked(now) => AfterStop(s, now)
    case StartTimeoutFires(k, now) => AfterStartTimeout(s, k, now)
    case LeadInFires(now) => AfterLeadIn(s, now)
    case IntervalFires(now) => AfterTick(s, now)
    case DurationChosen(d, now) => AfterSetDuration(s, d, now)
    case ThemeChosen(theme) => AfterSetTheme(s, theme)
    case SummaryClosed => AfterCloseSummary(s)
  }

  /** The state after a sequence of events, or `None` if one of them could not
      happen when its turn came. */
  function Run(s: SessionState, events: seq<Event>): Option<SessionState>
    decreases |events|
  {
    if events == [] then Some(s)
    else if Enabled(s, events[0]) then Run(Step(s, events[0]), events[1..])
    else None
  }

  /** Every state reachable by events keeps the invariant; in particular the
      breath count is always a quarter of the tick count, rounded down (`Inv`). */
  lemma {:induction false} RunKeepsInvariant(s: SessionState, events: seq<Event>)
    requires Inv(s)
    ensures Run(s, events).Some? ==> Inv(Run(s, events).value)
    decreases |events|
  {
    if events != [] && Enabled(s, events[0]) {
      RunKeepsInvariant(Step(s, events[0]), events[1..]);
    }
  }

  // ----- Breath counting -----

  /** The interval firing `n` times, each time when it is due. */
  function Ticks(s: SessionState, n: nat): (t: SessionState)
    requires s.intervalDue.Some?
    ensures t.intervalDue.Some? && t.duration == s.duration
    ensures t.cycleCount == s.cycleCount + n
    decreases n
  {
    if n == 0 then s else Ticks(AfterTick(s, s.intervalDue.value), n - 1)
  }

  /** `n` ticks add `n` to the tick count, keep the invariant (so the breaths are
      a quarter of the ticks), move the next tick `n` periods on and change
      nothing else. */
  lemma {:induction false} TicksCount(s: SessionState, n: nat)
    requires Inv(s) && s.intervalDue.Some?
    ensures var t := Ticks(s, n);
      && Inv(t)
      && t.cycleCount == s.cycleCount + n
      && t.breathCount == (s.cycleCount + n) / 4
      && t.intervalDue == Some(s.intervalDue.value + n * Box.Span(s.duration))
      && t == s.(cycleCount := t.cycleCount, breathCount := t.breathCount, intervalDue := t.intervalDue)
    decreases n
  {
    if n > 0 {
      var s' := AfterTick(s, s.intervalDue.value);
      TicksCount(s', n - 1);
    }
  }

  /** A session started from rest counts its ticks from the click: after `n`
      periods it has `n` ticks and `n / 4` breaths, and the last tick fell
      exactly `n` periods after the click. */
  lemma BreathsFromClick(s: SessionState, click: int, n: nat)
    requires Inv(s) && !s.isRunning && !s.isPaused
    ensures var started := AfterStart(s, click);
      var t := Ticks(started, n);
      && t.cycleCount == n && t.breathCount == n / 4
      && t.intervalDue == Some(click + (n + 1) * Box.Span(s.duration))
  {
    var started := AfterStart(s, click);
    TicksCount(started, n);
  }

  /** With 4-second phases, 16 seconds of running give four ticks and one breath. */
  lemma SixteenSecondsOneBreath(s: SessionState, click: int)
    requires Inv(s) && !s.isRunning && !s.isPaused && s.duration == 4
    ensures var t := Ticks(AfterStart(s, click), 4);
      t.cycleCount == 4 && t.breathCount == 1 && t.intervalDue == Some(click + 20000)
  {
    BreathsFromClick(s, click, 4);
  }

  /** The ticks are not aligned with the phases: the animation is anchored at
      the end of the lead-in, 2.5 s after the click, while the interval counts
      from the click, so the `k`-th tick lands 2.5 s before the end of a phase,
      never on a boundary. */
  lemma TicksMissPhaseBoundaries(s: SessionState, click: int, k: nat)
    requires Inv(s) && !s.isRunning && !s.isPaused && k >= 1
    ensures var started := AfterStart(s, click);
      var anchored := AfterLeadIn(started, click + LeadIn);
      var due := Ticks(anchored, k - 1).intervalDue.value;
      && anchored.startTimeRef == Some(click + LeadIn)
      && due == click + k * Box.Span(s.duration)
      && Box.PhaseTime(Box.CycleTime(due - anchored.startTimeRef.value, s.duration), s.duration)
         == Box.Span(s.duration) - LeadIn
  {
    var started := AfterStart(s, click);
    var anchored := AfterLeadIn(started, click + LeadIn);
    TicksCount(anchored, k - 1);
    var due := Ticks(anchored, k - 1).intervalDue.value;
    assert due == click + k * Box.Span(s.duration) by {
      assert (k - 1) * Box.Span(s.duration) + Box.Span(s.duration) == k * Box.Span(s.duration);
    }
    TickOffset(s.duration, k);
  }

  /** The arithmetic behind the ticks' offset: `k` periods less the lead-in is
      2.5 s short of a phase boundary. */
  lemma TickOffset(duration: int, k: nat)
    requires ValidDuration(duration) && k >= 1
    ensures var elapsed := k * Box.Span(duration) - LeadIn;
      Box.PhaseTime(Box.CycleTime(elapsed, duration), duration) == Box.Span(duration) - LeadIn
  {
    var span := Box.Span(duration);
    var elapsed := k * span - LeadIn;
    var m := Box.CycleLength(duration);
    var j := (k - 1) % 4;
    var q := (k - 1) / 4;
    assert elapsed == q * m + (j * span + (span - LeadIn)) by {
      assert k - 1 == q * 4 + j;
      assert m == 4 * span;
      assert (k - 1) * span == q * m + j * span;
    }
    DivModUnique(elapsed, m, q, j * span + (span - LeadIn));
    var c := Box.CycleTime(elapsed, duration);
    DivModUnique(c, span, j, span - LeadIn);
  }

  // ----- The quirks of the handlers -----

  /** Resuming does not continue the animation: the resumed session shows the
      lead-in cue again, and when the new lead-in ends the animation is anchored
      at that moment, so it restarts from the exhale instead of at the elapsed
      time recorded at the pause. */
  lemma ResumeRestartsAnimation(s: SessionState, now: int, fired: int, later: int)
    requires Inv(s) && s.isRunning && s.isPaused
    requires now + LeadIn <= fired <= later && fired != 0
    ensures var r := AfterStart(s, now);
      && r.isReady && r.effectLeadIn == Some(now + LeadIn)
      && View(r, now) == Box.ReadyCue(Box.RestDot, Decode(GetColors(s.theme).color1))
      && var a := AfterLeadIn(r, fired);
         && a.startTimeRef == Some(fired)
         && View(a, later) == Box.Animation(Box.Animate(later - fired, s.duration, s.theme))
  {
  }

  /** The timeout `handleStart` schedules outlives a stop: after start and stop
      it still fires and anchors `startTime` and `startTimeRef` in a stopped
      session. */
  lemma StaleLeadInAfterStop(s: SessionState, click: int, stop: int, fired: int)
    requires Inv(s) && !s.isRunning && !s.isPaused
    requires click + LeadIn <= fired
    ensures var stopped := AfterStop(AfterStart(s, click), stop);
      && |stopped.startLeadIns| == |s.startLeadIns| + 1
      && stopped.startLeadIns[|s.startLeadIns|] == click + LeadIn
      && var t := AfterStartTimeout(stopped, |s.startLeadIns|, fired);
         && !t.isRunning && t.startTimeRef == Some(fired) && t.startTime == Some(fired)
  {
  }

  /** Pausing during the first lead-in does not keep the box at rest: the pause
      cancels only the effect's timeout, so the one `handleStart` scheduled still
      fires, anchors the animation and the paused session is animated. */
  lemma PauseDuringLeadInAnimates(s: SessionState, click: int, pause: int, fired: int, later: int)
    requires Inv(s) && !s.isRunning && !s.isPaused
    requires click <= pause < click + LeadIn <= fired && fired != 0
    ensures var paused := AfterPause(AfterStart(s, click), pause);
      && paused.effectLeadIn.None?
      && |paused.startLeadIns| == |s.startLeadIns| + 1
      && paused.startLeadIns[|s.startLeadIns|] == click + LeadIn
      && var t := AfterStartTimeout(paused, |s.startLeadIns|, fired);
         && t.isRunning && t.isPaused
         && View(t, later) == Box.Animation(Box.Animate(later - fired, s.duration, s.theme))
  {
  }

  /** Stopping while paused counts the pause: `handlePause` leaves the anchor
      where it was, so the total covers the time spent paused too. */
  lemma StopWhilePausedCountsPause(s: SessionState, anchor: int, pause: int, stop: int)
    requires Inv(s) && s.isRunning && !s.isPaused && s.startTimeRef == Some(anchor)
    ensures AfterStop(AfterPause(s, pause), stop).totalTime == (stop - anchor) / 1000
  {
  }

  /** Stopping during the first lead-in finds no anchor; JavaScript turns the
      `null` into 0, so the total is the clock reading itself in seconds. */
  lemma StopDuringFirstLeadIn(click: int, stop: int)
    ensures AfterStop(AfterStart(Initial(), click), stop).totalTime == stop / 1000
  {
  }

  /** Pausing does not freeze the box: the paused session has no `startTime`, so
      the box goes back to its reset look. */
  lemma PauseResetsBox(s: SessionState, now: int, later: int)
    requires Inv(s) && s.isRunning && !s.isPaused
    ensures View(AfterPause(s, now), later) == Box.Reset(Box.OriginalSize, Box.RestDot, Decode(GetColors(s.theme).color1))
  {
  }

  /** A stop 10 seconds after the anchor with 5-second phases reports 10 seconds. */
  lemma StopExample(s: SessionState, anchor: int)
    requires Inv(s) && s.isRunning && s.duration == 5 && s.startTimeRef == Some(anchor)
    ensures var t := AfterStop(s, anchor + 10000);
      t.totalTime == 10 && t.showSummary && !t.isRunning && t.startTimeRef.None?
  {
  }

  // ----- The component -----

  /** The component's state, refs and timers, updated in place by its handlers
      and timer callbacks. */
  class Session {
    var isRunning: bool
    var isPaused: bool
    var duration: int
    var theme: Theme
    var breathCount: int
    var showSummary: bool
    var totalTime: int
    var startTime: Option<int>
    var isReady: bool
    var startTimeRef: Option<int>
    var pauseTimeRef: Option<int>
    var cycleCountRef: int
    var startLeadIns: seq<int>
    var effectLeadIn: Option<int>
    var intervalDue: Option<int>

    function Model(): SessionState
      reads this
    {
      SessionState(isRunning, isPaused, duration, theme, breathCount, showSummary, totalTime,
                   startTime, isReady, startTimeRef, pauseTimeRef, cycleCountRef,
                   startLeadIns, effectLeadIn, intervalDue)
    }

    ghost predicate Valid()
      reads this
    {
      Inv(Model())
    }

    constructor ()
      ensures Valid() && Model() == Initial()
    {
      isRunning, isPaused, isReady, showSummary := false, false, false, false;
      duration, theme := 4, Default;
      breathCount, totalTime, cycleCountRef := 0, 0, 0;
      startTime, startTimeRef, pauseTimeRef := None, None, None;
      startLeadIns, effectLeadIn, intervalDue := [], None, None;
    }

    /** Runs the effects whose dependencies changed since the handler began. */
    method RunEffects(wasRunning: bool, wasPaused: bool, prevDuration: int, now: int)
      modifies this
      ensures Model() == Commit(old(Model()), wasRunning, wasPaused, prevDuration, now)
    {
      if wasRunning != isRunning || wasPaused != isPaused {
        effectLeadIn := None;
        if isRunning && !isPaused {
          isReady := true;
          effectLeadIn := Some(now + LeadIn);
        } else {
          startTime := None;
          isReady := false;
        }
      }
      if wasRunning != isRunning || wasPaused != isPaused || prevDuration != duration {
        intervalDue := None;
        if isRunning && !isPaused {
          intervalDue := Some(now + duration * 1000);
        }
      }
    }

    method HandleStart(now: int)
      requires Valid()
      modifies this
      ensures Valid() && Model() == AfterStart(old(Model()), now)
    {
      var wasRunning, wasPaused, prevDuration := isRunning, isPaused, duration;
      if isPaused {
        startTime := Some(now - NumOr0(pauseTimeRef));
        startTimeRef := Some(now - NumOr0(pauseTimeRef));
        isPaused := false;
      } else {
        isReady := true;
        startLeadIns := startLeadIns + [now + LeadIn];
        cycleCountRef := 0;
        breathCount := 0;
      }
      isRunning := true;
      showSummary := false;
      RunEffects(wasRunning, wasPaused, prevDuration, now);
    }

    method HandlePause(now: int)
      requires Valid()
      modifies this
      ensures Valid() && Model() == AfterPause(old(Model()), now)
    {
      var wasRunning, wasPaused, prevDuration := isRunning, isPaused, duration;
      pauseTimeRef := Some(now - NumOr0(startTimeRef));
      isPaused := true;
      RunEffects(wasRunning, wasPaused, prevDuration, now);
    }

    method HandleStop(now: int)
      requires Valid()
      modifies this
      ensures Valid() && Model() == AfterStop(old(Model()), now)
    {
      if isRunning || isPaused {
        var wasRunning, wasPaused, prevDuration := isRunning, isPaused, duration;
        isRunning := false;
        isPaused := false;
        totalTime := (now - NumOr0(startTimeRef)) / 1000;
        startTime := None;
        startTimeRef := None;
        showSummary := true;
        RunEffects(wasRunning, wasPaused, prevDuration, now);
      }
    }

    /** The `k`-th pending timeout of `handleStart` fires. */
    method StartTimeoutFired(k: int, now: int)
      requires Valid() && 0 <= k < |startLeadIns| && startLeadIns[k] <= now
      modifies this
      ensures Valid() && Model() == AfterStartTimeout(old(Model()), k, now)
    {
      startLeadIns := startLeadIns[..k] + startLeadIns[k + 1..];
      isReady := false;
      startTime := Some(now);
      startTimeRef := Some(now);
    }

    /** The lead-in effect's timeout fires. */
    method LeadInFired(now: int)
      requires Valid() && effectLeadIn.Some? && effectLeadIn.value <= now
      modifies this
      ensures Valid() && Model() == AfterLeadIn(old(Model()), now)
    {
      effectLeadIn := None;
      isReady := false;
      startTime := Some(now);
      startTimeRef := Some(now);
    }

    /** The breath-counting interval fires. */
    method IntervalTick(now: int)
      requires Valid() && intervalDue.Some? && intervalDue.value <= now
      modifies this
      ensures Valid() && Model() == AfterTick(old(Model()), now)
    {
      cycleCountRef := cycleCountRef + 1;
      if cycleCountRef % 4 == 0 {
        breathCount := breathCount + 1;
      }
      intervalDue := Some(intervalDue.value + duration * 1000);
    }

    method SetDuration(d: int, now: int)
      requires Valid() && ValidDuration(d)
      modifies this
      ensures Valid() && Model() == AfterSetDuration(old(Model()), d, now)
    {
      var wasRunning, wasPaused, prevDuration := isRunning, isPaused, duration;
      duration := d;
      RunEffects(wasRunning, wasPaused, prevDuration, now);
    }

    method SetTheme(t: Theme)
      requires Valid()
      modifies this
      ensures Valid() && Model() == AfterSetTheme(old(Model()), t)
    {
      theme := t;
    }

    method CloseSummary()
      requires Valid()
      modifies this
      ensures Valid() && Model() == AfterCloseSummary(old(Model()))
    {
      showSummary := false;
    }
  }
}
