# Box breathing: a verified model of the animator and the session controller

This project models the two components of the BreathingVisual widget that hold
its logic, and proves properties of the model:

- **The box** (`src/components/Box.js`) draws a 300 x 300 square with a marker.
  For each animation frame, `animate` takes the time elapsed since the anchor and
  works out the phase (Exhale, Hold, Inhale, Hold). It then computes the eased
  progress in the phase, with a 200 ms dwell at each end. From those it places
  the marker on the square's perimeter, sets the box size (300 down to 225 and
  back) and the colour (the theme's two colours, mixed by `interpolateColor`),
  and sets the whole seconds left in the phase. When the box is not animating,
  it shows either the lead-in cue or the reset box.
- **The session controller** (`src/components/BoxBreathing.js`) holds the
  component's state and refs. Its start, pause and stop handlers change them.
  Two effects react to `isRunning`, `isPaused` and `duration`. Its timers are:
  - the lead-in timeouts of 2.5 s, one scheduled by `handleStart` and one by the
    first effect;
  - the breath-counting interval.

Modules:

| file | module | contents |
|---|---|---|
| `js_math.dfy` | `JsMath` | JavaScript's truncated `%`, `Math.round`, `Math.ceil`, `null` coerced to 0, truthiness |
| `box_colors.dfy` | `BoxColors` | `getColors`, hex parsing, `interpolateColor`, and the hex encoder that inverts the parser |
| `box.dfy` | `Box` | `animate`'s arithmetic (`Animate`, `FrameAt`) and the branch the box's effect takes (`Render`) |
| `box_breathing.dfy` | `BoxBreathing` | the session as a value (`SessionState`, with one `After…` function per handler, timer and effect) and the component as a class (`Session`) |

How the model treats time, timers and effects:

- Time is whole milliseconds, passed in as `now` or `timestamp`.
- Progress, sizes and positions are exact reals.
- A pending timer is its due time, kept in the state.
  - The timeouts `handleStart` schedules are a sequence, because nothing ever
    clears them.
  - The effect's timeout and the interval are optional values.
  - A timer firing is an event that may happen at any time at or after the due
    time.
- A handler is followed by the effects whose dependencies changed: the cleanup
  of their previous run, then their body (`Commit`).

Each method of `Session` changes the object's fields in place. It is proved to
leave the state that the matching `After…` function computes, and to keep the
invariant `Inv`.

Lemmas state what the code does, including these behaviours:

- **Resuming does not continue the animation.** `handleStart` moves the anchor
  so that the elapsed time is the one recorded at the pause. But un-pausing
  re-runs the lead-in effect. That shows the lead-in cue again and, 2.5 s later,
  anchors the animation at that moment. So the animation restarts from the
  exhale (`ResumeRestartsAnimation`). Right after a running session pauses, the
  box shows the reset look, not a frozen frame (`PauseResetsBox`).
- **Neither stop nor pause cancels the lead-in timeout of `handleStart`.** That
  timeout still fires after a stop and sets the anchor (`StaleLeadInAfterStop`).
  After a pause during the first lead-in it fires too, and the paused session
  is animated (`PauseDuringLeadInAnimates`).
- **Breaths are counted by an interval, not from the animation's phases.** The
  interval starts at the click, while the animation starts 2.5 s later. So every
  tick lands 2.5 s before a phase boundary (`TicksMissPhaseBoundaries`).
- **A stop during the first lead-in finds no anchor.** JavaScript turns `null`
  into 0, so the reported total is the clock reading itself, in seconds
  (`StopDuringFirstLeadIn`).
- **Stopping while paused counts the pause**, because `handlePause` leaves the
  anchor in place (`StopWhilePausedCountsPause`).

## Model

| member | source | states |
|---|---|---|
| JsMath.Rem | src/components/Box.js:158-165 | JavaScript's remainder by a positive divisor: strictly between -b and b, never negative for a non-negative dividend and never positive for a non-positive one, and differing from the dividend by a multiple of b; together these fix the truncated remainder, and it agrees with Dafny's `%` on a non-negative dividend |
| JsMath.Round | src/components/Box.js:295-297 | `Math.round`: the integer within half a unit of x, halves rounded up |
| JsMath.Ceil | src/components/Box.js:246 | `Math.ceil`: the least integer not below x |
| JsMath.NumOr0 | src/components/BoxBreathing.js:54-80 | the number JavaScript makes of a ref that may be `null` (`null` counts as 0) in `now - pauseTimeRef.current` and `now - startTimeRef.current`; used by the handlers and stated through `AfterStart`, `AfterPause`, `AfterStop` and `StopDuringFirstLeadIn` |
| JsMath.Truthy | src/components/Box.js:154 | the truthiness test on `startTime`: `null` and 0 are falsy; stated through `Box.RenderHandOver` |
| BoxColors.GetColors | src/components/Box.js:119-128 | every theme's two colours are `#` plus six upper-case hex digits |
| BoxColors.PaletteValues | src/components/Box.js:119-128 | the RGB values of the three palettes (orange/blue, green/purple, yellow/red) |
| BoxColors.HexValue | src/components/Box.js:289-294 | a hex digit's value is below 16 |
| BoxColors.ParseHex | src/components/Box.js:289-294 | `parseInt(s, 16)` of n digits is below 16^n |
| BoxColors.Decode | src/components/Box.js:289-294 | the three channel slices of a well-formed colour are bytes |
| BoxColors.MixChannel | src/components/Box.js:295-297 | one channel of the mix: the integer within half a unit of `c1 + factor * (c2 - c1)` |
| BoxColors.InterpolateColor | src/components/Box.js:288-299 | `interpolateColor` as an RGB triple; its properties are stated by `InterpolateEnds` and `InterpolateBetween` |
| BoxColors.HexDigit | src/components/Box.js:289-294 | the formatted digit is upper case and parses back to its value |
| BoxColors.HexByte | src/components/Box.js:289-294 | two digits that parse back to the byte |
| BoxColors.Encode | src/components/Box.js:289-294 | the `#RRGGBB` text of a colour is upper-case hex |
| BoxColors.ParseTwoDigits | src/components/Box.js:289-294 | a two-digit slice is worth 16 times its first digit plus its second |
| BoxColors.HexDigitOfValue | src/components/Box.js:289-294 | formatting undoes parsing on an upper-case digit |
| BoxColors.ByteRoundTrip | src/components/Box.js:289-294 | formatting undoes parsing on an upper-case two-digit slice |
| BoxColors.DecodeEncode | src/components/Box.js:289-294 | decoding the encoded colour gives the colour back |
| BoxColors.EncodeDecode | src/components/Box.js:289-294 | encoding the decoded upper-case colour gives the string back, so decoding loses nothing |
| BoxColors.MixChannelEnds | src/components/Box.js:295-297 | factor 0 gives the first channel, factor 1 the second |
| BoxColors.InterpolateEnds | src/components/Box.js:288-299 | `interpolateColor` at factor 0 is the first colour and at factor 1 the second |
| BoxColors.MixChannelBetween | src/components/Box.js:295-297 | for a factor in [0, 1] the mixed channel stays between the two endpoint channels |
| BoxColors.InterpolateBetween | src/components/Box.js:288-299 | for a factor in [0, 1] every channel of the mix lies between the endpoints' channels, so the mix is a valid colour |
| Box.CycleTime | src/components/Box.js:156-158 | `elapsedTime % totalCycleDuration` with JavaScript's remainder: strictly inside (-cycle, cycle), equal to the mathematical remainder for non-negative elapsed time, never positive for negative, and congruent to the elapsed time |
| Box.PhaseIndex | src/components/Box.js:159-162 | `safePhaseIndex`: strictly between -4 and 4, and non-negative for a non-negative cycle time |
| Box.PhaseTime | src/components/Box.js:160 | `phaseTime`: strictly inside (-span, span), the mathematical remainder for non-negative cycle time, never positive for negative, and congruent to the cycle time |
| Box.Ease | src/components/Box.js:172-182 | `adjustedProgress` written with the source's fractions; its meaning is stated by `EaseReference`, `EaseBounds` and `EaseMonotone` |
| Box.EaseByMs | src/components/Box.js:174-182 | the same easing read off whole milliseconds, the independent reference `EaseReference` compares `Ease` with |
| Box.EaseReference | src/components/Box.js:172-182 | the eased progress, written with the source's fractions, equals the millisecond reading: 0 up to 200 ms, 1 after span - 200 ms, linear between |
| Box.EaseBounds | src/components/Box.js:172-182 | eased progress lies in [0, 1]; it is 0 exactly when at most 200 ms into the phase and 1 exactly when at most 200 ms remain |
| Box.EaseMonotone | src/components/Box.js:172-182 | eased progress never decreases within a phase |
| Box.Marker | src/components/Box.js:164-185 | the marker's position: at progress 0 it is the phase's corner and at progress 1 the next corner; `MarkerOnEdge` and `MarkerContinuous` state the rest |
| Box.Size | src/components/Box.js:187-199 | `currentSize` per phase; its range, holds and continuity are stated by `SizeBounds` and `SizeMonotone` |
| Box.DotAt | src/components/Box.js:206-221 | the marker's `left` and `top`; `DotOnBox` states that its centre is on the scaled box |
| Box.PhaseColor | src/components/Box.js:207-217 | the colour per phase; stated by `ColorContinuous`, `ColorBetween` and `ColorIsRgb` |
| Box.Countdown | src/components/Box.js:246 | the seconds shown: never negative, enough whole seconds to cover the time left in the phase, and one fewer would not cover it |
| Box.FrameAt | src/components/Box.js:159-246 | the frame `animate` draws for a cycle time, or none when the corner guard fails; stated by `FrameWellFormed`, `NegativeElapsed` and `HoldExample` |
| Box.Animate | src/components/Box.js:155-246 | one call of `animate`; stated by `FrameWellFormed`, `FramePeriodic`, `FrameDependsOnCycleTime`, `NegativeElapsed`, `FirstFrameAtRest` and `HoldExample` |
| Box.Render | src/components/Box.js:136-286 | the branch the box's effect takes for its props; stated by `RenderHandOver` |
| Box.PhaseDecomposition | src/components/Box.js:156-162 | for non-negative elapsed time the phase index is in 0..3 and cycle time = index * span + phase time, with phase time in [0, span) |
| Box.FrameDependsOnCycleTime | src/components/Box.js:156-158 | the frame depends only on the elapsed time modulo the cycle length |
| Box.FramePeriodic | src/components/Box.js:156-158 | the frame repeats after every whole number of four-phase cycles |
| Box.NegativeElapsed | src/components/Box.js:156-170 | a frame time before the anchor either fails the corner guard or draws phase 0 with progress 0 |
| Box.MarkerOnEdge | src/components/Box.js:164-185 | for progress in [0, 1] the marker lies on the segment from the phase's corner to the next one, so on the square's perimeter |
| Box.MarkerContinuous | src/components/Box.js:164-165 | each phase's path ends where the next one's begins |
| Box.SizeBounds | src/components/Box.js:187-199 | the size stays in [225, 300]; it is 225 in the first hold and 300 in the second, and it is continuous at every phase boundary |
| Box.SizeMonotone | src/components/Box.js:187-199 | the box shrinks while exhaling and grows while inhaling |
| Box.DotOnBox | src/components/Box.js:206-221 | the marker, scaled by size/300 and moved back 13 px, is centred on the perimeter of the scaled box |
| Box.ColorContinuous | src/components/Box.js:207-217 | the colour is continuous across every phase boundary |
| Box.ColorBetween | src/components/Box.js:207-217 | for progress in [0, 1] every channel of the phase colour lies between the theme colours' channels |
| Box.ColorIsRgb | src/components/Box.js:207-217 | the phase colour is a valid RGB triple |
| Box.CountdownInPhase | src/components/Box.js:246 | within a phase the countdown is duration minus the whole seconds elapsed, so between 1 and duration, and the clamp at 0 never applies |
| Box.CountdownMonotone | src/components/Box.js:246 | the countdown never goes up as the phase time grows |
| Box.FrameWellFormed | src/components/Box.js:155-246 | for non-negative elapsed time a frame is always drawn, with a phase in 0..3, progress in [0, 1], size in [225, 300], a valid colour, a countdown in 1..duration, and the marker on the box |
| Box.FirstFrameAtRest | src/components/Box.js:155-222 | the frame at the anchor puts the marker at the rest position (287, -13), the box at 300 and the colour at the theme's first colour |
| Box.RenderHandOver | src/components/Box.js:136-286 | the lead-in cue, the reset box and the first animation frame agree on the marker and the colour; a falsy anchor gives the reset box |
| Box.HoldExample | src/components/Box.js:155-246 | with 4 s phases, 4200 ms gives the first hold, 200 ms in: progress 0, size 225, the second colour, countdown 4 |
| BoxBreathing.Initial | src/components/BoxBreathing.js:8-22 | the initial state is idle, with no anchor and no pending timer, and keeps the invariant |
| BoxBreathing.Commit | src/components/BoxBreathing.js:24-49 | the effects touch only the cue, `startTime` and the two timers. The lead-in effect runs only when `isRunning` or `isPaused` changed: for a running, unpaused session it shows the cue and schedules the lead-in end at now + 2500, otherwise it hides the cue, clears `startTime` and cancels the timeout. The interval effect runs only when one of those or `duration` changed: it schedules the next tick one period from now for a running, unpaused session and none otherwise |
| BoxBreathing.AfterStart | src/components/BoxBreathing.js:51-69 | start keeps the invariant, runs the session and closes the summary; duration, theme, total and the recorded pause stay. A resume moves the anchor so that now - anchor is the elapsed time recorded at the pause. A fresh start keeps the anchors, schedules a lead-in and resets both counters. Leaving rest or a pause restarts the lead-in and the interval; a start while running unpaused keeps both timers |
| BoxBreathing.AfterPause | src/components/BoxBreathing.js:71-74 | pause keeps the invariant, records now - anchor, keeps the anchor and changes nothing else except what the effects touch; pausing a session that was not paused cancels the lead-in and the interval, hides the cue and clears `startTime`; a second pause only records the elapsed time anew |
| BoxBreathing.AfterStop | src/components/BoxBreathing.js:76-86 | stop does nothing unless running or paused. Otherwise it records the whole seconds since the anchor (or since 0 without one), clears the anchor and `startTime`, opens the summary, hides the cue and ends the effect's timers; the `handleStart` timeouts, the counters, the recorded pause, the duration and the theme stay |
| BoxBreathing.AfterStartTimeout | src/components/BoxBreathing.js:59-63 | the `handleStart` timeout hides the cue and sets both anchors to now, whatever the session's state; exactly that timeout leaves the pending ones, in order, and nothing else changes |
| BoxBreathing.AfterLeadIn | src/components/BoxBreathing.js:27-31 | the effect's timeout hides the cue, sets both anchors to now and is no longer pending; nothing else changes |
| BoxBreathing.AfterTick | src/components/BoxBreathing.js:41-46 | a tick adds one to the tick count, keeps breaths equal to a quarter of the ticks, and schedules the next tick one period later |
| BoxBreathing.AfterSetDuration | src/components/BoxBreathing.js:39-49 | a new duration restarts the interval of a running, unpaused session with the new period and leaves none otherwise; nothing else changes, and choosing the same duration changes nothing |
| BoxBreathing.AfterSetTheme | src/components/BoxBreathing.js:112-114 | choosing a theme changes only the theme |
| BoxBreathing.AfterCloseSummary | src/components/BoxBreathing.js:118-123 | closing the summary changes only its visibility |
| BoxBreathing.LeadInEffect | src/components/BoxBreathing.js:24-37 | the lead-in effect's cleanup and body; stated through `Commit` |
| BoxBreathing.IntervalEffect | src/components/BoxBreathing.js:39-49 | the interval effect's cleanup and body; stated through `Commit` |
| BoxBreathing.LeadInDone | src/components/BoxBreathing.js:27-31 | the body both lead-in timeouts share; stated through `AfterLeadIn` and `AfterStartTimeout` |
| BoxBreathing.View | src/components/BoxBreathing.js:95-102 | the props the session hands the box; stated by `ResumeRestartsAnimation`, `PauseResetsBox` and `PauseDuringLeadInAnimates` |
| BoxBreathing.Step | src/components/BoxBreathing.js:24-122 | one handler, timer or setting event, followed by its effects, keeps the invariant |
| BoxBreathing.Run | src/components/BoxBreathing.js:24-122 | a sequence of events, none when one cannot happen in its turn; stated by `RunKeepsInvariant` |
| BoxBreathing.RunKeepsInvariant | src/components/BoxBreathing.js:24-86 | every sequence of handler, timer and setting events keeps the invariant, which includes breaths being a quarter of the ticks, rounded down |
| BoxBreathing.Ticks | src/components/BoxBreathing.js:41-46 | the interval firing n times when due: it stays pending, the duration stays, and the tick count grows by n |
| BoxBreathing.TicksCount | src/components/BoxBreathing.js:41-46 | n ticks add n to the tick count, keep the invariant, move the next tick n periods on and change nothing else |
| BoxBreathing.BreathsFromClick | src/components/BoxBreathing.js:39-69 | after a fresh start, n periods give n ticks and n/4 breaths |
| BoxBreathing.SixteenSecondsOneBreath | src/components/BoxBreathing.js:41-46 | with 4 s phases, 16 s of running give 4 ticks and 1 breath |
| BoxBreathing.TicksMissPhaseBoundaries | src/components/BoxBreathing.js:27-46 | after a start from rest and the lead-in end at click + 2500, the k-th tick is due at click + k periods, and the animation's phase time there is the span less 2500 ms: the tick is never on a phase boundary |
| BoxBreathing.ResumeRestartsAnimation | src/components/BoxBreathing.js:24-56 | a resume shows the lead-in cue again, and when it ends the animation is anchored at that moment, not at the time recorded at the pause |
| BoxBreathing.StaleLeadInAfterStop | src/components/BoxBreathing.js:59-83 | the `handleStart` timeout survives a stop and still sets the anchors of the stopped session |
| BoxBreathing.PauseDuringLeadInAnimates | src/components/BoxBreathing.js:32-63 | a pause during the first lead-in cancels only the effect's timeout; the `handleStart` timeout still fires and the paused session is animated from that moment |
| BoxBreathing.StopWhilePausedCountsPause | src/components/BoxBreathing.js:71-80 | the total reported after pause then stop covers the paused time |
| BoxBreathing.StopDuringFirstLeadIn | src/components/BoxBreathing.js:51-80 | a stop before the first anchor reports the clock reading itself, in whole seconds |
| BoxBreathing.PauseResetsBox | src/components/BoxBreathing.js:33-36 | right after a running, unpaused session pauses, the box shows the reset look |
| BoxBreathing.StopExample | src/components/BoxBreathing.js:80 | a stop 10 s after the anchor reports 10 s and opens the summary |
| BoxBreathing.Session.constructor | src/components/BoxBreathing.js:8-22 | the new component is in the initial state |
| BoxBreathing.Session.RunEffects | src/components/BoxBreathing.js:24-49 | running the effects in place leaves the state `Commit` computes |
| BoxBreathing.Session.HandleStart | src/components/BoxBreathing.js:51-69 | `handleStart` in place leaves the state `AfterStart` computes and keeps the invariant |
| BoxBreathing.Session.HandlePause | src/components/BoxBreathing.js:71-74 | `handlePause` in place leaves the state `AfterPause` computes and keeps the invariant |
| BoxBreathing.Session.HandleStop | src/components/BoxBreathing.js:76-86 | `handleStop` in place leaves the state `AfterStop` computes and keeps the invariant |
| BoxBreathing.Session.StartTimeoutFired | src/components/BoxBreathing.js:59-63 | the `handleStart` timeout's callback leaves the state `AfterStartTimeout` computes |
| BoxBreathing.Session.LeadInFired | src/components/BoxBreathing.js:27-31 | the effect's timeout callback leaves the state `AfterLeadIn` computes |
| BoxBreathing.Session.IntervalTick | src/components/BoxBreathing.js:41-46 | the interval callback leaves the state `AfterTick` computes and keeps breaths a quarter of the ticks |
| BoxBreathing.Session.SetDuration | src/components/BoxBreathing.js:112 | the duration setter leaves the state `AfterSetDuration` computes |
| BoxBreathing.Session.SetTheme | src/components/BoxBreathing.js:114 | the theme setter leaves the state `AfterSetTheme` computes |
| BoxBreathing.Session.CloseSummary | src/components/BoxBreathing.js:122 | the summary's close callback leaves the state `AfterCloseSummary` computes |

## Left out

- Writes to the page: the box's width, height and border colour, the marker's `left`, `top` and colour, and the phase and countdown text. The model computes the values written, not the writes.
- The `requestAnimationFrame` loop and its cancellation. Each frame is one call of `Animate` at a given timestamp.
- The text fades: the 250 ms phase-text and countdown timeouts, the 2 s ready-text timeout, the opacity transitions, the CSS pulse and the `showInstruction` flag. They change only what is displayed, not the state.
- Colours are RGB triples. The `rgb(r, g, b)` and `#RRGGBB` strings the style receives are not modelled.
- Only the three palettes reach `Decode`, so its input is required to be well-formed hex. `parseInt` of malformed text (`NaN`) is not modelled.
- Floating point: progress, sizes and positions are exact reals. Clock readings are whole milliseconds, although `performance.now()` is fractional.
- The clock, `performance.now()`, is a parameter. The two readings inside one lead-in callback are taken as one instant.
- React's scheduling is collapsed into one step per handler.
  - The effects run right after the handler.
  - The single render in between, where a resumed session is drawn once before the cue returns, is not modelled.
  - Remounting the box on a new `startTime` (`key={startTime}`) is not modelled. A remount resets the box's instruction flag, and it discards the styles written to the page, so border colour, size and marker position return to their defaults until the next write.
- `setDuration(prevDuration => prevDuration)` in `handleStop` sets the same value. It re-runs no effect, so the model has no step for it.
- Mute and music: `isMuted`, `music` and `handleMute` hold no logic.
- `src/components/Controls.js`, `src/components/Summary.js` and `src/App.js` are UI. The only facts the model takes from them are:
  - durations are 4, 5 or 6 (`src/components/Controls.js:59-61`);
  - themes are the three palette names (`src/components/Controls.js:72-74`).
- The enabled and disabled state of the buttons is not modelled. Any handler may run in any state, which covers every order the buttons allow.
- `console.error` in the corner guard: the model keeps only its result, no frame (`None`).
