/** The per-frame computation of the breathing box: from the time elapsed since
    the animation anchor and the phase duration in seconds, the phase
    (Exhale, Hold, Inhale, Hold), the eased progress within it, the marker on the
    square's perimeter, the box size, the colour and the seconds left in the
    phase. Elapsed time is in whole milliseconds; progress and sizes are exact
    reals. The writes to the page's styles are not modelled, only the values
    written. */
module Box {
  import opened JsMath
  import opened BoxColors

  datatype Point = Point(x: real, y: real)

  /** What one call of `animate` draws: `phase` is the (safe) phase index. */
  datatype Frame = Frame(
    phase: int,
    phaseTime: int,
    progress: real,
    marker: Point,
    size: real,
    dot: Point,
    color: Rgb,
    countdown: int)

  /** What the box shows for its current props: the lead-in cue, the running
      animation (`None` once a frame failed the corner guard), or the reset box. */
  datatype Scene =
    | ReadyCue(dot: Point, color: Rgb)
    | Animation(frame: Option<Frame>)
    | Reset(size: real, dot: Point, color: Rgb)

  const OriginalSize: real := 300.0
  const MinSize: real := OriginalSize * 0.75
  /** The dwell at each end of a phase, in milliseconds. */
  const PauseDuration: int := 200
  /** Half the marker's 26-pixel width: the marker is placed by its corner. */
  const DotOffset: real := 13.0
  /** Where the marker rests before the animation starts (`left: 287px; top: -13px`). */
  const RestDot: Point := Point(287.0, -13.0)

  /** The corners A (upper right), B (lower right), C (lower left), D (upper left). */
  const Points: seq<Point> := [Point(300.0, 0.0), Point(300.0, 300.0), Point(0.0, 300.0), Point(0.0, 0.0)]

  /** `points[i]`: undefined outside the four corners. */
  function PointAt(i: int): Option<Point>
  {
    if 0 <= i < |Points| then Some(Points[i]) else None
  }

  // ----- Phase arithmetic -----

  /** The length of one phase in milliseconds. */
  function Span(duration: int): int
  {
    duration * 1000
  }

  /** `totalCycleDuration`: four phases, in milliseconds. */
  function CycleLength(duration: int): int
  {
    duration * 4 * 1000
  }

  /** `elapsedTime % totalCycleDuration`, with JavaScript's remainder. */
  function CycleTime(elapsed: int, duration: int): (c: int)
    requires duration >= 1
    ensures -CycleLength(duration) < c < CycleLength(duration)
    ensures elapsed >= 0 ==> c == elapsed % CycleLength(duration)
    ensures elapsed <= 0 ==> c <= 0
    ensures (elapsed - c) % CycleLength(duration) == 0
  {
    Rem(elapsed, CycleLength(duration))
  }

  /** `safePhaseIndex`: `Math.floor(cycleTime / (duration * 1000)) % 4`. Dafny's
      division by a positive divisor rounds down, as `Math.floor` of the quotient does. */
  function PhaseIndex(cycleTime: int, duration: int): (i: int)
    requires duration >= 1
    ensures -4 < i < 4
    ensures cycleTime >= 0 ==> 0 <= i
  {
    QuotientSign(cycleTime, Span(duration));
    Rem(cycleTime / Span(duration), 4)
  }

  /** `phaseTime`: `cycleTime % (duration * 1000)`, with JavaScript's remainder. */
  function PhaseTime(cycleTime: int, duration: int): (t: int)
    requires duration >= 1
    ensures -Span(duration) < t < Span(duration)
    ensures cycleTime >= 0 ==> t == cycleTime % Span(duration)
    ensures cycleTime <= 0 ==> t <= 0
    ensures (cycleTime - t) % Span(duration) == 0
  {
    Rem(cycleTime, Span(duration))
  }

  // ----- Easing -----

  /** `adjustedProgress`: the raw progress `phaseTime / (duration * 1000)` held at 0
      for the first 200 ms of a phase, at 1 for the last 200 ms, and stretched
      linearly over [0, 1] in between. */
  function Ease(phaseTime: int, duration: int): real
    requires duration >= 1
  {
    var span := Span(duration) as real;
    var progress := phaseTime as real / span;
    var pauseFraction := PauseDuration as real / span;
    if progress < pauseFraction then 0.0
    else if progress > 1.0 - pauseFraction then 1.0
    else (progress - pauseFraction) / (1.0 - 2.0 * pauseFraction)
  }

  /** The same easing read off whole milliseconds: 0 up to 200 ms into the phase,
      1 from 200 ms before its end, a straight line in between. */
  function EaseByMs(phaseTime: int, duration: int): real
    requires duration >= 1
  {
    var span := Span(duration);
    if phaseTime < PauseDuration then 0.0
    else if phaseTime > span - PauseDuration then 1.0
    else (phaseTime - PauseDuration) as real / (span - 2 * PauseDuration) as real
  }

  lemma DivLessIff(a: real, b: real, s: real)
    requires s > 0.0
    ensures a / s < b / s <==> a < b
  {
    assert b / s - a / s == (b - a) / s;
  }

  lemma DivCancel(a: real, b: real, s: real)
    requires s > 0.0 && b > 0.0
    ensures (a / s) / (b / s) == a / b
  {
    var x, y := a / s, b / s;
    assert x * s == a && y * s == b;
    assert y > 0.0;
    assert (x / y) * y == x;
    assert (x / y) * b == (x / y) * y * s;
  }

  /** The fractions of the source and the millisecond thresholds describe the
      same easing. */
  lemma EaseReference(phaseTime: int, duration: int)
    requires duration >= 1
    ensures Ease(phaseTime, duration) == EaseByMs(phaseTime, duration)
  {
    var span := Span(duration) as real;
    var t := phaseTime as real;
    var p := PauseDuration as real;
    DivLessIff(t, p, span);
    assert 1.0 - p / span == (span - p) / span;
    DivLessIff(span - p, t, span);
    if p <= t <= span - p {
      assert t / span - p / span == (t - p) / span;
      assert 1.0 - 2.0 * (p / span) == (span - 2.0 * p) / span;
      DivCancel(t - p, span - 2.0 * p, span);
    }
  }

  /** A fraction whose numerator lies in [0, den] lies in [0, 1], and hits an
      end exactly when the numerator does. */
  lemma UnitFraction(num: real, den: real)
    requires 0.0 <= num <= den && den > 0.0
    ensures 0.0 <= num / den <= 1.0
    ensures num / den == 0.0 <==> num == 0.0
    ensures num / den == 1.0 <==> num == den
  {
    DivLessIff(den, num, den);
    DivLessIff(num, 0.0, den);
    assert den / den == 1.0;
    assert (num / den) * den == num;
  }

  lemma EaseByMsBounds(phaseTime: int, duration: int)
    requires duration >= 1
    ensures 0.0 <= EaseByMs(phaseTime, duration) <= 1.0
    ensures EaseByMs(phaseTime, duration) == 0.0 <==> phaseTime <= PauseDuration
    ensures EaseByMs(phaseTime, duration) == 1.0 <==> phaseTime >= Span(duration) - PauseDuration
  {
    var span := Span(duration);
    if PauseDuration <= phaseTime <= span - PauseDuration {
      UnitFraction((phaseTime - PauseDuration) as real, (span - 2 * PauseDuration) as real);
    }
  }

  /** Eased progress lies in [0, 1]; it is exactly 0 up to and including 200 ms
      into the phase and exactly 1 from 200 ms before its end. */
  lemma EaseBounds(phaseTime: int, duration: int)
    requires duration >= 1
    ensures 0.0 <= Ease(phaseTime, duration) <= 1.0
    ensures Ease(phaseTime, duration) == 0.0 <==> phaseTime <= PauseDuration
    ensures Ease(phaseTime, duration) == 1.0 <==> phaseTime >= Span(duration) - PauseDuration
  {
    EaseReference(phaseTime, duration);
    EaseByMsBounds(phaseTime, duration);
  }

  /** Within one phase eased progress never decreases as time goes on. */
  lemma EaseMonotone(t1: int, t2: int, duration: int)
    requires duration >= 1
    requires t1 <= t2
    ensures Ease(t1, duration) <= Ease(t2, duration)
  {
    EaseReference(t1, duration);
    EaseReference(t2, duration);
    EaseBounds(t1, duration);
    EaseBounds(t2, duration);
    var span := Span(duration);
    if PauseDuration <= t1 && t2 <= span - PauseDuration {
      var den := (span - 2 * PauseDuration) as real;
      DivLessIff((t2 - PauseDuration) as real, (t1 - PauseDuration) as real, den);
    }
  }

  // ----- Marker, size, colour, countdown -----

  /** The point at fraction `t` of the way from `a` to `b`. */
  function Lerp(a: Point, b: Point, t: real): Point
  {
    Point(a.x + (b.x - a.x) * t, a.y + (b.y - a.y) * t)
  }

  /** The marker's position on the 300 x 300 square for a phase and its eased
      progress: it runs from `points[phase]` to `points[(phase + 1) % 4]`. */
  function Marker(phase: int, progress: real): (m: Point)
    requires 0 <= phase < 4
    ensures progress == 0.0 ==> m == Points[phase]
    ensures progress == 1.0 ==> m == Points[(phase + 1) % 4]
  {
    Lerp(Points[phase], Points[Rem(phase + 1, 4)], progress)
  }

  /** `currentSize`: 300 shrinking to 225 while exhaling, 225 while holding,
      225 growing to 300 while inhaling, 300 while holding again. */
  function Size(phase: int, progress: real): real
  {
    if phase == 0 then OriginalSize - (OriginalSize - MinSize) * progress
    else if phase == 1 then MinSize
    else if phase == 2 then MinSize + (OriginalSize - MinSize) * progress
    else OriginalSize
  }

  /** The marker's `left` and `top`: its position scaled by `size / 300`, moved
      by half its width. */
  function DotAt(marker: Point, size: real): Point
  {
    var scale := size / OriginalSize;
    Point(marker.x * scale - DotOffset, marker.y * scale - DotOffset)
  }

  /** The colour of a phase: the first colour mixed into the second while
      exhaling, the second held, mixed back while inhaling, the first held. */
  function PhaseColor(phase: int, progress: real, palette: Palette): Rgb
    requires WellFormedHex(palette.color1) && WellFormedHex(palette.color2)
  {
    if phase == 0 then InterpolateColor(palette.color1, palette.color2, progress)
    else if phase == 1 then Decode(palette.color2)
    else if phase == 2 then InterpolateColor(palette.color2, palette.color1, progress)
    else Decode(palette.color1)
  }

  /** The seconds shown: `Math.max(0, Math.ceil((duration * 1000 - phaseTime) / 1000))`. */
  function Countdown(phaseTime: int, duration: int): (n: int)
    ensures n >= 0
    ensures n as real * 1000.0 >= (Span(duration) - phaseTime) as real
    ensures n > 0 ==> (n - 1) as real * 1000.0 < (Span(duration) - phaseTime) as real
  {
    var c := Ceil((Span(duration) - phaseTime) as real / 1000.0);
    if c < 0 then 0 else c
  }

  /** What `animate` computes from `cycleTime`: `None` when a corner index falls
      outside the four corners, which ends the animation loop. */
  function FrameAt(cycleTime: int, duration: int, theme: Theme): Option<Frame>
    requires duration >= 1
  {
    var phaseTime := PhaseTime(cycleTime, duration);
    var safePhaseIndex := PhaseIndex(cycleTime, duration);
    var startPoint := PointAt(safePhaseIndex);
    var endPoint := PointAt(Rem(safePhaseIndex + 1, 4));
    if startPoint.None? || endPoint.None? then None
    else
      var progress := Ease(phaseTime, duration);
      var marker := Marker(safePhaseIndex, progress);
      var size := Size(safePhaseIndex, progress);
      Some(Frame(safePhaseIndex, phaseTime, progress, marker, size, DotAt(marker, size),
                 PhaseColor(safePhaseIndex, progress, GetColors(theme)),
                 Countdown(phaseTime, duration)))
  }

  /** One call of `animate` at `elapsed` milliseconds past the anchor. */
  function Animate(elapsed: int, duration: int, theme: Theme): Option<Frame>
    requires duration >= 1
  {
    FrameAt(CycleTime(elapsed, duration), duration, theme)
  }

  /** The branch the box's effect takes for its props, `timestamp` standing for the
      animation frame's time: the lead-in cue while `isReady`, the animation when
      running with a truthy `startTime`, the reset box otherwise. */
  function Render(isRunning: bool, duration: int, theme: Theme, startTime: Option<int>,
                  isReady: bool, timestamp: int): Scene
    requires duration >= 1
  {
    var color1 := Decode(GetColors(theme).color1);
    if isReady then ReadyCue(RestDot, color1)
    else if isRunning && Truthy(startTime) then Animation(Animate(timestamp - startTime.value, duration, theme))
    else Reset(OriginalSize, RestDot, color1)
  }

  // ----- Properties of the phase arithmetic -----

  /** For a non-negative elapsed time the phase index lies in 0..3 and the phase
      time in [0, duration * 1000), and together they decompose the position in
      the cycle: `elapsed mod cycle == phase * span + phaseTime`. */
  lemma PhaseDecomposition(elapsed: int, duration: int)
    requires elapsed >= 0 && duration >= 1
    ensures var c := CycleTime(elapsed, duration);
      && c == elapsed % CycleLength(duration)
      && 0 <= PhaseIndex(c, duration) <= 3
      && 0 <= PhaseTime(c, duration) < Span(duration)
      && c == PhaseIndex(c, duration) * Span(duration) + PhaseTime(c, duration)
  {
    var c, s := CycleTime(elapsed, duration), Span(duration);
    assert 0 <= c < 4 * s;
    var i := if c < s then 0 else if c < 2 * s then 1 else if c < 3 * s then 2 else 3;
    DivModUnique(c, s, i, c - i * s);
  }

  /** The whole frame depends only on the elapsed time modulo the cycle length. */
  lemma FrameDependsOnCycleTime(elapsed: int, duration: int, theme: Theme)
    requires elapsed >= 0 && duration >= 1
    ensures Animate(elapsed, duration, theme) == Animate(elapsed % CycleLength(duration), duration, theme)
  {
    var m := CycleLength(duration);
    DivModUnique(elapsed % m, m, 0, elapsed % m);
  }

  /** The frame repeats every full cycle of four phases. */
  lemma FramePeriodic(elapsed: int, k: nat, duration: int, theme: Theme)
    requires elapsed >= 0 && duration >= 1
    ensures Animate(elapsed + k * CycleLength(duration), duration, theme) == Animate(elapsed, duration, theme)
  {
    var m := CycleLength(duration);
    var q := elapsed / m;
    assert elapsed == q * m + elapsed % m;
    assert (q + k) * m == q * m + k * m;
    assert k * m >= 0 by { MulNonNegative(k, m); }
    DivModUnique(elapsed + k * m, m, q + k, elapsed % m);
    assert CycleTime(elapsed + k * m, duration) == CycleTime(elapsed, duration);
  }

  /** A negative elapsed time (a frame time before the anchor) either fails the
      corner guard, which ends the animation, or draws the start of the exhale:
      JavaScript's remainder leaves a negative phase index, which only the
      remainders 0 and -0 turn into a valid corner. */
  lemma NegativeElapsed(elapsed: int, duration: int, theme: Theme)
    requires elapsed < 0 && duration >= 1
    ensures var f := Animate(elapsed, duration, theme);
      f.None? || (f.value.phase == 0 && f.value.progress == 0.0)
  {
    var c, s := CycleTime(elapsed, duration), Span(duration);
    assert -4 * s < c <= 0;
    var i := if c == 0 then 0 else if c >= -s then -1 else if c >= -2 * s then -2 else if c >= -3 * s then -3 else -4;
    if c != 0 {
      var r := c - i * s;
      if r == s {
        DivModUnique(c, s, i + 1, 0);
      } else {
        DivModUnique(c, s, i, r);
      }
    }
    var t := PhaseTime(c, duration);
    assert t <= 0;
    EaseBounds(t, duration);
  }

  // ----- Properties of the marker -----

  predicate Between(v: real, a: real, b: real)
  {
    (a <= v <= b) || (b <= v <= a)
  }

  /** On the perimeter of the square [0, side] x [0, side]. */
  predicate OnSquare(p: Point, side: real)
  {
    && 0.0 <= p.x <= side && 0.0 <= p.y <= side
    && (p.x == 0.0 || p.x == side || p.y == 0.0 || p.y == side)
  }

  /** For progress in [0, 1] the marker lies on the segment from the phase's
      start corner to the next corner, hence on the square's perimeter; it sits
      on the start corner at progress 0 and on the end corner at progress 1. */
  lemma MarkerOnEdge(phase: int, progress: real)
    requires 0 <= phase < 4 && 0.0 <= progress <= 1.0
    ensures var m, a, b := Marker(phase, progress), Points[phase], Points[(phase + 1) % 4];
      && Between(m.x, a.x, b.x) && Between(m.y, a.y, b.y)
      && OnSquare(m, OriginalSize)
      && (progress == 0.0 ==> m == a)
      && (progress == 1.0 ==> m == b)
  {
    assert 0.0 <= 300.0 * progress <= 300.0;
    if phase == 0 {
      assert Marker(phase, progress) == Point(300.0, 300.0 * progress);
    } else if phase == 1 {
      assert Marker(phase, progress) == Point(300.0 - 300.0 * progress, 300.0);
    } else if phase == 2 {
      assert Marker(phase, progress) == Point(0.0, 300.0 - 300.0 * progress);
    } else {
      assert Marker(phase, progress) == Point(300.0 * progress, 0.0);
    }
  }

  /** The end of one phase's path is the start of the next one's: the marker does
      not jump between phases. */
  lemma MarkerContinuous(phase: int)
    requires 0 <= phase < 4
    ensures Marker(phase, 1.0) == Marker((phase + 1) % 4, 0.0)
  {
  }

  // ----- Properties of the size -----

  /** The box size never leaves [225, 300] for progress in [0, 1]; it is exactly
      225 while holding after the exhale and exactly 300 while holding after the
      inhale; the exhale ends and the inhale starts at 225, and the inhale ends
      and the exhale starts at 300, so the size does not jump between phases. */
  lemma SizeBounds(phase: int, progress: real)
    requires 0 <= phase < 4 && 0.0 <= progress <= 1.0
    ensures MinSize <= Size(phase, progress) <= OriginalSize
    ensures phase == 1 ==> Size(phase, progress) == MinSize
    ensures phase == 3 ==> Size(phase, progress) == OriginalSize
    ensures Size(0, 1.0) == MinSize == Size(2, 0.0)
    ensures Size(2, 1.0) == OriginalSize == Size(0, 0.0)
  {
  }

  /** The size shrinks while exhaling and grows while inhaling. */
  lemma SizeMonotone(p1: real, p2: real)
    requires p1 <= p2
    ensures Size(0, p2) <= Size(0, p1)
    ensures Size(2, p1) <= Size(2, p2)
  {
  }

  /** The marker drawn on the scaled box: for a marker on the 300 x 300 square
      its centre (`left + 13`, `top + 13`) lies on the perimeter of the box of
      the current size. */
  lemma DotOnBox(m: Point, size: real)
    requires OnSquare(m, OriginalSize) && size > 0.0
    ensures var d := DotAt(m, size);
      OnSquare(Point(d.x + DotOffset, d.y + DotOffset), size)
  {
    var k := size / OriginalSize;
    ScaledOnSquare(m, OriginalSize, k);
    var d := DotAt(m, size);
    assert Point(d.x + DotOffset, d.y + DotOffset) == Point(m.x * k, m.y * k);
    assert OriginalSize * k == size;
  }

  /** Scaling a point on a square's perimeter keeps it on the scaled square's. */
  lemma ScaledOnSquare(m: Point, side: real, k: real)
    requires OnSquare(m, side) && k > 0.0
    ensures OnSquare(Point(m.x * k, m.y * k), side * k)
  {
    assert (side - m.x) * k >= 0.0 && m.x * k >= 0.0;
    assert (side - m.y) * k >= 0.0 && m.y * k >= 0.0;
  }

  // ----- Properties of the colour -----

  /** Colour is continuous across every phase boundary: the exhale ends on the
      second colour that the first hold shows, the inhale starts on it, the
      inhale ends on the first colour that the second hold shows, and the exhale
      starts on it. */
  lemma ColorContinuous(palette: Palette, progress: real)
    requires WellFormedHex(palette.color1) && WellFormedHex(palette.color2)
    ensures PhaseColor(0, 1.0, palette) == PhaseColor(1, progress, palette) == PhaseColor(2, 0.0, palette)
    ensures PhaseColor(2, 1.0, palette) == PhaseColor(3, progress, palette) == PhaseColor(0, 0.0, palette)
  {
    InterpolateEnds(palette.color1, palette.color2);
    InterpolateEnds(palette.color2, palette.color1);
  }

  /** For progress in [0, 1] every channel of the phase colour lies between the
      theme's two colours. */
  lemma ColorBetween(phase: int, progress: real, palette: Palette)
    requires WellFormedHex(palette.color1) && WellFormedHex(palette.color2)
    requires 0.0 <= progress <= 1.0
    ensures var c, c1, c2 := PhaseColor(phase, progress, palette), Decode(palette.color1), Decode(palette.color2);
      && Min(c1.r, c2.r) <= c.r <= Max(c1.r, c2.r)
      && Min(c1.g, c2.g) <= c.g <= Max(c1.g, c2.g)
      && Min(c1.b, c2.b) <= c.b <= Max(c1.b, c2.b)
  {
    InterpolateBetween(palette.color1, palette.color2, progress);
    InterpolateBetween(palette.color2, palette.color1, progress);
  }

  // ----- Properties of the countdown -----

  /** Within a phase the countdown is the whole seconds left, rounded up:
      `duration - floor(phaseTime / 1000)`, so it lies in [1, duration] and the
      clamp at 0 never binds. */
  lemma CountdownInPhase(phaseTime: int, duration: int)
    requires duration >= 1 && 0 <= phaseTime < Span(duration)
    ensures Countdown(phaseTime, duration) == duration - phaseTime / 1000
    ensures 1 <= Countdown(phaseTime, duration) <= duration
    ensures Ceil((Span(duration) - phaseTime) as real / 1000.0) > 0
  {
    var q, r := phaseTime / 1000, phaseTime % 1000;
    var v := (Span(duration) - phaseTime) as real / 1000.0;
    assert v == (duration - q) as real - r as real / 1000.0;
    assert q < duration;
  }

  /** The countdown never goes up as the phase time grows. */
  lemma CountdownMonotone(t1: int, t2: int, duration: int)
    requires t1 <= t2
    ensures Countdown(t2, duration) <= Countdown(t1, duration)
  {
    var v1 := (Span(duration) - t1) as real / 1000.0;
    var v2 := (Span(duration) - t2) as real / 1000.0;
    assert v2 <= v1;
  }

  // ----- The whole frame -----

  /** A frame whose phase index is a corner is drawn from the parts above. */
  lemma FrameParts(cycleTime: int, duration: int, theme: Theme)
    requires duration >= 1 && 0 <= PhaseIndex(cycleTime, duration) < 4
    ensures var phase, t := PhaseIndex(cycleTime, duration), PhaseTime(cycleTime, duration);
      var progress, size := Ease(t, duration), Size(phase, Ease(t, duration));
      var m := Marker(phase, progress);
      FrameAt(cycleTime, duration, theme) == Some(Frame(
        phase, t, progress, m, size, DotAt(m, size),
        PhaseColor(phase, progress, GetColors(theme)), Countdown(t, duration)))
  {
  }

  /** For a non-negative elapsed time a frame is always drawn, its phase and
      phase time are those of the decomposition, progress lies in [0, 1], the
      size in [225, 300], the colour is a valid RGB triple, the countdown in
      [1, duration], and the marker's centre is on the perimeter of the box. */
  lemma FrameWellFormed(elapsed: int, duration: int, theme: Theme)
    requires elapsed >= 0 && duration >= 1
    ensures Animate(elapsed, duration, theme).Some?
    ensures var f, c := Animate(elapsed, duration, theme).value, CycleTime(elapsed, duration);
      && f.phase == PhaseIndex(c, duration)
      && f.phaseTime == PhaseTime(c, duration)
      && 0.0 <= f.progress <= 1.0
      && MinSize <= f.size <= OriginalSize
      && IsRgb(f.color)
      && 1 <= f.countdown <= duration
      && OnSquare(Point(f.dot.x + DotOffset, f.dot.y + DotOffset), f.size)
  {
    PhaseDecomposition(elapsed, duration);
    var c := CycleTime(elapsed, duration);
    var phase, t := PhaseIndex(c, duration), PhaseTime(c, duration);
    FrameParts(c, duration, theme);
    var f := Animate(elapsed, duration, theme).value;
    var progress := Ease(t, duration);
    var palette := GetColors(theme);
    assert f.progress == progress;
    assert f.size == Size(phase, progress);
    assert f.dot == DotAt(Marker(phase, progress), f.size);
    assert f.color == PhaseColor(phase, progress, palette);
    assert f.countdown == Countdown(t, duration);
    EaseBounds(t, duration);
    SizeBounds(phase, progress);
    CountdownInPhase(t, duration);
    MarkerOnEdge(phase, progress);
    DotOnBox(Marker(phase, progress), f.size);
    ColorIsRgb(phase, progress, palette);
  }

  lemma ColorIsRgb(phase: int, progress: real, palette: Palette)
    requires WellFormedHex(palette.color1) && WellFormedHex(palette.color2)
    requires 0.0 <= progress <= 1.0
    ensures IsRgb(PhaseColor(phase, progress, palette))
  {
    InterpolateBetween(palette.color1, palette.color2, progress);
    InterpolateBetween(palette.color2, palette.color1, progress);
  }

  /** The first frame of the animation draws what the lead-in cue and the reset
      box show: the marker at the upper right corner, the full-size box and the
      theme's first colour. */
  lemma FirstFrameAtRest(duration: int, theme: Theme)
    requires duration >= 1
    ensures var f := Animate(0, duration, theme);
      && f.Some? && f.value.phase == 0 && f.value.progress == 0.0
      && f.value.dot == RestDot && f.value.size == OriginalSize
      && f.value.color == Decode(GetColors(theme).color1)
  {
    PhaseDecomposition(0, duration);
    FrameParts(0, duration, theme);
    EaseBounds(0, duration);
    var palette := GetColors(theme);
    InterpolateEnds(palette.color1, palette.color2);
  }

  /** The three looks of the box agree where they meet: the lead-in cue, the
      reset box and the animation's frame at its anchor all put the marker at
      rest in the theme's first colour, so the hand-over from cue to animation
      does not jump. A falsy anchor (`null` or 0) is drawn as the reset box. */
  lemma RenderHandOver(duration: int, theme: Theme, anchor: int, timestamp: int)
    requires duration >= 1
    ensures var color1 := Decode(GetColors(theme).color1);
      && Render(true, duration, theme, Some(anchor), true, timestamp) == ReadyCue(RestDot, color1)
      && (anchor != 0 ==>
            var f := Render(true, duration, theme, Some(anchor), false, anchor);
            f.Animation? && f.frame.Some? && f.frame.value.dot == RestDot && f.frame.value.color == color1)
      && Render(true, duration, theme, Some(0), false, timestamp) == Reset(OriginalSize, RestDot, color1)
      && Render(false, duration, theme, Some(anchor), false, timestamp) == Reset(OriginalSize, RestDot, color1)
  {
    FirstFrameAtRest(duration, theme);
  }

  /** With 4-second phases, 4200 ms after the anchor is 200 ms into the first
      hold: progress is still 0, the box is at 225, the colour is the theme's
      second colour and the countdown shows 4. */
  lemma HoldExample(theme: Theme)
    ensures Animate(4200, 4, theme).Some?
    ensures var f := Animate(4200, 4, theme).value;
      && f.phase == 1 && f.phaseTime == 200
      && f.progress == 0.0 && f.size == MinSize
      && f.color == Decode(GetColors(theme).color2)
      && f.countdown == 4
  {
    DivModUnique(4200, 4000, 1, 200);
    PhaseDecomposition(4200, 4);
    assert CycleTime(4200, 4) == 4200;
    assert PhaseIndex(4200, 4) == 1 && PhaseTime(4200, 4) == 200;
    FrameParts(4200, 4, theme);
    var f := Animate(4200, 4, theme).value;
    assert f.phase == 1 && f.phaseTime == 200;
    assert f.progress == Ease(200, 4) == 0.0 by { EaseBounds(200, 4); }
    assert f.size == Size(1, 0.0);
    assert f.color == PhaseColor(1, 0.0, GetColors(theme));
    assert f.countdown == Countdown(200, 4) == 4 by { CountdownInPhase(200, 4); }
  }
}
