/**
 * What the drawing loop promises, proved about the `Draw` functions: the
 * bounded smoothing history and its steady state, the exact pinch test, the
 * fist-toggle cooldown, the menu controls (one swatch and one button at a
 * time, mode cycling, the thickness range, clear, grid, save), the
 * anchor/commit protocol of the shape modes, the freehand strokes, and the
 * invariant every frame keeps.
 */
module DrawProperties {
  import opened Wrappers
  import opened Geometry
  import opened Draw

  // ---------------------------------------------------------------- history and stabiliser

  /** The history never holds more than six points, evicts the oldest first, and ends with the new tip. */
  lemma PushHistoryBounded(h: seq<Point>, p: Point)
    requires |h| <= HistoryCapacity
    ensures var r := PushHistory(h, p);
      && |r| <= HistoryCapacity
      && r[|r| - 1] == p
      && (|h| < HistoryCapacity ==> r == h + [p])
      && (|h| == HistoryCapacity ==> r == h[1..] + [p])
  {
  }

  /** `k` frames of the same fingertip `p`. */
  function Feed(h: seq<Point>, p: Point, k: nat): seq<Point> {
    if k == 0 then h else PushHistory(Feed(h, p, k - 1), p)
  }

  /** After `k` frames of `p` the newest `min(k, 6)` entries are `p`, and the history is bounded. */
  lemma {:induction false} FeedTail(h: seq<Point>, p: Point, k: nat)
    requires |h| <= HistoryCapacity
    ensures var r := Feed(h, p, k);
      && |r| <= HistoryCapacity
      && |r| >= (if k < HistoryCapacity then k else HistoryCapacity)
      && forall i :: 0 <= i < |r| && |r| - k <= i ==> r[i] == p
  {
    if k > 0 {
      FeedTail(h, p, k - 1);
      PushHistoryBounded(Feed(h, p, k - 1), p);
    }
  }

  lemma {:induction false} SumsOfConstant(h: seq<Point>, p: Point)
    requires forall i :: 0 <= i < |h| ==> h[i] == p
    ensures SumX(h) == |h| * p.x && SumY(h) == |h| * p.y
  {
    if h != [] {
      SumsOfConstant(h[..|h| - 1], p);
    }
  }

  lemma TruncDivExact(q: int, b: int)
    requires b > 0
    ensures TruncDiv(q * b, b) == q
  {
    TruncDivBetween(q * b, b, q, q);
  }

  /** A history whose entries all equal the current tip stabilises to that tip: no residual lag. */
  lemma StabilizeSteady(h: seq<Point>, p: Point)
    requires forall i :: 0 <= i < |h| ==> h[i] == p
    ensures Stabilize(p, h) == p
  {
    if h != [] {
      var n := |h|;
      SumsOfConstant(h, p);
      assert p.x * n + SumX(h) == p.x * (2 * n);
      assert p.y * n + SumY(h) == p.y * (2 * n);
      TruncDivExact(p.x, 2 * n);
      TruncDivExact(p.y, 2 * n);
    }
  }

  /** Feeding the same fingertip for six frames or more makes the stabilised point equal to it. */
  lemma StabilizeConverges(h: seq<Point>, p: Point, k: nat)
    requires |h| <= HistoryCapacity && k >= HistoryCapacity
    ensures Stabilize(p, Feed(h, p, k)) == p
  {
    FeedTail(h, p, k);
    StabilizeSteady(Feed(h, p, k), p);
  }

  /**
   * Each stabilised coordinate is `int()` of the real blend
   * `cur * (1 - 0.5) + sum * 0.5 / n` the source computes.
   */
  lemma StabilizeIsReal(cur: Point, h: seq<Point>)
    requires h != []
    ensures var s := Stabilize(cur, h);
      && IsTrunc(s.x, cur.x as real * (1.0 - 0.5) + SumX(h) as real * 0.5 / |h| as real)
      && IsTrunc(s.y, cur.y as real * (1.0 - 0.5) + SumY(h) as real * 0.5 / |h| as real)
  {
    var n := |h|;
    BlendIsQuotient(cur.x, SumX(h), n);
    BlendIsQuotient(cur.y, SumY(h), n);
    TruncDivIsReal(cur.x * n + SumX(h), 2 * n);
    TruncDivIsReal(cur.y * n + SumY(h), 2 * n);
  }

  lemma BlendIsQuotient(c: int, sum: int, n: int)
    requires n > 0
    ensures c as real * (1.0 - 0.5) + sum as real * 0.5 / n as real == (c * n + sum) as real / (2 * n) as real
  {
    var nr := n as real;
    assert (c * n + sum) as real == c as real * nr + sum as real;
    assert (2 * n) as real == 2.0 * nr;
    assert (c as real * nr + sum as real) / (2.0 * nr) == c as real * 0.5 + sum as real * 0.5 / nr;
  }

  /** The stabilised point stays inside any box that holds the fingertip and the whole history. */
  lemma StabilizeWithin(cur: Point, h: seq<Point>, lo: Point, hi: Point)
    requires lo.x <= cur.x <= hi.x && lo.y <= cur.y <= hi.y
    requires forall i :: 0 <= i < |h| ==> lo.x <= h[i].x <= hi.x && lo.y <= h[i].y <= hi.y
    ensures var s := Stabilize(cur, h); lo.x <= s.x <= hi.x && lo.y <= s.y <= hi.y
  {
    if h != [] {
      var n := |h|;
      SumsBetween(h, lo, hi);
      BlendWithin(cur.x, SumX(h), n, lo.x, hi.x);
      BlendWithin(cur.y, SumY(h), n, lo.y, hi.y);
    }
  }

  /** One coordinate of the blend stays between bounds that hold the tip and the history's mean. */
  lemma BlendWithin(c: int, sum: int, n: int, lo: int, hi: int)
    requires n > 0 && lo <= c <= hi && n * lo <= sum <= n * hi
    ensures lo <= TruncDiv(c * n + sum, 2 * n) <= hi
  {
    MulMono(lo, c, n);
    MulMono(c, hi, n);
    assert lo * (2 * n) == lo * n + n * lo;
    assert hi * (2 * n) == hi * n + n * hi;
    TruncDivBetween(c * n + sum, 2 * n, lo, hi);
  }

  lemma {:induction false} SumsBetween(h: seq<Point>, lo: Point, hi: Point)
    requires forall i :: 0 <= i < |h| ==> lo.x <= h[i].x <= hi.x && lo.y <= h[i].y <= hi.y
    ensures |h| * lo.x <= SumX(h) <= |h| * hi.x
    ensures |h| * lo.y <= SumY(h) <= |h| * hi.y
  {
    if h != [] {
      SumsBetween(h[..|h| - 1], lo, hi);
    }
  }

  lemma TruncDivBetween(a: int, b: int, lo: int, hi: int)
    requires b > 0 && lo * b <= a <= hi * b
    ensures lo <= TruncDiv(a, b) <= hi
  {
    var q := TruncDiv(a, b);
    if a >= 0 {
      MulCancelLt(lo, q + 1, b);
      MulCancelLe(q, hi, b);
    } else {
      MulCancelLt(q - 1, hi, b);
      MulCancelLe(lo, q, b);
    }
  }

  lemma MulMono(a: int, c: int, n: nat)
    requires a <= c
    ensures a * n <= c * n
  {
    assert c * n - a * n == (c - a) * n;
  }

  lemma MulCancelLe(a: int, c: int, b: int)
    requires b > 0 && a * b <= c * b
    ensures a <= c
  {
    assert (c - a) * b == c * b - a * b;
  }

  lemma MulCancelLt(a: int, c: int, b: int)
    requires b > 0 && a * b < c * b
    ensures a < c
  {
    assert (c - a) * b == c * b - a * b;
  }

  // ---------------------------------------------------------------- pinch

  /** For the real distance `d` between the two fingertips, `d < 30` exactly when the squared test holds. */
  lemma PinchIsDistance(h: Hand, d: real)
    requires d >= 0.0 && d * d == Dist2(h.indexTip, h.middleTip) as real
    ensures IsPinching(h) <==> d < PinchThreshold as real
  {
    SqrtCompare(d, Dist2(h.indexTip, h.middleTip), PinchThreshold);
  }

  // ---------------------------------------------------------------- menu toggle

  /** Only a fist more than a second after the last toggle flips the menu and restarts the cooldown. */
  lemma FistToggle(s: Engine, h: Hand, now: real, stamp: string)
    ensures var r := Next(s, Some(h), now, stamp).state;
      if IsFist(h.fingers) && now - s.menuToggleTime > MenuCooldown then
        r.menuVisible == !s.menuVisible && r.menuToggleTime == now
      else
        r.menuVisible == s.menuVisible && r.menuToggleTime == s.menuToggleTime
  {
  }

  /** No frame without a hand changes anything. */
  lemma NoHandNoChange(s: Engine, now: real, stamp: string)
    ensures Next(s, None, now, stamp) == Frame(s, None)
  {
  }

  // ---------------------------------------------------------------- colour swatches

  lemma SquareBelow400(a: int)
    requires a * a < 400
    ensures -20 < a < 20
  {
    var m := if a < 0 then -a else a;
    assert m * m == a * a;
    assert (20 - m) * (20 + m) == 400 - m * m;
  }

  lemma SquareFrom20(a: int)
    requires a >= 20
    ensures a * a >= 400
  {
    assert a * a - 400 == (a - 20) * (a + 20);
  }

  /** Swatch centres are 50 apart with radius 20, so no fingertip is on two swatches. */
  lemma SwatchesDisjoint(i: int, j: int, p: Point)
    requires 0 <= i < j < |Palette|
    ensures !(OnSwatch(i, p) && OnSwatch(j, p))
  {
    if OnSwatch(i, p) {
      var di := SwatchCenter(i).x - p.x;
      var dj := SwatchCenter(j).x - p.x;
      var e := SwatchCenter(i).y - p.y;
      SquareNonNegative(e);
      SquareNonNegative(di);
      SquareBelow400(di);
      assert dj - di == 50 * (j - i) >= 50;
      SquareFrom20(dj);
      assert Dist2(SwatchCenter(j), p) == dj * dj + e * e;
    }
  }

  /** The colour loop picks the one swatch under the raw fingertip, and keeps the colour if there is none. */
  lemma {:induction false} HitSwatchExact(p: Point, n: nat)
    requires n <= |Palette|
    ensures forall i :: 0 <= i < n && OnSwatch(i, p) ==> HitSwatch(p, n) == Some(i)
    ensures (forall i :: 0 <= i < n ==> !OnSwatch(i, p)) ==> HitSwatch(p, n) == None
  {
    if n > 0 {
      HitSwatchExact(p, n - 1);
      forall i | 0 <= i < n - 1 && OnSwatch(i, p)
        ensures !OnSwatch(n - 1, p)
      {
        SwatchesDisjoint(i, n - 1, p);
      }
    }
  }

  /** When the menu runs, a fingertip on swatch `i` selects `colors[i]`, whatever the stabilised point. */
  lemma SwatchSelectsColor(s: Engine, tip: Point, at: Point, stamp: string, i: int)
    requires 0 <= i < |Palette| && OnSwatch(i, tip)
    ensures var r := MenuPhase(s, tip, at, stamp).state;
      r.colorIndex == i && r.color == Palette[i]
  {
    HitSwatchExact(tip, |Palette|);
    ButtonsDisjoint(at);
  }

  // ---------------------------------------------------------------- buttons

  /** The clear, grid, save and mode buttons lie in disjoint bands, so a point hits at most one. */
  lemma ButtonsDisjoint(p: Point)
    ensures Inside(ClearButton, p) ==> !Inside(GridButton, p) && !Inside(SaveButton, p) && !Inside(ModeButton, p)
    ensures Inside(GridButton, p) ==> !Inside(SaveButton, p) && !Inside(ModeButton, p)
    ensures Inside(SaveButton, p) ==> !Inside(ModeButton, p)
    ensures OnSlider(p) ==> !Inside(ClearButton, p) && !Inside(GridButton, p) && !Inside(SaveButton, p) && !Inside(ModeButton, p)
  {
  }

  /** The menu phase changes nothing unless the menu is visible and the index finger is up. */
  lemma MenuGated(s: Engine, h: Hand, now: real, stamp: string)
    requires !(Tracked(s, h, now).menuVisible && h.fingers.index)
    ensures var f := Next(s, Some(h), now, stamp);
      && f.saved == None
      && f.state == DrawPhase(Tracked(s, h, now), h.fingers, Aim(s, h), IsPinching(h))
      && f.state.colorIndex == s.colorIndex && f.state.color == s.color
      && f.state.gridEnabled == s.gridEnabled
      && f.state.thickness == s.thickness
      && f.state.mode == s.mode
  {
    DrawPhaseKeepsControls(Tracked(s, h, now), h.fingers, Aim(s, h), IsPinching(h));
  }

  /** The drawing dispatch changes only the anchor and the canvas, and only appends to the canvas. */
  lemma DrawPhaseKeepsControls(s: Engine, f: Fingers, at: Point, pinching: bool)
    ensures var r := DrawPhase(s, f, at, pinching);
      && r == s.(anchor := r.anchor, canvas := r.canvas)
      && s.canvas <= r.canvas
  {
  }

  /** A clear-button hit appends a `Clear` and leaves the anchor, mode, thickness and grid alone. */
  lemma ClearKeepsControls(s: Engine, tip: Point, at: Point, stamp: string)
    requires Inside(ClearButton, at)
    ensures var f := MenuPhase(s, tip, at, stamp);
      && f.state.canvas == s.canvas + [Clear]
      && f.state.anchor == s.anchor
      && f.state.mode == s.mode
      && f.state.thickness == s.thickness
      && f.state.gridEnabled == s.gridEnabled
      && f.saved == None
  {
  }

  /** The grid flag flips exactly when the grid button is hit; two hits restore it. */
  lemma GridToggles(s: Engine, tip: Point, at: Point, stamp: string)
    ensures MenuPhase(s, tip, at, stamp).state.gridEnabled == (s.gridEnabled != Inside(GridButton, at))
    ensures var r := MenuPhase(s, tip, at, stamp).state;
      Inside(GridButton, at) ==> MenuPhase(r, tip, at, stamp).state.gridEnabled == s.gridEnabled
  {
  }

  /** A mode-button hit advances the mode modulo four and drops the anchor; otherwise the menu keeps both. */
  lemma ModeButtonCycles(s: Engine, tip: Point, at: Point, stamp: string)
    ensures var r := MenuPhase(s, tip, at, stamp).state;
      if Inside(ModeButton, at) then r.mode == (s.mode + 1) % ModeCount && r.anchor == None
      else r.mode == s.mode && r.anchor == s.anchor
  {
  }

  /** Four mode changes return to the starting mode, and every mode stays in 0..3. */
  lemma ModeCycleReturns(m: int)
    requires 0 <= m < ModeCount
    ensures 0 <= NextMode(m) < ModeCount
    ensures NextMode(NextMode(NextMode(NextMode(m)))) == m
  {
  }

  /** The slider only yields thicknesses in [1, 9]: its clamp never engages and 10 is out of reach. */
  lemma SliderRange(x: int)
    requires ThicknessSlider.x1 < x < ThicknessSlider.x2
    ensures MinThickness <= SliderThickness(x) <= MaxThickness - 1
    ensures SliderThickness(x) == 1 + (x - 50) * 9 / 200
  {
  }

  /** The slider's thickness is `int()` of the real `min + (x - x1) / (x2 - x1) * (max - min)`. */
  lemma SliderIsReal(x: int)
    requires ThicknessSlider.x1 < x < ThicknessSlider.x2
    ensures IsTrunc(SliderThickness(x), 1.0 + ((x - 50) as real / 200.0) * 9.0)
  {
    var m := (x - 50) * 9;
    assert (m / 200) * 200 <= m < (m / 200 + 1) * 200;
    assert ((x - 50) as real / 200.0) * 9.0 == m as real / 200.0;
  }

  /** The slider never lowers the thickness as the finger moves right. */
  lemma SliderMonotone(x: int, y: int)
    requires ThicknessSlider.x1 < x <= y < ThicknessSlider.x2
    ensures SliderThickness(x) <= SliderThickness(y)
  {
    assert (x - 50) * 9 <= (y - 50) * 9;
  }

  /** The brush thickness changes only when the stabilised point is on the slider. */
  lemma ThicknessOnlyFromSlider(s: Engine, h: Hand, now: real, stamp: string)
    requires Next(s, Some(h), now, stamp).state.thickness != s.thickness
    ensures var at := Stabilize(h.indexTip, PushHistory(s.history, h.indexTip));
      ToggleMenu(s, h.fingers, now).menuVisible && h.fingers.index && OnSlider(at)
      && Next(s, Some(h), now, stamp).state.thickness == SliderThickness(at.x)
  {
  }

  /** The save button writes the canvas as it stands to `saved_equations/calculus_<stamp>.png`. */
  lemma SaveWritesCanvas(s: Engine, tip: Point, at: Point, stamp: string)
    ensures var f := MenuPhase(s, tip, at, stamp);
      if Inside(SaveButton, at) then
        f.saved == Some(Snapshot(SaveName(stamp), f.state.canvas))
      else f.saved == None
  {
    ButtonsDisjoint(at);
  }

  /** The timestamp between the fixed prefix and suffix of a save name. */
  function StampOf(name: string): string
    requires |name| >= 29
  {
    name[25..|name| - 4]
  }

  /** A save name determines its timestamp: different timestamps give different files. */
  lemma SaveNameRoundTrip(stamp: string)
    ensures |SaveName(stamp)| == |stamp| + 29
    ensures StampOf(SaveName(stamp)) == stamp
    ensures SaveName(stamp)[..25] == "saved_equations/calculus_"
    ensures SaveName(stamp)[|stamp| + 25..] == ".png"
  {
  }

  // ---------------------------------------------------------------- drawing

  /** Freehand strokes: one segment per consecutive pair of the history, in order. */
  lemma {:induction false} StrokesAt(h: seq<Point>, c: Color, t: int)
    ensures |Strokes(h, c, t)| == (if |h| == 0 then 0 else |h| - 1)
    ensures forall k :: 0 <= k < |h| - 1 ==> Strokes(h, c, t)[k] == Segment(h[k], h[k + 1], c, t)
  {
    if |h| > 1 {
      var h' := h[..|h| - 1];
      StrokesAt(h', c, t);
    }
  }

  /** Each segment ends where the next one starts. */
  predicate IsPath(ops: seq<DrawOp>) {
    forall k {:trigger ops[k]} :: 0 <= k < |ops| - 1 ==>
      ops[k].Segment? && ops[k + 1].Segment? && ops[k].to == ops[k + 1].from
  }

  /** Consecutive freehand segments share an endpoint: the strokes form one path through the history. */
  lemma StrokesArePath(h: seq<Point>, c: Color, t: int)
    requires |h| >= 2
    ensures |Strokes(h, c, t)| == |h| - 1
    ensures Strokes(h, c, t)[0].Segment? && Strokes(h, c, t)[0].from == h[0]
    ensures Strokes(h, c, t)[|h| - 2].Segment? && Strokes(h, c, t)[|h| - 2].to == h[|h| - 1]
    ensures IsPath(Strokes(h, c, t))
  {
    StrokesAt(h, c, t);
    var ops := Strokes(h, c, t);
    forall k {:trigger ops[k]} | 0 <= k < |ops| - 1
      ensures ops[k].Segment? && ops[k + 1].Segment? && ops[k].to == ops[k + 1].from
    {
      assert ops[k] == Segment(h[k], h[k + 1], c, t);
      assert ops[k + 1] == Segment(h[k + 1], h[k + 2], c, t);
    }
  }

  /** The freehand width: 20 for the eraser; otherwise the brush, halved (at least 1) while pinching. */
  lemma StrokeThicknessRange(c: Color, t: int, pinching: bool)
    requires MinThickness <= t <= MaxThickness
    ensures var w := StrokeThickness(c, t, pinching);
      && (c == White ==> w == EraserThickness)
      && (c != White && !pinching ==> w == t)
      && (c != White && pinching ==> 1 <= w <= t && (t >= 2 ==> w == t / 2))
  {
  }

  /** Freehand: index and middle up in mode 0 appends the history's strokes and touches nothing else. */
  lemma FreehandCommits(s: Engine, f: Fingers, at: Point, pinching: bool)
    requires f.index && f.middle && s.mode == 0
    ensures var r := DrawPhase(s, f, at, pinching);
      && r == s.(canvas := r.canvas)
      && |r.canvas| == |s.canvas| + (if |s.history| == 0 then 0 else |s.history| - 1)
      && forall k :: 0 <= k < |s.history| - 1 ==>
           r.canvas[|s.canvas| + k] == Segment(s.history[k], s.history[k + 1], s.color, StrokeThickness(s.color, s.thickness, pinching))
  {
    StrokesAt(s.history, s.color, StrokeThickness(s.color, s.thickness, pinching));
  }

  /** A shape mode without an anchor places it at the stabilised point and draws nothing. */
  lemma ShapeAnchors(s: Engine, f: Fingers, at: Point, pinching: bool)
    requires f.index && f.middle && 1 <= s.mode <= 3 && s.anchor == None
    ensures DrawPhase(s, f, at, pinching) == s.(anchor := Some(at))
  {
  }

  /** With an anchor, a pinch commits exactly one shape from the anchor to the stabilised point and clears the anchor. */
  lemma ShapeCommits(s: Engine, f: Fingers, at: Point)
    requires f.index && f.middle && 1 <= s.mode <= 3 && s.anchor.Some?
    ensures var r := DrawPhase(s, f, at, true);
      && r.anchor == None
      && r.canvas == s.canvas + [Shape(s.mode, s.anchor.value, at, s.color, s.thickness)]
      && r == s.(canvas := r.canvas, anchor := None)
  {
  }

  /** With an anchor and no pinch, only the transient preview changes: the state does not. */
  lemma ShapeWaits(s: Engine, f: Fingers, at: Point)
    requires f.index && f.middle && 1 <= s.mode <= 3 && s.anchor.Some?
    ensures DrawPhase(s, f, at, false) == s
  {
  }

  /** Any finger pattern other than index-and-middle drops the anchor and draws nothing. */
  lemma OtherFingersAbort(s: Engine, f: Fingers, at: Point, pinching: bool)
    requires !(f.index && f.middle)
    ensures DrawPhase(s, f, at, pinching) == s.(anchor := None)
  {
  }

  /** A committed circle is centred on the anchor, with radius the floor of the distance to the stabilised point. */
  lemma CircleRadius(a: Point, b: Point, c: Color, t: int, d: real)
    requires d >= 0.0 && d * d == Dist2(a, b) as real
    ensures var op := Shape(2, a, b, c, t);
      && op.Circle? && op.center == a
      && op.radius as real <= d < op.radius as real + 1.0
  {
    FloorSqrtIsFloor(Dist2(a, b), d);
  }

  /** The shape each mode commits: a line, a circle, or a rectangle with the two points as opposite corners. */
  lemma ShapeKinds(mode: int, a: Point, b: Point, c: Color, t: int)
    requires 1 <= mode <= 3
    ensures var op := Shape(mode, a, b, c, t);
      && (mode == 1 <==> op == Segment(a, b, c, t))
      && (mode == 2 <==> op.Circle?)
      && (mode == 3 <==> op == Rect(a, b, c, t))
      && op.color == c && op.thickness == t
  {
  }

  // ---------------------------------------------------------------- the frame invariant

  /** The start-up values satisfy the invariant. */
  lemma InitialValid()
    ensures Valid(Initial)
  {
  }

  lemma TrackedValid(s: Engine, h: Hand, now: real)
    requires Valid(s)
    ensures Valid(Tracked(s, h, now))
  {
    PushHistoryBounded(s.history, h.indexTip);
  }

  lemma MenuValid(s: Engine, h: Hand, at: Point, stamp: string)
    requires Valid(s)
    ensures Valid(Menu(s, h, at, stamp).state)
  {
    if OnSlider(at) {
      SliderRange(at.x);
    }
    HitSwatchExact(h.indexTip, |Palette|);
  }

  lemma DrawPhaseValid(s: Engine, f: Fingers, at: Point, pinching: bool)
    requires Valid(s)
    ensures Valid(DrawPhase(s, f, at, pinching))
  {
    DrawPhaseKeepsControls(s, f, at, pinching);
  }

  /**
   * Every frame keeps the invariant: at most six history points, mode in 0..3,
   * thickness in [1, 10], a palette colour, and no anchor in freehand mode.
   */
  lemma NextValid(s: Engine, hand: Option<Hand>, now: real, stamp: string)
    requires Valid(s)
    ensures Valid(Next(s, hand, now, stamp).state)
  {
    if hand.Some? {
      var h := hand.value;
      var at := Aim(s, h);
      TrackedValid(s, h, now);
      MenuValid(Tracked(s, h, now), h, at, stamp);
      DrawPhaseValid(Menu(Tracked(s, h, now), h, at, stamp).state, h.fingers, at, IsPinching(h));
    }
  }

  /** One frame's inputs: the first detected hand, if any, the clock, and the formatted clock. */
  datatype Input = Input(hand: Option<Hand>, now: real, stamp: string)

  /** The globals after a sequence of frames. */
  function Run(s: Engine, frames: seq<Input>): Engine {
    if frames == [] then s
    else
      var f := frames[|frames| - 1];
      Next(Run(s, frames[..|frames| - 1]), f.hand, f.now, f.stamp).state
  }

  /** The invariant holds after any number of frames from start-up: in particular the anchor is only ever set in a shape mode. */
  lemma {:induction false} RunValid(frames: seq<Input>)
    ensures Valid(Run(Initial, frames))
  {
    if frames == [] {
      InitialValid();
    } else {
      var f := frames[|frames| - 1];
      RunValid(frames[..|frames| - 1]);
      NextValid(Run(Initial, frames[..|frames| - 1]), f.hand, f.now, f.stamp);
    }
  }
}
