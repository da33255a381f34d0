/**
 * The per-frame interaction logic of the gesture drawing tool (Draw.py, and its
 * identical copy OpenCV/Draw.py), as functions over a value `Engine` that holds
 * the module-level globals the camera loop updates.
 *
 * One frame is `Next`: record the index fingertip in the smoothing history and
 * stabilise it, toggle the menu on a fist, run the menu hit-tests, then dispatch
 * the drawing gesture. The canvas is the log of drawing operations committed to
 * it; rasterisation belongs to OpenCV and is not modelled.
 */
module Draw {
  import opened Wrappers
  import opened Geometry

  /** A colour as OpenCV takes it: a (blue, green, red) triple. */
  datatype Color = Color(b: int, g: int, r: int)

  /** The palette, in swatch order (`colors`). */
  const Palette: seq<Color> := [
    Color(0, 0, 0), Color(0, 0, 255), Color(0, 255, 0),
    Color(255, 0, 0), Color(0, 255, 255), Color(255, 255, 255)
  ]

  /** Drawing in this colour is erasing: it is the canvas background. */
  const White := Color(255, 255, 255)

  const DefaultThickness := 2
  const EraserThickness := 20
  const MinThickness := 1
  const MaxThickness := 10

  /** The history keeps at most this many fingertips (`len(previous_points) > 5` evicts). */
  const HistoryCapacity := 6

  /** Fingertips closer than this (in pixels) are a pinch. */
  const PinchThreshold := 30

  /** Two menu toggles are more than this many seconds apart. */
  const MenuCooldown: real := 1.0

  /** Colour swatches: circles of this radius, centred on one row. */
  const SwatchRadius := 20
  const SwatchSpacing := 10
  const SwatchStartX := 50
  const SwatchY := 50

  /** `len(drawing_modes)`: Normal (freehand), Straight Line, Circle, Square. */
  const ModeCount := 4

  /** An on-screen control, as the corners (x1, y1) and (x2, y2). */
  datatype Box = Box(x1: int, y1: int, x2: int, y2: int)

  const ClearButton := Box(1130, 50, 1230, 80)
  const GridButton := Box(1130, 100, 1230, 130)
  const ThicknessSlider := Box(50, 100, 250, 120)
  const SaveButton := Box(1130, 150, 1230, 180)
  const ModeButton := Box(1130, 200, 1230, 230)

  /** An operation committed to the persistent canvas. */
  datatype DrawOp =
    | Segment(from: Point, to: Point, color: Color, thickness: int)
    | Circle(center: Point, radius: nat, color: Color, thickness: int)
    | Rect(corner: Point, opposite: Point, color: Color, thickness: int)
    | Clear  // the canvas replaced by an all-white 720x1280 surface

  /** The detector's finger-up vector, thumb to pinky. */
  datatype Fingers = Fingers(thumb: bool, index: bool, middle: bool, ring: bool, pinky: bool)

  /** What the loop reads of the first detected hand: landmarks 8 and 12, and the finger vector. */
  datatype Hand = Hand(indexTip: Point, middleTip: Point, fingers: Fingers)

  /** The globals the loop body reads and writes. */
  datatype Engine = Engine(
    history: seq<Point>,      // previous_points
    anchor: Option<Point>,    // start_point
    mode: int,                // current_mode
    thickness: int,           // brush_thickness
    colorIndex: int,          // current_color_index
    color: Color,             // current_color
    menuVisible: bool,
    menuToggleTime: real,
    gridEnabled: bool,
    canvas: seq<DrawOp>)

  /** A canvas written to a file by the save button. */
  datatype Snapshot = Snapshot(filename: string, canvas: seq<DrawOp>)

  /** The state after one frame, and the canvas saved during it, if any. */
  datatype Frame = Frame(state: Engine, saved: Option<Snapshot>)

  /** The values the globals start with. */
  const Initial := Engine([], None, 0, DefaultThickness, 0, Palette[0], true, 0.0, true, [])

  /** What every frame keeps true of the globals. */
  predicate Valid(s: Engine) {
    && |s.history| <= HistoryCapacity
    && 0 <= s.mode < ModeCount
    && MinThickness <= s.thickness <= MaxThickness
    && 0 <= s.colorIndex < |Palette|
    && s.color == Palette[s.colorIndex]
    && (s.mode == 0 ==> s.anchor == None)
  }

  // ---------------------------------------------------------------- stabiliser

  /** The history after a new fingertip: the oldest entry is dropped when more than five are held. */
  function PushHistory(h: seq<Point>, p: Point): seq<Point> {
    (if |h| > HistoryCapacity - 1 then h[1..] else h) + [p]
  }

  function SumX(h: seq<Point>): int {
    if h == [] then 0 else SumX(h[..|h| - 1]) + h[|h| - 1].x
  }

  function SumY(h: seq<Point>): int {
    if h == [] then 0 else SumY(h[..|h| - 1]) + h[|h| - 1].y
  }

  /**
   * `get_stabilized_point` with smoothing weight 0.5: each coordinate is
   * `int(cur * 0.5 + sum * 0.5 / n)`, which is the exact quotient
   * `(cur * n + sum) / (2 * n)` truncated toward zero.
   */
  function Stabilize(cur: Point, h: seq<Point>): Point {
    if h == [] then cur
    else
      var n := |h|;
      Point(TruncDiv(cur.x * n + SumX(h), 2 * n), TruncDiv(cur.y * n + SumY(h), 2 * n))
  }

  // ---------------------------------------------------------------- gestures

  /** `calculate_distance(index, middle) < 30`, in squared form. */
  predicate IsPinching(h: Hand) {
    Dist2(h.indexTip, h.middleTip) < PinchThreshold * PinchThreshold
  }

  /** `sum(fingers) == 0`. */
  predicate IsFist(f: Fingers) {
    !f.thumb && !f.index && !f.middle && !f.ring && !f.pinky
  }

  /** A fist shows or hides the menu, at most once a second. */
  function ToggleMenu(s: Engine, f: Fingers, now: real): Engine {
    if IsFist(f) && now - s.menuToggleTime > MenuCooldown then
      s.(menuVisible := !s.menuVisible, menuToggleTime := now)
    else s
  }

  // ---------------------------------------------------------------- menu

  function SwatchCenter(i: int): Point {
    Point(SwatchStartX + i * (2 * SwatchRadius + SwatchSpacing), SwatchY)
  }

  predicate OnSwatch(i: int, p: Point) {
    Dist2(SwatchCenter(i), p) < SwatchRadius * SwatchRadius
  }

  /** The swatch the colour loop settles on after its first `n` iterations: the last one hit. */
  function HitSwatch(p: Point, n: nat): (r: Option<nat>)
    requires n <= |Palette|
    ensures r.Some? ==> r.value < n && OnSwatch(r.value, p)
  {
    if n == 0 then None
    else if OnSwatch(n - 1, p) then Some(n - 1)
    else HitSwatch(p, n - 1)
  }

  function PickColor(s: Engine, hit: Option<nat>): Engine
    requires hit.Some? ==> hit.value < |Palette|
  {
    match hit
    case None => s
    case Some(i) => s.(colorIndex := i, color := Palette[i])
  }

  /** Strict containment, as every button test writes it. */
  predicate Inside(b: Box, p: Point) {
    b.x1 < p.x < b.x2 && b.y1 < p.y < b.y2
  }

  /** The slider reacts ten pixels above and below its bar. */
  predicate OnSlider(p: Point) {
    ThicknessSlider.x1 < p.x < ThicknessSlider.x2 &&
    ThicknessSlider.y1 - 10 < p.y < ThicknessSlider.y2 + 10
  }

  function Clamp(lo: int, hi: int, v: int): int {
    if v < lo then lo else if v > hi then hi else v
  }

  /**
   * `int(min + (x - x1) / (x2 - x1) * (max - min))`, clamped. Inside the
   * slider the offset is positive, so truncation is the floor of the exact
   * quotient; the quotient is never an integer there, so float rounding
   * cannot move it across one.
   */
  function SliderThickness(x: int): int
    requires ThicknessSlider.x1 < x < ThicknessSlider.x2
  {
    var span := ThicknessSlider.x2 - ThicknessSlider.x1;
    Clamp(MinThickness, MaxThickness,
          MinThickness + (x - ThicknessSlider.x1) * (MaxThickness - MinThickness) / span)
  }

  /** The file the save button writes, for a `%Y%m%d-%H%M%S` timestamp. */
  function SaveName(stamp: string): string {
    "saved_equations/calculus_" + stamp + ".png"
  }

  function NextMode(m: int): int {
    (m + 1) % ModeCount
  }

  /**
   * The menu hit-tests, in the code's order: colour (against the raw
   * fingertip `tip`), then clear, grid, slider, save and mode (against the
   * stabilised point `at`). Every test runs; none stops the others.
   */
  function MenuPhase(s: Engine, tip: Point, at: Point, stamp: string): Frame {
    var s1 := PickColor(s, HitSwatch(tip, |Palette|));
    var s2 := if Inside(ClearButton, at) then s1.(canvas := s1.canvas + [Clear]) else s1;
    var s3 := if Inside(GridButton, at) then s2.(gridEnabled := !s2.gridEnabled) else s2;
    var s4 := if OnSlider(at) then s3.(thickness := SliderThickness(at.x)) else s3;
    var saved := if Inside(SaveButton, at) then Some(Snapshot(SaveName(stamp), s4.canvas)) else None;
    var s5 := if Inside(ModeButton, at) then s4.(mode := NextMode(s4.mode), anchor := None) else s4;
    Frame(s5, saved)
  }

  // ---------------------------------------------------------------- drawing

  /** The segments between consecutive entries of `h`, oldest first. */
  function Strokes(h: seq<Point>, c: Color, t: int): seq<DrawOp> {
    if |h| <= 1 then []
    else Strokes(h[..|h| - 1], c, t) + [Segment(h[|h| - 2], h[|h| - 1], c, t)]
  }

  /** Freehand width: the eraser is wide; pinching halves the brush, but not below one. */
  function StrokeThickness(c: Color, t: int, pinching: bool): int {
    if c == White then EraserThickness
    else if pinching then (if t / 2 > 1 then t / 2 else 1)
    else t
  }

  /** The shape a pinch commits in mode 1 (line), 2 (circle) or 3 (rectangle). */
  function Shape(mode: int, a: Point, b: Point, c: Color, t: int): DrawOp
    requires 1 <= mode <= 3
  {
    if mode == 1 then Segment(a, b, c, t)
    else if mode == 2 then Circle(a, FloorSqrt(Dist2(a, b)), c, t)
    else Rect(a, b, c, t)
  }

  /**
   * The drawing dispatch. With index and middle fingers up: freehand strokes
   * the whole history; a shape mode places the anchor, or commits the shape on
   * a pinch. Any other finger pattern drops the anchor.
   */
  function DrawPhase(s: Engine, f: Fingers, at: Point, pinching: bool): Engine {
    if f.index && f.middle then
      if s.mode == 0 then
        s.(canvas := s.canvas + Strokes(s.history, s.color, StrokeThickness(s.color, s.thickness, pinching)))
      else if 1 <= s.mode <= 3 then
        match s.anchor
        case None => s.(anchor := Some(at))
        case Some(a) =>
          if pinching then s.(canvas := s.canvas + [Shape(s.mode, a, at, s.color, s.thickness)], anchor := None)
          else s
      else s
    else s.(anchor := None)
  }

  // ---------------------------------------------------------------- one frame

  /** The globals after the history update and the fist toggle, the first two phases of a frame. */
  function Tracked(s: Engine, h: Hand, now: real): Engine {
    ToggleMenu(s.(history := PushHistory(s.history, h.indexTip)), h.fingers, now)
  }

  /** The stabilised fingertip: the raw tip smoothed over the history that already holds it. */
  function Aim(s: Engine, h: Hand): Point {
    Stabilize(h.indexTip, PushHistory(s.history, h.indexTip))
  }

  /** The menu phase, which runs only while the menu is shown and the index finger is up. */
  function Menu(s: Engine, h: Hand, at: Point, stamp: string): Frame {
    if s.menuVisible && h.fingers.index then MenuPhase(s, h.indexTip, at, stamp) else Frame(s, None)
  }

  /** One pass of the loop body. A frame without a hand changes nothing. */
  function Next(s: Engine, hand: Option<Hand>, now: real, stamp: string): Frame {
    match hand
    case None => Frame(s, None)
    case Some(h) =>
      var at := Aim(s, h);
      var m := Menu(Tracked(s, h, now), h, at, stamp);
      Frame(DrawPhase(m.state, h.fingers, at, IsPinching(h)), m.saved)
  }
}
