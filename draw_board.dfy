/**
 * The camera loop's body as it runs: the globals are the fields of a `Board`,
 * and `Step` updates them in place, one phase after another, with the loops
 * over the colour swatches and over the fingertip history. Each method is
 * proved to leave the board in the state the `Draw` functions describe.
 */
module DrawBoard {
  import opened Wrappers
  import opened Geometry
  import opened Draw
  import DrawProperties

  class Board {
    var history: seq<Point>
    var anchor: Option<Point>
    var mode: int
    var thickness: int
    var colorIndex: int
    var color: Color
    var menuVisible: bool
    var menuToggleTime: real
    var gridEnabled: bool
    var canvas: seq<DrawOp>

    /** The globals as one value. */
    function State(): Engine
      reads this
    {
      Engine(history, anchor, mode, thickness, colorIndex, color,
             menuVisible, menuToggleTime, gridEnabled, canvas)
    }

    /** The module's start-up assignments (Draw.py:14-61). */
    constructor ()
      ensures State() == Initial && Valid(State())
    {
      history, anchor, mode, thickness := [], None, 0, DefaultThickness;
      colorIndex, color := 0, Palette[0];
      menuVisible, menuToggleTime, gridEnabled := true, 0.0, true;
      canvas := [];
    }

    /** One frame: `hand` is the first detected hand, if any; `stamp` is the formatted clock. */
    method Step(hand: Option<Hand>, now: real, stamp: string) returns (saved: Option<Snapshot>)
      requires Valid(State())
      modifies this
      ensures Valid(State())
      ensures Frame(State(), saved) == Next(old(State()), hand, now, stamp)
    {
      DrawProperties.NextValid(State(), hand, now, stamp);
      saved := None;
      if hand.None? {
        return;
      }
      var h := hand.value;
      var pinching := Dist2(h.indexTip, h.middleTip) < PinchThreshold * PinchThreshold;
      RecordTip(h.indexTip);
      var at := Stabilize(h.indexTip, history);
      assert at == Aim(old(State()), h);
      ghost var s1 := State();
      if IsFist(h.fingers) && now - menuToggleTime > MenuCooldown {
        menuVisible := !menuVisible;
        menuToggleTime := now;
      }
      assert State() == ToggleMenu(s1, h.fingers, now) == Tracked(old(State()), h, now);
      ghost var s2 := State();
      if menuVisible && h.fingers.index {
        saved := MenuHits(h.indexTip, at, stamp);
      }
      assert Frame(State(), saved) == Menu(s2, h, at, stamp);
      Dispatch(h.fingers, at, pinching);
    }

    /** `pop(0)` when more than five are held, then `append`. */
    method RecordTip(p: Point)
      modifies this
      ensures State() == old(State()).(history := PushHistory(old(history), p))
    {
      if |history| > HistoryCapacity - 1 {
        history := history[1..];
      }
      history := history + [p];
    }

    /** The menu hit-tests, in order; returns the snapshot the save button wrote. */
    method MenuHits(tip: Point, at: Point, stamp: string) returns (saved: Option<Snapshot>)
      modifies this
      ensures Frame(State(), saved) == MenuPhase(old(State()), tip, at, stamp)
    {
      var i := 0;
      while i < |Palette|
        invariant 0 <= i <= |Palette|
        invariant State() == PickColor(old(State()), HitSwatch(tip, i))
      {
        if Dist2(SwatchCenter(i), tip) < SwatchRadius * SwatchRadius {
          colorIndex := i;
          color := Palette[i];
        }
        i := i + 1;
      }
      if Inside(ClearButton, at) {
        canvas := canvas + [Clear];
      }
      if Inside(GridButton, at) {
        gridEnabled := !gridEnabled;
      }
      if OnSlider(at) {
        var span := ThicknessSlider.x2 - ThicknessSlider.x1;
        var t := MinThickness + (at.x - ThicknessSlider.x1) * (MaxThickness - MinThickness) / span;
        thickness := if t < MinThickness then MinThickness else if t > MaxThickness then MaxThickness else t;
      }
      saved := None;
      if Inside(SaveButton, at) {
        saved := Some(Snapshot(SaveName(stamp), canvas));
      }
      if Inside(ModeButton, at) {
        mode := (mode + 1) % ModeCount;
        anchor := None;
      }
    }

    /** The drawing dispatch on the finger pattern and the mode. */
    method Dispatch(f: Fingers, at: Point, pinching: bool)
      modifies this
      ensures State() == DrawPhase(old(State()), f, at, pinching)
    {
      if f.index && f.middle {
        if mode == 0 {
          var actual := if pinching then (if thickness / 2 > 1 then thickness / 2 else 1) else thickness;
          if color == White {
            if |history| > 0 {
              DrawStrokes(EraserThickness);
            }
          } else {
            if |history| > 1 {
              DrawStrokes(actual);
            }
          }
        } else if 1 <= mode <= 3 {
          if anchor == None {
            anchor := Some(at);
          } else if pinching {
            canvas := canvas + [Shape(mode, anchor.value, at, color, thickness)];
            anchor := None;
          }
        }
      } else {
        anchor := None;
      }
    }

    /** One segment per consecutive pair of the history, drawn in order. */
    method DrawStrokes(t: int)
      requires |history| > 0
      modifies this`canvas
      ensures canvas == old(canvas) + Strokes(history, color, t)
    {
      var i := 1;
      while i < |history|
        invariant 1 <= i <= |history|
        invariant canvas == old(canvas) + Strokes(history[..i], color, t)
      {
        assert history[..i + 1][..i] == history[..i];
        canvas := canvas + [Segment(history[i - 1], history[i], color, t)];
        i := i + 1;
      }
      assert history[..i] == history;
    }
  }
}
