/**
 * The trigger rule of the virtual drum kit (Drums.py): every frame, each
 * fingertip of each hand is tested against every pad; a pad fires when the
 * fingertip is strictly inside it, moved more than 20 pixels since the hand's
 * previous frame, and the pad has been quiet for more than 0.2 seconds.
 * Firing plays the pad's sound and starts its highlight.
 *
 * These functions give the dictionaries the loop updates as one value `Kit`;
 * the class in `DrumRack` runs the loops themselves.
 */
module Drums {
  import opened Wrappers
  import opened Geometry

  /** A pad: its rectangle (x, y, width, height), the sample it plays and its base volume. */
  datatype Pad = Pad(name: string, x: int, y: int, w: int, h: int, sound: string, volume: real)

  /** `drum_areas`, in the dictionary's order. */
  const Pads: seq<Pad> := [
    Pad("crash", 150, 200, 120, 120, "hihat", 0.8),
    Pad("ride", 900, 200, 120, 120, "hihat", 0.6),
    Pad("hihat", 250, 300, 100, 100, "hihat", 1.0),
    Pad("snare", 450, 400, 150, 150, "snare", 1.0),
    Pad("tom1", 650, 300, 120, 120, "snare", 0.7),
    Pad("tom2", 800, 350, 120, 120, "snare", 0.5),
    Pad("kick", 550, 500, 200, 200, "kick", 1.0)
  ]

  /** A fingertip must move faster than this many pixels per frame to strike. */
  const HitSpeed := 20

  /** A pad is quiet for more than this many seconds between two hits. */
  const Cooldown: real := 0.2

  /** How long a struck pad stays highlighted, in seconds. */
  const Flash: real := 0.15

  /** How many fingertips each hand contributes: index, middle, ring and pinky. */
  const TipCount := 4

  /** `animation_state[pad]`. */
  datatype Anim = Anim(active: bool, startTime: real, duration: real)

  /** One call of `play_drum_sound`: the pad, its sample and base volume, and the squared speed of the strike. */
  datatype Hit = Hit(pad: string, sound: string, baseVolume: real, speed2: nat)

  /**
   * The loop's dictionaries: `last_hit_time`, `animation_state`,
   * `hand_positions` (keyed by the hand's index, the `<id>` of `"hand_<id>"`),
   * and the sounds played so far.
   */
  datatype Kit = Kit(
    lastHit: map<string, real>,
    anim: map<string, Anim>,
    positions: map<nat, seq<Point>>,
    hits: seq<Hit>)

  /** Every pad has its last-hit time and its highlight, each highlight lasting `Flash`. */
  predicate Valid(k: Kit) {
    forall i :: 0 <= i < |Pads| ==>
      Pads[i].name in k.lastHit && Pads[i].name in k.anim && k.anim[Pads[i].name].duration == Flash
  }

  /** `{drum: v for drum in pads}`. */
  function PerPad<V>(pads: seq<Pad>, v: V): (m: map<string, V>)
    ensures forall i :: 0 <= i < |pads| ==> pads[i].name in m && m[pads[i].name] == v
  {
    if pads == [] then map[]
    else PerPad(pads[..|pads| - 1], v)[pads[|pads| - 1].name := v]
  }

  /** The dictionaries at start-up: no hit yet, nothing highlighted, no hand seen. */
  const Initial := Kit(PerPad(Pads, 0.0), PerPad(Pads, Anim(false, 0.0, Flash)), map[], [])

  /** The square of `calculate_velocity`: 0 without a previous position. */
  function Speed2(prev: Option<Point>, cur: Point): nat {
    match prev
    case None => 0
    case Some(p) => Dist2(p, cur)
  }

  /** `x < x1 < x + w and y < y1 < y + h`. */
  predicate OnPad(pad: Pad, p: Point) {
    pad.x < p.x < pad.x + pad.w && pad.y < p.y < pad.y + pad.h
  }

  /** Whether a fingertip at `p` moving at squared speed `speed2` fires `pad` at time `now`. */
  predicate Fires(k: Kit, pad: Pad, p: Point, speed2: nat, now: real) {
    && OnPad(pad, p)
    && speed2 > HitSpeed * HitSpeed
    && pad.name in k.lastHit && pad.name in k.anim
    && now - k.lastHit[pad.name] > Cooldown
  }

  /** The body of the pad loop: fire the pad, or leave everything as it is. */
  function Strike(k: Kit, pad: Pad, p: Point, speed2: nat, now: real): (r: Kit)
    ensures r.lastHit.Keys == k.lastHit.Keys && r.anim.Keys == k.anim.Keys && r.positions == k.positions
  {
    if Fires(k, pad, p, speed2, now) then
      k.(lastHit := k.lastHit[pad.name := now],
         anim := k.anim[pad.name := k.anim[pad.name].(active := true, startTime := now)],
         hits := k.hits + [Hit(pad.name, pad.sound, pad.volume, speed2)])
    else k
  }

  /** The pad loop over `pads`, in order, for one fingertip. */
  function StrikePads(k: Kit, pads: seq<Pad>, p: Point, speed2: nat, now: real): (r: Kit)
    ensures r.lastHit.Keys == k.lastHit.Keys && r.anim.Keys == k.anim.Keys && r.positions == k.positions
  {
    if pads == [] then k
    else Strike(StrikePads(k, pads[..|pads| - 1], p, speed2, now), pads[|pads| - 1], p, speed2, now)
  }

  /** `hand_positions.get("hand_<id>", [None] * 4)`, one optional position per fingertip. */
  function Previous(positions: map<nat, seq<Point>>, id: nat): (r: seq<Option<Point>>)
    ensures |r| == TipCount
    ensures id in positions && |positions[id]| == TipCount ==>
      forall i :: 0 <= i < TipCount ==> r[i] == Some(positions[id][i])
    ensures id !in positions ==> forall i :: 0 <= i < TipCount ==> r[i] == None
  {
    seq(TipCount, i requires 0 <= i < TipCount =>
      if id in positions && i < |positions[id]| then Some(positions[id][i]) else None)
  }

  /** The fingertip loop over the first `n` fingertips, each against every pad. */
  function StrikeTips(k: Kit, tips: seq<Point>, prev: seq<Option<Point>>, n: nat, now: real): Kit
    requires n <= |tips| && n <= |prev|
  {
    if n == 0 then k
    else
      var k' := StrikeTips(k, tips, prev, n - 1, now);
      StrikePads(k', Pads, tips[n - 1], Speed2(prev[n - 1], tips[n - 1]), now)
  }

  /** One hand: strike with each fingertip, then remember the fingertips for the next frame. */
  function ProcessHand(k: Kit, id: nat, tips: seq<Point>, now: real): Kit
    requires |tips| == TipCount
  {
    var k' := StrikeTips(k, tips, Previous(k.positions, id), TipCount, now);
    k'.(positions := k'.positions[id := tips])
  }

  /** The hand loop: hand `i` of the frame is `"hand_<i>"`. */
  function ProcessHands(k: Kit, hands: seq<seq<Point>>, now: real): Kit
    requires forall i :: 0 <= i < |hands| ==> |hands[i]| == TipCount
  {
    if hands == [] then k
    else
      var n := |hands| - 1;
      ProcessHand(ProcessHands(k, hands[..n], now), n, hands[n], now)
  }

  /** `min(1.0, max(0.3, velocity / 300))`. */
  function VolumeFactor(velocity: real): real {
    var f := velocity / 300.0;
    if f < 0.3 then 0.3 else if f > 1.0 then 1.0 else f
  }

  /** The volume a strike at `velocity` plays a pad with base volume `base` at. */
  function FinalVolume(base: real, velocity: real): real {
    base * VolumeFactor(velocity)
  }

  /** The highlight test of the drawing loop. */
  predicate IsActive(a: Anim, now: real) {
    a.active && now - a.startTime < a.duration
  }
}
