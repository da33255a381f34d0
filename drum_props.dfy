/**
 * What the drum loop promises, proved about the `Drums` functions: the speed
 * test is the velocity test, a hand's first frame never strikes, each pad
 * fires on its own conditions with no early exit and no effect on the others,
 * a struck pad is quiet for the cooldown and highlighted for 0.15 seconds,
 * the fingertips are remembered per hand, and the volume stays in range.
 */
module DrumProperties {
  import opened Wrappers
  import opened Geometry
  import opened Drums

  // ---------------------------------------------------------------- the invariant

  lemma InitialValid()
    ensures Valid(Initial)
  {
  }

  lemma StrikeValid(k: Kit, pad: Pad, p: Point, speed2: nat, now: real)
    requires Valid(k)
    ensures Valid(Strike(k, pad, p, speed2, now))
  {
  }

  lemma {:induction false} StrikePadsValid(k: Kit, pads: seq<Pad>, p: Point, speed2: nat, now: real)
    requires Valid(k)
    ensures Valid(StrikePads(k, pads, p, speed2, now))
  {
    if pads != [] {
      StrikePadsValid(k, pads[..|pads| - 1], p, speed2, now);
      StrikeValid(StrikePads(k, pads[..|pads| - 1], p, speed2, now), pads[|pads| - 1], p, speed2, now);
    }
  }

  // ---------------------------------------------------------------- velocity

  /**
   * `calculate_velocity` is 0 without a previous position and the Euclidean
   * distance otherwise; for that real velocity `v`, `v > 20` exactly when
   * the squared speed exceeds 400.
   */
  lemma VelocityTest(prev: Option<Point>, cur: Point, v: real)
    requires prev.None? ==> v == 0.0
    requires prev.Some? ==> v >= 0.0 && v * v == Dist2(prev.value, cur) as real
    ensures v > HitSpeed as real <==> Speed2(prev, cur) > HitSpeed * HitSpeed
  {
    if prev.Some? {
      SqrtCompare(v, Dist2(prev.value, cur), HitSpeed);
    }
  }

  /** A fingertip that did not move, or has no previous position, strikes nothing. */
  lemma {:induction false} SlowStrikesNothing(k: Kit, pads: seq<Pad>, p: Point, speed2: nat, now: real)
    requires speed2 <= HitSpeed * HitSpeed
    ensures StrikePads(k, pads, p, speed2, now) == k
  {
    if pads != [] {
      SlowStrikesNothing(k, pads[..|pads| - 1], p, speed2, now);
    }
  }

  lemma {:induction false} FirstFrameTips(k: Kit, tips: seq<Point>, n: nat, now: real)
    requires n <= |tips| && n <= TipCount
    ensures StrikeTips(k, tips, seq(TipCount, i => None), n, now) == k
  {
    if n > 0 {
      FirstFrameTips(k, tips, n - 1, now);
      SlowStrikesNothing(k, Pads, tips[n - 1], 0, now);
    }
  }

  /** A hand seen for the first time strikes no pad; its fingertips are only remembered. */
  lemma FirstFrameSilent(k: Kit, id: nat, tips: seq<Point>, now: real)
    requires |tips| == TipCount && id !in k.positions
    ensures ProcessHand(k, id, tips, now) == k.(positions := k.positions[id := tips])
  {
    assert Previous(k.positions, id) == seq(TipCount, i => None);
    FirstFrameTips(k, tips, TipCount, now);
  }

  // ---------------------------------------------------------------- pads

  /** A point on a pad's border is not on the pad: containment is strict. */
  lemma PadBorderExcluded(pad: Pad, p: Point)
    requires p.x == pad.x || p.x == pad.x + pad.w || p.y == pad.y || p.y == pad.y + pad.h
    ensures !OnPad(pad, p)
  {
  }

  predicate DistinctNames(pads: seq<Pad>) {
    forall i, j :: 0 <= i < j < |pads| ==> pads[i].name != pads[j].name
  }

  lemma PadNamesDistinct()
    ensures DistinctNames(Pads)
  {
  }

  /** The sounds the pads of `pads` that fire from `k` play, in order. */
  function Fired(k: Kit, pads: seq<Pad>, p: Point, speed2: nat, now: real): seq<Hit> {
    if pads == [] then []
    else
      var last := pads[|pads| - 1];
      Fired(k, pads[..|pads| - 1], p, speed2, now) +
        (if Fires(k, last, p, speed2, now) then [Hit(last.name, last.sound, last.volume, speed2)] else [])
  }

  /**
   * The pad loop tests every pad against the state before it, with no early
   * exit: each pad that fires gets the time and a fresh highlight, every other
   * entry is unchanged, and the sounds of the firing pads are played in order.
   */
  lemma {:induction false} StrikePadsIndependent(k: Kit, pads: seq<Pad>, p: Point, speed2: nat, now: real)
    requires DistinctNames(pads)
    ensures var r := StrikePads(k, pads, p, speed2, now);
      && r.positions == k.positions
      && r.lastHit.Keys == k.lastHit.Keys && r.anim.Keys == k.anim.Keys
      && r.hits == k.hits + Fired(k, pads, p, speed2, now)
      && (forall i :: 0 <= i < |pads| && Fires(k, pads[i], p, speed2, now) ==>
            r.lastHit[pads[i].name] == now &&
            r.anim[pads[i].name] == k.anim[pads[i].name].(active := true, startTime := now))
      && (forall name :: name in k.lastHit && (forall i :: 0 <= i < |pads| && Fires(k, pads[i], p, speed2, now) ==> pads[i].name != name) ==>
            r.lastHit[name] == k.lastHit[name])
      && (forall name :: name in k.anim && (forall i :: 0 <= i < |pads| && Fires(k, pads[i], p, speed2, now) ==> pads[i].name != name) ==>
            r.anim[name] == k.anim[name])
  {
    if pads != [] {
      var init := pads[..|pads| - 1];
      var last := pads[|pads| - 1];
      assert DistinctNames(init);
      StrikePadsIndependent(k, init, p, speed2, now);
      var m := StrikePads(k, init, p, speed2, now);
      // No earlier pad shares the last pad's name, so its entries are still those of `k`.
      assert forall i :: 0 <= i < |init| ==> init[i].name != last.name;
      assert last.name in k.lastHit ==> m.lastHit[last.name] == k.lastHit[last.name];
      assert last.name in k.anim ==> m.anim[last.name] == k.anim[last.name];
      assert Fires(m, last, p, speed2, now) == Fires(k, last, p, speed2, now);
    }
  }

  /** Within one fingertip's pass, a pad fires iff the fingertip is strictly on it, fast enough, and the pad is past its cooldown. */
  lemma PadFiresIff(k: Kit, i: int, p: Point, speed2: nat, now: real)
    requires Valid(k) && 0 <= i < |Pads|
    ensures var r := StrikePads(k, Pads, p, speed2, now);
      var pad := Pads[i];
      if OnPad(pad, p) && speed2 > HitSpeed * HitSpeed && now - k.lastHit[pad.name] > Cooldown then
        r.lastHit[pad.name] == now && r.anim[pad.name].active && r.anim[pad.name].startTime == now
      else
        r.lastHit[pad.name] == k.lastHit[pad.name] && r.anim[pad.name] == k.anim[pad.name]
  {
    PadNamesDistinct();
    StrikePadsIndependent(k, Pads, p, speed2, now);
  }

  // ---------------------------------------------------------------- cooldown and highlight

  /** A pad that fired at `now` cannot fire again until more than 0.2 s later, whatever touches it. */
  lemma StrikeDebounced(k: Kit, pad: Pad, p: Point, speed2: nat, now: real, q: Point, speed2': nat, later: real)
    requires Fires(k, pad, p, speed2, now) && later - now <= Cooldown
    ensures !Fires(Strike(k, pad, p, speed2, now), pad, q, speed2', later)
  {
  }

  /** A struck pad is highlighted exactly while less than 0.15 s have passed since the strike. */
  lemma HighlightAfterStrike(k: Kit, pad: Pad, p: Point, speed2: nat, now: real, t: real)
    requires Valid(k) && pad in Pads && Fires(k, pad, p, speed2, now)
    ensures IsActive(Strike(k, pad, p, speed2, now).anim[pad.name], t) <==> t - now < Flash
  {
  }

  // ---------------------------------------------------------------- fingertips and hands

  lemma {:induction false} StrikeTipsKeepPositions(k: Kit, tips: seq<Point>, prev: seq<Option<Point>>, n: nat, now: real)
    requires n <= |tips| && n <= |prev|
    ensures StrikeTips(k, tips, prev, n, now).positions == k.positions
  {
    if n > 0 {
      StrikeTipsKeepPositions(k, tips, prev, n - 1, now);
      PadNamesDistinct();
      StrikePadsIndependent(StrikeTips(k, tips, prev, n - 1, now), Pads, tips[n - 1], Speed2(prev[n - 1], tips[n - 1]), now);
    }
  }

  /** After a hand is processed, its entry holds exactly its four current fingertips; other hands' entries are kept. */
  lemma HandRemembered(k: Kit, id: nat, tips: seq<Point>, now: real)
    requires |tips| == TipCount
    ensures ProcessHand(k, id, tips, now).positions == k.positions[id := tips]
  {
    StrikeTipsKeepPositions(k, tips, Previous(k.positions, id), TipCount, now);
  }

  /** After a frame, hand `i` of the frame is remembered with its fingertips, and hands beyond the frame keep theirs. */
  lemma {:induction false} HandsRemembered(k: Kit, hands: seq<seq<Point>>, now: real)
    requires forall i :: 0 <= i < |hands| ==> |hands[i]| == TipCount
    ensures var r := ProcessHands(k, hands, now).positions;
      && (forall i :: 0 <= i < |hands| ==> i in r && r[i] == hands[i])
      && (forall id :: id in k.positions && id >= |hands| ==> id in r && r[id] == k.positions[id])
  {
    if hands != [] {
      var n := |hands| - 1;
      HandsRemembered(k, hands[..n], now);
      HandRemembered(ProcessHands(k, hands[..n], now), n, hands[n], now);
    }
  }

  // ---------------------------------------------------------------- volume

  /** The volume factor is clamped to [0.3, 1.0], so a strike plays between 0.3 of the base volume and all of it. */
  lemma VolumeInRange(base: real, velocity: real)
    requires base >= 0.0
    ensures 0.3 <= VolumeFactor(velocity) <= 1.0
    ensures 0.3 * base <= FinalVolume(base, velocity) <= base
    ensures velocity >= 300.0 ==> FinalVolume(base, velocity) == base
    ensures velocity <= 90.0 ==> FinalVolume(base, velocity) == 0.3 * base
  {
    var f := VolumeFactor(velocity);
    assert base * f <= base * 1.0;
    assert base * 0.3 <= base * f;
  }
}
