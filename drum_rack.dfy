/**
 * The drum loop as it runs: the dictionaries are fields of a `DrumKit`, and
 * `ProcessFrame` walks the hands, each hand's four fingertips, and every pad
 * for each fingertip, updating the dictionaries in place. It is proved to
 * leave the kit in the state `Drums.ProcessHands` describes.
 */
module DrumRack {
  import opened Wrappers
  import opened Geometry
  import opened Drums
  import DrumProperties

  class DrumKit {
    var lastHit: map<string, real>
    var anim: map<string, Anim>
    var positions: map<nat, seq<Point>>
    var hits: seq<Hit>

    function State(): Kit
      reads this
    {
      Kit(lastHit, anim, positions, hits)
    }

    /** The dictionaries as Drums.py:46-52 creates them. */
    constructor ()
      ensures State() == Initial && Valid(State())
    {
      lastHit := PerPad(Pads, 0.0);
      anim := PerPad(Pads, Anim(false, 0.0, Flash));
      positions := map[];
      hits := [];
      new;
      DrumProperties.InitialValid();
    }

    /** One frame: `hands[i]` holds the four fingertips of the i-th detected hand. */
    method ProcessFrame(hands: seq<seq<Point>>, now: real)
      requires Valid(State())
      requires forall i :: 0 <= i < |hands| ==> |hands[i]| == TipCount
      modifies this
      ensures Valid(State())
      ensures State() == ProcessHands(old(State()), hands, now)
    {
      var id := 0;
      while id < |hands|
        invariant 0 <= id <= |hands|
        invariant Valid(State())
        invariant State() == ProcessHands(old(State()), hands[..id], now)
      {
        assert hands[..id + 1][..id] == hands[..id];
        ProcessHandTips(id, hands[id], now);
        id := id + 1;
      }
      assert hands[..id] == hands;
    }

    /** Strike with each fingertip of hand `id`, then store the fingertips for the next frame. */
    method ProcessHandTips(id: nat, tips: seq<Point>, now: real)
      requires Valid(State()) && |tips| == TipCount
      modifies this
      ensures Valid(State())
      ensures State() == ProcessHand(old(State()), id, tips, now)
    {
      var prev := Previous(positions, id);
      var i := 0;
      while i < |tips|
        invariant 0 <= i <= |tips|
        invariant Valid(State())
        invariant State() == StrikeTips(old(State()), tips, prev, i, now)
      {
        StrikeWithTip(tips[i], Speed2(prev[i], tips[i]), now);
        i := i + 1;
      }
      positions := positions[id := tips];
    }

    /** The pad loop for one fingertip moving at squared speed `speed2`: every pad is tested. */
    method StrikeWithTip(p: Point, speed2: nat, now: real)
      requires Valid(State())
      modifies this
      ensures Valid(State())
      ensures State() == StrikePads(old(State()), Pads, p, speed2, now)
    {
      var j := 0;
      while j < |Pads|
        invariant 0 <= j <= |Pads|
        invariant Valid(State())
        invariant State() == StrikePads(old(State()), Pads[..j], p, speed2, now)
      {
        var pad := Pads[j];
        ghost var k := State();
        if pad.x < p.x < pad.x + pad.w && pad.y < p.y < pad.y + pad.h {
          if speed2 > HitSpeed * HitSpeed && now - lastHit[pad.name] > Cooldown {
            hits := hits + [Hit(pad.name, pad.sound, pad.volume, speed2)];
            lastHit := lastHit[pad.name := now];
            anim := anim[pad.name := anim[pad.name].(active := true, startTime := now)];
          }
        }
        assert State() == Strike(k, pad, p, speed2, now);
        DrumProperties.StrikeValid(k, pad, p, speed2, now);
        assert Pads[..j + 1][..j] == Pads[..j];
        j := j + 1;
      }
      assert Pads[..j] == Pads;
    }
  }
}
