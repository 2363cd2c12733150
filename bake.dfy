/**
 * `bake_action_to_scene_fps` (lines 77-89): copy the action, rename the copy
 * `name + "_baked"`, and in the copy multiply the x coordinate of every
 * keyframe's point and of both its handles by `scene_fps / average_fps`.
 * An action is an object whose f-curves each own an array of keyframes; the
 * rescaling writes those arrays in place.
 */
module Bake {

  /** A 2-D coordinate of a keyframe: x is the frame, y the value. */
  datatype Point = Point(x: real, y: real)

  /** A keyframe: its point and the two handles of its interpolation curve. */
  datatype Keyframe = Keyframe(co: Point, handleLeft: Point, handleRight: Point)

  /** One keyframe with its three x coordinates multiplied by `factor`. */
  function RescaleKeyframe(k: Keyframe, factor: real): Keyframe
  {
    Keyframe(Point(k.co.x * factor, k.co.y),
             Point(k.handleLeft.x * factor, k.handleLeft.y),
             Point(k.handleRight.x * factor, k.handleRight.y))
  }

  /** Every keyframe of a curve rescaled, in the same order. */
  function RescaleCurve(ks: seq<Keyframe>, factor: real): seq<Keyframe>
  {
    seq(|ks|, i requires 0 <= i < |ks| => RescaleKeyframe(ks[i], factor))
  }

  /** An animation curve: the property it drives and its keyframe points. */
  class FCurve {
    const dataPath: string
    const keyframePoints: array<Keyframe>

    constructor (dataPath: string, points: seq<Keyframe>)
      ensures this.dataPath == dataPath
      ensures fresh(keyframePoints) && keyframePoints[..] == points
    {
      this.dataPath := dataPath;
      keyframePoints := new Keyframe[|points|](i requires 0 <= i < |points| => points[i]);
    }
  }

  /** An action: a named set of f-curves. */
  class Action {
    var name: string
    var fcurves: seq<FCurve>

    /** No two f-curves share a keyframe array. */
    ghost predicate Valid()
      reads this
    {
      forall i, j :: 0 <= i < j < |fcurves| ==> fcurves[i].keyframePoints != fcurves[j].keyframePoints
    }

    constructor (name: string, fcurves: seq<FCurve>)
      ensures this.name == name && this.fcurves == fcurves
    {
      this.name := name;
      this.fcurves := fcurves;
    }

    /** `action.copy()`: a new action whose f-curves own fresh copies of the keyframes. */
    method Copy() returns (c: Action)
      ensures fresh(c) && c.Valid()
      ensures c.name == name && |c.fcurves| == |fcurves|
      ensures forall i :: 0 <= i < |fcurves| ==>
                fresh(c.fcurves[i]) && fresh(c.fcurves[i].keyframePoints)
                && c.fcurves[i].dataPath == fcurves[i].dataPath
                && c.fcurves[i].keyframePoints[..] == fcurves[i].keyframePoints[..]
    {
      var copies: seq<FCurve> := [];
      for i := 0 to |fcurves|
        invariant |copies| == i
        invariant forall k :: 0 <= k < i ==>
                    fresh(copies[k]) && fresh(copies[k].keyframePoints)
                    && copies[k].dataPath == fcurves[k].dataPath
                    && copies[k].keyframePoints[..] == fcurves[k].keyframePoints[..]
        invariant forall k, m :: 0 <= k < m < i ==> copies[k].keyframePoints != copies[m].keyframePoints
      {
        var f := new FCurve(fcurves[i].dataPath, fcurves[i].keyframePoints[..]);
        copies := copies + [f];
      }
      c := new Action(name, copies);
    }
  }

  /**
   * Lines 77-89. The source action is not modified (the method has no
   * `modifies` clause); the result is a fresh action whose f-curves and
   * keyframe arrays are its own, with the same curves in the same order, each keyframe's x coordinates scaled by
   * `sceneFps / averageFps` and everything else as it was.
   */
  method BakeActionToSceneFps(action: Action, averageFps: real, sceneFps: real) returns (baked: Action)
    requires averageFps != 0.0
    ensures fresh(baked) && baked.Valid()
    ensures baked.name == action.name + "_baked"
    ensures |baked.fcurves| == |action.fcurves|
    ensures forall i :: 0 <= i < |baked.fcurves| ==>
              fresh(baked.fcurves[i]) && fresh(baked.fcurves[i].keyframePoints)
    ensures forall i :: 0 <= i < |baked.fcurves| ==>
              baked.fcurves[i].dataPath == action.fcurves[i].dataPath
              && baked.fcurves[i].keyframePoints[..]
                   == RescaleCurve(action.fcurves[i].keyframePoints[..], sceneFps / averageFps)
  {
    baked := action.Copy();
    baked.name := action.name + "_baked";
    var n := |baked.fcurves|;
    for c := 0 to n
      invariant baked.name == action.name + "_baked" && |baked.fcurves| == n
      invariant fresh(baked) && baked.Valid()
      invariant forall i :: 0 <= i < n ==>
                  fresh(baked.fcurves[i]) && fresh(baked.fcurves[i].keyframePoints) && baked.fcurves[i].dataPath == action.fcurves[i].dataPath
      invariant forall i :: 0 <= i < c ==>
                  baked.fcurves[i].keyframePoints[..]
                    == RescaleCurve(action.fcurves[i].keyframePoints[..], sceneFps / averageFps)
      invariant forall i :: c <= i < n ==>
                  baked.fcurves[i].keyframePoints[..] == action.fcurves[i].keyframePoints[..]
    {
      var points := baked.fcurves[c].keyframePoints;
      ghost var orig := points[..];
      assert orig == action.fcurves[c].keyframePoints[..];
      for k := 0 to points.Length
        modifies points
        invariant forall m :: 0 <= m < k ==> points[m] == RescaleKeyframe(orig[m], sceneFps / averageFps)
        invariant forall m :: k <= m < points.Length ==> points[m] == orig[m]
      {
        var keyframe := points[k];
        points[k] := keyframe.(co := keyframe.co.(x := keyframe.co.x * (sceneFps / averageFps)));
        keyframe := points[k];
        points[k] := keyframe.(handleLeft := keyframe.handleLeft.(x := keyframe.handleLeft.x * (sceneFps / averageFps)));
        keyframe := points[k];
        points[k] := keyframe.(handleRight := keyframe.handleRight.(x := keyframe.handleRight.x * (sceneFps / averageFps)));
      }
    }
  }

  /** Keyframe frames strictly increase along the curve. */
  predicate FramesIncrease(ks: seq<Keyframe>)
  {
    forall i, j :: 0 <= i < j < |ks| ==> ks[i].co.x < ks[j].co.x
  }

  /** Every keyframe lies between its left and right handle in time. */
  predicate HandlesBracket(ks: seq<Keyframe>)
  {
    forall i :: 0 <= i < |ks| ==> ks[i].handleLeft.x <= ks[i].co.x <= ks[i].handleRight.x
  }

  /** Multiplying by a positive factor keeps (and reflects) strict order. */
  lemma ScaleMonotone(a: real, b: real, f: real)
    requires f > 0.0
    ensures a < b <==> a * f < b * f
    ensures a <= b <==> a * f <= b * f
  {
    assert (b - a) * f == b * f - a * f;
    if a < b {
      assert (b - a) * f > 0.0;
    }
    if a * f < b * f {
      assert (b - a) * f > 0.0;
    }
  }

  /**
   * Baking from `averageFps` to `sceneFps` and back from `sceneFps` to
   * `averageFps` restores every x coordinate exactly (real arithmetic).
   */
  lemma RescaleRoundTrip(ks: seq<Keyframe>, averageFps: real, sceneFps: real)
    requires averageFps != 0.0 && sceneFps != 0.0
    ensures RescaleCurve(RescaleCurve(ks, sceneFps / averageFps), averageFps / sceneFps) == ks
  {
    var f, g := sceneFps / averageFps, averageFps / sceneFps;
    assert f * g == 1.0;
    forall i | 0 <= i < |ks| ensures RescaleKeyframe(RescaleKeyframe(ks[i], f), g) == ks[i] {
      var k := ks[i];
      assert k.co.x * f * g == k.co.x * (f * g);
      assert k.handleLeft.x * f * g == k.handleLeft.x * (f * g);
      assert k.handleRight.x * f * g == k.handleRight.x * (f * g);
    }
  }

  /** Two bakes in a row are one bake by the product of their factors. */
  lemma RescaleCompose(ks: seq<Keyframe>, f: real, g: real)
    ensures RescaleCurve(RescaleCurve(ks, f), g) == RescaleCurve(ks, f * g)
  {
    forall i | 0 <= i < |ks| ensures RescaleKeyframe(RescaleKeyframe(ks[i], f), g) == RescaleKeyframe(ks[i], f * g) {
      var k := ks[i];
      assert k.co.x * f * g == k.co.x * (f * g);
      assert k.handleLeft.x * f * g == k.handleLeft.x * (f * g);
      assert k.handleRight.x * f * g == k.handleRight.x * (f * g);
    }
  }

  /** A positive factor keeps the time order of the frames of two keyframes. */
  lemma KeyframePairOrder(k1: Keyframe, k2: Keyframe, factor: real)
    requires factor > 0.0
    ensures k1.co.x < k2.co.x <==> RescaleKeyframe(k1, factor).co.x < RescaleKeyframe(k2, factor).co.x
  {
    ScaleMonotone(k1.co.x, k2.co.x, factor);
  }

  /** Under a positive factor, a rescaled keyframe lies between its handles exactly when the original does. */
  lemma KeyframeHandleOrder(k: Keyframe, factor: real)
    requires factor > 0.0
    ensures var r := RescaleKeyframe(k, factor);
      (k.handleLeft.x <= k.co.x <= k.handleRight.x) <==> (r.handleLeft.x <= r.co.x <= r.handleRight.x)
  {
    ScaleMonotone(k.handleLeft.x, k.co.x, factor);
    ScaleMonotone(k.co.x, k.handleRight.x, factor);
  }

  /** Under a positive factor, the rescaled frames increase exactly when the original frames do. */
  lemma RescaleKeepsOrder(ks: seq<Keyframe>, factor: real)
    requires factor > 0.0
    ensures FramesIncrease(RescaleCurve(ks, factor)) <==> FramesIncrease(ks)
  {
    var r := RescaleCurve(ks, factor);
    forall i, j | 0 <= i < j < |ks| ensures ks[i].co.x < ks[j].co.x <==> r[i].co.x < r[j].co.x {
      KeyframePairOrder(ks[i], ks[j], factor);
    }
  }

  /** Under a positive factor, the rescaled curve brackets every keyframe by its handles exactly when the original does. */
  lemma RescaleKeepsHandles(ks: seq<Keyframe>, factor: real)
    requires factor > 0.0
    ensures HandlesBracket(RescaleCurve(ks, factor)) <==> HandlesBracket(ks)
  {
    var r := RescaleCurve(ks, factor);
    forall i | 0 <= i < |ks|
      ensures (ks[i].handleLeft.x <= ks[i].co.x <= ks[i].handleRight.x)
          <==> (r[i].handleLeft.x <= r[i].co.x <= r[i].handleRight.x)
    {
      KeyframeHandleOrder(ks[i], factor);
    }
  }

  /**
   * With positive rates the bake keeps the shape of the curve: frames
   * increase after it exactly when they did before, and each keyframe stays
   * between its handles exactly when it did before.
   */
  lemma RescaleKeepsShape(ks: seq<Keyframe>, averageFps: real, sceneFps: real)
    requires averageFps > 0.0 && sceneFps > 0.0
    ensures FramesIncrease(RescaleCurve(ks, sceneFps / averageFps)) <==> FramesIncrease(ks)
    ensures HandlesBracket(RescaleCurve(ks, sceneFps / averageFps)) <==> HandlesBracket(ks)
  {
    var f := sceneFps / averageFps;
    assert f > 0.0;
    RescaleKeepsOrder(ks, f);
    RescaleKeepsHandles(ks, f);
  }

  /** From 30 to 24 frames per second, a keyframe at frame 10 moves to frame 8. */
  lemma ThirtyToTwentyFour(k: Keyframe)
    requires k.co.x == 10.0
    ensures RescaleKeyframe(k, 24.0 / 30.0).co.x == 8.0
  {
  }

  /** From 30 to 60 frames per second, keyframes at frames 1 and 2 move to frames 2 and 4. */
  lemma ThirtyToSixty(ks: seq<Keyframe>)
    requires |ks| == 2 && ks[0].co.x == 1.0 && ks[1].co.x == 2.0
    ensures RescaleCurve(ks, 60.0 / 30.0)[0].co.x == 2.0
    ensures RescaleCurve(ks, 60.0 / 30.0)[1].co.x == 4.0
  {
  }
}
