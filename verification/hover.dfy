/**
  Idle hovering shared by the bit and the handle-bar grab points: three local hover
  targets, refreshed every `hoverTimeFrame` seconds. A refresh runs the loop
  `for i in 1 .. 2: targets[i] := targets[i - 1]` forwards, so it copies the old
  slot 0 into both later slots instead of shifting them, and then draws a new
  slot 0 near the start position.
 */
module Hover {
  import opened Common

  const TargetCount := 3

  datatype Hover = Hover(startPos: Vec3, targets: seq<Vec3>, hoverTime: real)

  ghost predicate Valid(h: Hover) {
    |h.targets| == TargetCount
  }

  /** Start: the local start position is recorded and every target is put on it. */
  function Start(localPos: Vec3): (h: Hover)
    ensures Valid(h)
    ensures h.startPos == localPos
    ensures forall i :: 0 <= i < |h.targets| ==> h.targets[i] == localPos
    ensures h.hoverTime == 0.0
  {
    Hover(localPos, seq(TargetCount, _ => localPos), 0.0)
  }

  /** The forward copy loop from index `i` on: `a[i] := a[i - 1]`, then `i + 1`. */
  function ShiftLoop(a: seq<Vec3>, i: nat): (r: seq<Vec3>)
    requires 1 <= i
    ensures |r| == |a|
    ensures 0 < |a| ==> r[0] == a[0]
    decreases |a| - i
  {
    if i >= |a| then a else ShiftLoop(a[i := a[i - 1]], i + 1)
  }

  /** Once slots 0 .. i-1 agree with slot 0, the rest of the loop makes every slot equal to it. */
  lemma {:induction false} ShiftLoopCopiesSlotZero(a: seq<Vec3>, i: nat)
    requires 1 <= i <= |a|
    requires forall k :: 0 <= k < i ==> a[k] == a[0]
    ensures forall k :: 0 <= k < |a| ==> ShiftLoop(a, i)[k] == a[0]
    decreases |a| - i
  {
    if i < |a| {
      var b := a[i := a[i - 1]];
      assert forall k :: 0 <= k < i + 1 ==> b[k] == b[0];
      ShiftLoopCopiesSlotZero(b, i + 1);
    }
  }

  /** The whole loop, started at index 1, fills every slot with the old slot 0. */
  lemma ForwardShiftDuplicatesSlotZero(a: seq<Vec3>)
    requires 0 < |a|
    ensures forall k :: 0 <= k < |a| ==> ShiftLoop(a, 1)[k] == a[0]
  {
    ShiftLoopCopiesSlotZero(a, 1);
  }

  lemma ScaledOffsetIsShort(offset: Vec3, d: real)
    requires Dot(offset, offset) <= 1.0
    requires d >= 0.0
    ensures Dot(Scale(offset, d), Scale(offset, d)) <= d * d
  {
    calc {
      Dot(Scale(offset, d), Scale(offset, d));
      d * d * Dot(offset, offset);
    <= { MulNonneg(d * d, 1.0 - Dot(offset, offset)); }
      d * d;
    }
  }

  /**
    One frame of hovering. When the remaining time has run out the targets are
    refreshed: `offset` is the engine's random point inside the unit sphere, scaled
    by `hoverDistance` around the start position; the time is reset to
    `hoverTimeFrame`. In every frame the frame time `dt` is then subtracted.
   */
  function Tick(h: Hover, offset: Vec3, hoverDistance: real, hoverTimeFrame: real, dt: real): (r: Hover)
    requires Valid(h)
    ensures Valid(r)
    ensures r.startPos == h.startPos
    ensures h.hoverTime <= 0.0 ==>
      && r.targets[1] == h.targets[0]
      && r.targets[2] == h.targets[0]
      && (Dot(offset, offset) <= 1.0 && hoverDistance >= 0.0 ==>
            DistSq(r.targets[0], h.startPos) <= hoverDistance * hoverDistance)
      && r.hoverTime == hoverTimeFrame - dt
    ensures h.hoverTime > 0.0 ==> r.targets == h.targets && r.hoverTime == h.hoverTime - dt
  {
    if h.hoverTime <= 0.0 then
      var drawn := Add(h.startPos, Scale(offset, hoverDistance));
      ForwardShiftDuplicatesSlotZero(h.targets);
      assert Sub(drawn, h.startPos) == Scale(offset, hoverDistance);
      assert Dot(offset, offset) <= 1.0 && hoverDistance >= 0.0 ==>
          DistSq(drawn, h.startPos) <= hoverDistance * hoverDistance by {
        if Dot(offset, offset) <= 1.0 && hoverDistance >= 0.0 {
          ScaledOffsetIsShort(offset, hoverDistance);
        }
      }
      Hover(h.startPos, ShiftLoop(h.targets, 1)[0 := drawn], hoverTimeFrame - dt)
    else
      h.(hoverTime := h.hoverTime - dt)
  }
}
