/**
  The point on a quadratic Bézier curve through three control points, computed the
  way the game's utility class does it: an interpolation between two interpolations.
 */
module Bezier {
  import opened Common

  /** Bernstein form of a quadratic Bézier curve in one coordinate. */
  function Quadratic(a0: real, a1: real, a2: real, t: real): real {
    (1.0 - t) * (1.0 - t) * a0 + 2.0 * t * (1.0 - t) * a1 + t * t * a2
  }

  lemma NestedLerpIsQuadratic(a0: real, a1: real, a2: real, t: real)
    requires 0.0 <= t <= 1.0
    ensures Lerp(Lerp(a0, a1, t), Lerp(a1, a2, t), t) == Quadratic(a0, a1, a2, t)
  {
    var l1 := a0 + (a1 - a0) * t;
    var l2 := a1 + (a2 - a1) * t;
    assert Lerp(a0, a1, t) == l1;
    assert Lerp(a1, a2, t) == l2;
    calc {
      l1 + (l2 - l1) * t;
      a0 + (a1 - a0) * t + (a1 - a0 + (a2 - a1) * t - (a1 - a0) * t) * t;
      a0 - 2.0 * a0 * t + a0 * t * t + 2.0 * a1 * t - 2.0 * a1 * t * t + a2 * t * t;
      Quadratic(a0, a1, a2, t);
    }
  }

  /**
    The curve point for parameter `t`. The interpolations clamp `t`, so values
    outside [0, 1] give the end points.
   */
  function GetPoint(p0: Vec3, p1: Vec3, p2: Vec3, t: real): (r: Vec3)
    ensures t <= 0.0 ==> r == p0
    ensures t >= 1.0 ==> r == p2
    ensures p0 == p1 == p2 ==> r == p0
    ensures 0.0 <= t <= 1.0 ==>
      r == Vec3(Quadratic(p0.x, p1.x, p2.x, t), Quadratic(p0.y, p1.y, p2.y, t), Quadratic(p0.z, p1.z, p2.z, t))
  {
    if 0.0 <= t <= 1.0 then
      NestedLerpIsQuadratic(p0.x, p1.x, p2.x, t);
      NestedLerpIsQuadratic(p0.y, p1.y, p2.y, t);
      NestedLerpIsQuadratic(p0.z, p1.z, p2.z, t);
      LerpV(LerpV(p0, p1, t), LerpV(p1, p2, t), t)
    else
      LerpV(LerpV(p0, p1, t), LerpV(p1, p2, t), t)
  }

  /** Each coordinate of the result depends only on the same coordinate of the control points. */
  lemma GetPointIsComponentwise(p0: Vec3, p1: Vec3, p2: Vec3, q0: Vec3, q1: Vec3, q2: Vec3, t: real)
    ensures p0.x == q0.x && p1.x == q1.x && p2.x == q2.x ==> GetPoint(p0, p1, p2, t).x == GetPoint(q0, q1, q2, t).x
    ensures p0.y == q0.y && p1.y == q1.y && p2.y == q2.y ==> GetPoint(p0, p1, p2, t).y == GetPoint(q0, q1, q2, t).y
    ensures p0.z == q0.z && p1.z == q1.z && p2.z == q2.z ==> GetPoint(p0, p1, p2, t).z == GetPoint(q0, q1, q2, t).z
  {
  }
}
