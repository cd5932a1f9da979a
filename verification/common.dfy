/**
  Shared vocabulary of the game scripts: optional references, 3-vectors over the
  reals, and the engine's clamping and interpolation helpers as the engine defines
  them (Lerp clamps its parameter into [0, 1]; Clamp tests the lower bound first).
 */
module Common {

  /** A reference that may be null. */
  datatype Option<+T> = None | Some(value: T)

  /** A position or direction; floats are modelled as reals. */
  datatype Vec3 = Vec3(x: real, y: real, z: real)

  const Zero := Vec3(0.0, 0.0, 0.0)

  function Add(a: Vec3, b: Vec3): Vec3 {
    Vec3(a.x + b.x, a.y + b.y, a.z + b.z)
  }

  function Sub(a: Vec3, b: Vec3): Vec3 {
    Vec3(a.x - b.x, a.y - b.y, a.z - b.z)
  }

  function Scale(a: Vec3, k: real): Vec3 {
    Vec3(a.x * k, a.y * k, a.z * k)
  }

  function Dot(a: Vec3, b: Vec3): real {
    a.x * b.x + a.y * b.y + a.z * b.z
  }

  /** Squared Euclidean distance; `Distance(a, b) > d` for d >= 0 is `DistSq(a, b) > d * d`. */
  function DistSq(a: Vec3, b: Vec3): real {
    Dot(Sub(a, b), Sub(a, b))
  }

  function Abs(x: real): (r: real)
    ensures r >= 0.0
    ensures r == x || r == -x
  {
    if x < 0.0 then -x else x
  }

  function Min(a: real, b: real): real { if a <= b then a else b }

  function Max(a: real, b: real): real { if a <= b then b else a }

  /** The engine's clamp: below `lo` gives `lo`, otherwise above `hi` gives `hi`. */
  function Clamp(value: real, lo: real, hi: real): (r: real)
    ensures lo <= hi ==> lo <= r <= hi
    ensures lo <= value <= hi ==> r == value
    ensures r == value || r == lo || r == hi
  {
    if value < lo then lo else if value > hi then hi else value
  }

  function Clamp01(t: real): (r: real)
    ensures 0.0 <= r <= 1.0
    ensures 0.0 <= t <= 1.0 ==> r == t
  {
    Clamp(t, 0.0, 1.0)
  }

  lemma MulNonneg(x: real, y: real)
    requires x >= 0.0 && y >= 0.0
    ensures x * y >= 0.0
  {
  }

  /** The engine's scalar interpolation; the parameter is clamped to [0, 1]. */
  function Lerp(a: real, b: real, t: real): (r: real)
    ensures Min(a, b) <= r <= Max(a, b)
    ensures t <= 0.0 ==> r == a
    ensures t >= 1.0 ==> r == b
  {
    var s := Clamp01(t);
    assert Min(a, b) <= a + (b - a) * s <= Max(a, b) by {
      assert (b - a) * s == (b - a) - (b - a) * (1.0 - s);
      if a <= b {
        MulNonneg(b - a, s);
        MulNonneg(b - a, 1.0 - s);
      } else {
        MulNonneg(a - b, s);
        MulNonneg(a - b, 1.0 - s);
      }
    }
    a + (b - a) * s
  }

  /** The engine's vector interpolation, component by component. */
  function LerpV(a: Vec3, b: Vec3, t: real): Vec3 {
    Vec3(Lerp(a.x, b.x, t), Lerp(a.y, b.y, t), Lerp(a.z, b.z, t))
  }

  /**
    The engine's integer `Random.Range(min, max)`: a value in [min, max) when
    min < max, and `min` when the bounds are equal. The random source is the
    parameter `roll`; every value of the range is reached by some roll.
   */
  function RandomRange(min: int, max: int, roll: nat): (r: int)
    ensures min < max ==> min <= r < max
    ensures max <= min ==> r == min
  {
    if min < max then min + roll % (max - min) else min
  }

  lemma RandomRangeReachesEveryValue(min: int, max: int, k: int)
    requires min <= k < max
    ensures RandomRange(min, max, k - min) == k
  {
  }
}
