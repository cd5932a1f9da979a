/**
  The bike's on-board HUD: a dashboard, a reset board shown after a crash instead of
  the dashboard, and the speed scale whose labels split the maximum speed into equal
  increments. Labels hold the increment itself; rounding it to text is left out.
 */
module Hud {
  import opened Common

  datatype Hud = Hud(resetboardActive: bool, dashboardActive: bool, maxSpeed: real, labels: seq<real>)

  /** Shows the reset board when `resetFlag` is set, the dashboard otherwise. */
  function SwitchToResetboard(h: Hud, resetFlag: bool): (r: Hud)
    ensures r.resetboardActive <==> resetFlag
    ensures r.resetboardActive != r.dashboardActive
    ensures r.maxSpeed == h.maxSpeed && r.labels == h.labels
  {
    h.(resetboardActive := resetFlag, dashboardActive := !resetFlag)
  }

  lemma MulStrict(u: real, a: int, b: int)
    requires u > 0.0 && a < b
    ensures u * a as real < u * b as real
  {
    assert u * b as real - u * a as real == u * (b - a) as real;
    assert u * (b - a) as real >= u;
  }

  /** The value of label `i` of `n`: the maximum speed split into n+1 equal steps, times i+1. */
  function Increment(maxSpeed: real, n: nat, i: int): real {
    maxSpeed / (n + 1) as real * (i + 1) as real
  }

  /** What a label of the speed scale holds: label `i` of `n` is (i+1)/(n+1) of the maximum speed. */
  ghost predicate IsIncrement(maxSpeed: real, n: nat, i: int, value: real) {
    value * (n + 1) as real == maxSpeed * (i + 1) as real
  }

  lemma IncrementIsShare(maxSpeed: real, n: nat, i: int)
    ensures IsIncrement(maxSpeed, n, i, Increment(maxSpeed, n, i))
  {
    var unit := maxSpeed / (n + 1) as real;
    assert unit * (n + 1) as real == maxSpeed;
    calc {
      Increment(maxSpeed, n, i) * (n + 1) as real;
      unit * (i + 1) as real * (n + 1) as real;
      unit * (n + 1) as real * (i + 1) as real;
      maxSpeed * (i + 1) as real;
    }
  }

  lemma IncrementBounds(maxSpeed: real, n: nat, i: int)
    requires maxSpeed > 0.0 && 0 <= i < n
    ensures 0.0 < Increment(maxSpeed, n, i) < maxSpeed
  {
    var unit := maxSpeed / (n + 1) as real;
    assert unit > 0.0;
    assert unit * (n + 1) as real == maxSpeed;
    MulStrict(unit, 0, i + 1);
    MulStrict(unit, i + 1, n + 1);
  }

  lemma IncrementIncreases(maxSpeed: real, n: nat, i: int, j: int)
    requires maxSpeed > 0.0 && i < j
    ensures Increment(maxSpeed, n, i) < Increment(maxSpeed, n, j)
  {
    var unit := maxSpeed / (n + 1) as real;
    assert unit > 0.0;
    MulStrict(unit, i + 1, j + 1);
  }

  /**
    Computes the label of every slot of the speed scale, for `n` slots. For a
    positive maximum speed the labels increase strictly and lie strictly between 0
    and the maximum.
   */
  method SetIncrementText(maxSpeed: real, n: nat) returns (labels: seq<real>)
    ensures |labels| == n
    ensures forall i :: 0 <= i < n ==> IsIncrement(maxSpeed, n, i, labels[i])
    ensures maxSpeed > 0.0 ==> forall i, j :: 0 <= i < j < n ==> labels[i] < labels[j]
    ensures maxSpeed > 0.0 ==> forall i :: 0 <= i < n ==> 0.0 < labels[i] < maxSpeed
  {
    labels := [];
    var i := 0;
    while i < n
      invariant 0 <= i <= n
      invariant |labels| == i
      invariant forall j :: 0 <= j < i ==> labels[j] == Increment(maxSpeed, n, j)
    {
      labels := labels + [Increment(maxSpeed, n, i)];
      i := i + 1;
    }
    forall k | 0 <= k < n
      ensures IsIncrement(maxSpeed, n, k, labels[k])
    {
      IncrementIsShare(maxSpeed, n, k);
    }
    if maxSpeed > 0.0 {
      forall a, b | 0 <= a < b < n
        ensures labels[a] < labels[b]
      {
        IncrementIncreases(maxSpeed, n, a, b);
      }
      forall k | 0 <= k < n
        ensures 0.0 < labels[k] < maxSpeed
      {
        IncrementBounds(maxSpeed, n, k);
      }
    }
  }

  /** Start: the reset board is hidden, the dashboard shown and every speed label assigned. */
  method Start(maxSpeed: real, n: nat) returns (h: Hud)
    ensures !h.resetboardActive && h.dashboardActive
    ensures h.maxSpeed == maxSpeed && |h.labels| == n
    ensures forall i :: 0 <= i < n ==> IsIncrement(maxSpeed, n, i, h.labels[i])
  {
    var labels := SetIncrementText(maxSpeed, n);
    h := Hud(false, true, maxSpeed, labels);
  }
}
