/**
  Phasing of the lightcycle: a request starts a routine that grows (phase in) or
  shrinks (phase out) a sphere revealing the bike, then swaps the phasing object for
  the runtime object and fades the glass in, after which "phase-in complete" fires.
  Shader parameters are modelled as the values last written; the engine's frame
  time divided by the routine's duration is a constant positive `step`.
 */
module Lightcycle {
  import opened Common

  /**
    `routine` is the direction of the phasing routine in progress (`None` when none
    runs); `completions` counts the "phase-in complete" events fired so far.
   */
  datatype Lightcycle = Lightcycle(
    isPhasedIn: bool,
    routine: Option<bool>,
    spherePhaseActive: bool,
    runtimeActive: bool,
    sphereRadius: real,
    glassThreshold: real,
    completions: nat)

  /** A phasing request: ignored when the bike already has that phase or a routine runs. */
  function PhasingExpandSphere(lc: Lightcycle, phaseIn: bool): (r: Lightcycle)
    ensures lc.isPhasedIn == phaseIn ==> r == lc
    ensures lc.routine.Some? ==> r == lc
    ensures lc.isPhasedIn != phaseIn && lc.routine.None? ==> r == lc.(routine := Some(phaseIn))
  {
    if lc.isPhasedIn == phaseIn then lc
    else if lc.routine.Some? then lc
    else lc.(routine := Some(phaseIn))
  }

  /**
    Start: the sphere radius is reset; with `debugPhaseOnStart` a phase-in is
    requested. The two objects keep their scene state.
   */
  function Start(spherePhaseActive: bool, runtimeActive: bool, glassThreshold: real, debugPhaseOnStart: bool): (lc: Lightcycle)
    ensures !lc.isPhasedIn && lc.sphereRadius == 0.0 && lc.completions == 0
    ensures lc.routine == (if debugPhaseOnStart then Some(true) else None)
  {
    var lc := Lightcycle(false, None, spherePhaseActive, runtimeActive, 0.0, glassThreshold, 0);
    if debugPhaseOnStart then PhasingExpandSphere(lc, true) else lc
  }

  /** The object swap at the end of any phasing, in either direction. */
  function SwitchLightcycleGO(lc: Lightcycle): (r: Lightcycle)
    ensures !r.spherePhaseActive && r.runtimeActive
    ensures r == lc.(spherePhaseActive := false, runtimeActive := true)
  {
    lc.(spherePhaseActive := false, runtimeActive := true)
  }

  /**
    The phasing routine: the time parameter runs from 0 up past 1 (phase in) or from
    1 down past 0 (phase out), then the radius is set from the curve at exactly 1 or
    0, the phase is recorded, the routine marker cleared and the objects swapped.
    `t` is the loop's final time parameter.
   */
  method PhasingRoutine(lc: Lightcycle, sphereCurve: real -> real, step: real) returns (r: Lightcycle, t: real)
    requires lc.routine.Some?
    requires step > 0.0
    ensures r.isPhasedIn == lc.routine.value
    ensures r.routine.None?
    ensures r.sphereRadius == sphereCurve(if lc.routine.value then 1.0 else 0.0)
    ensures !r.spherePhaseActive && r.runtimeActive
    ensures r.glassThreshold == lc.glassThreshold && r.completions == lc.completions
    ensures lc.routine.value ==> 1.0 <= t < 1.0 + step
    ensures !lc.routine.value ==> -step < t <= 0.0
  {
    var phaseIn := lc.routine.value;
    var radius := lc.sphereRadius;
    if phaseIn {
      t := 0.0;
      while t < 1.0
        invariant t < 1.0 + step
        decreases ((1.0 - t) / step).Floor
      {
        assert (1.0 - (t + step)) / step == (1.0 - t) / step - 1.0;
        t := t + step;
        radius := sphereCurve(t);
      }
    } else {
      t := 1.0;
      while t > 0.0
        invariant t > -step
        decreases (t / step).Floor
      {
        assert (t - step) / step == t / step - 1.0;
        t := t - step;
        radius := sphereCurve(t);
      }
    }
    radius := sphereCurve(if phaseIn then 1.0 else 0.0);
    r := SwitchLightcycleGO(lc.(sphereRadius := radius, isPhasedIn := phaseIn, routine := None));
  }

  /**
    The glass fade: the threshold follows the curve while the time parameter runs
    from 1 down past 0, ends at exactly 0, and then "phase-in complete" fires.
   */
  method FadeGlassRoutine(lc: Lightcycle, glassCurve: real -> real, step: real) returns (r: Lightcycle, t: real)
    requires step > 0.0
    ensures r.glassThreshold == 0.0
    ensures r.completions == lc.completions + 1
    ensures r == lc.(glassThreshold := 0.0, completions := lc.completions + 1)
    ensures -step < t <= 0.0
  {
    var threshold := lc.glassThreshold;
    t := 1.0;
    while t > 0.0
      invariant t > -step
      decreases (t / step).Floor
    {
      assert (t - step) / step == t / step - 1.0;
      t := t - step;
      threshold := glassCurve(t);
    }
    r := lc.(glassThreshold := 0.0, completions := lc.completions + 1);
  }

  /**
    A full phasing from an accepted request: afterwards the bike has the requested
    phase, no routine runs, the runtime object is shown, the glass is clear and the
    completion event has fired once more, even for a phase-out.
   */
  method PhaseAndFade(lc: Lightcycle, phaseIn: bool, sphereCurve: real -> real, glassCurve: real -> real, step: real)
    returns (r: Lightcycle)
    requires lc.isPhasedIn != phaseIn && lc.routine.None?
    requires step > 0.0
    ensures r.isPhasedIn == phaseIn && r.routine.None?
    ensures !r.spherePhaseActive && r.runtimeActive
    ensures r.glassThreshold == 0.0 && r.completions == lc.completions + 1
  {
    var started := PhasingExpandSphere(lc, phaseIn);
    var phased, t := PhasingRoutine(started, sphereCurve, step);
    var t2;
    r, t2 := FadeGlassRoutine(phased, glassCurve, step);
  }
}
