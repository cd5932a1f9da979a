/**
  The bike's fixed-step control: braking and steering while on the ground, forward
  acceleration, the brake input, the forward move with the lean, the drag, and the
  reset-board latch after an obstacle hit; plus the trigger callbacks for ground and
  obstacles and the input setters. Transform and rigidbody updates appear as
  `Effect`s, the animation curves as functions, and the hand steering value, the
  rigidbody speed and the bike's position as inputs of the step.
 */
module Bike {
  import opened Common

  /** The inspector settings. */
  datatype Config = Config(
    maxVelocity: real,
    maxBreak: real,
    maxAcceleration: real,
    backwardVelocity: real,
    maxTilt: real,
    maxSteerIncrease: real,
    rateOfFall: real,
    friction: real)

  const Defaults := Config(120.0, 2.0, 2.0, 1.5, 65.0, 3.0, 13.0, 0.1)

  /** The two divisors of the step are positive. */
  predicate WellFormed(cfg: Config) {
    cfg.maxVelocity > 0.0 && cfg.maxSteerIncrease > 0.0
  }

  /** The acceleration curve, the input response curve and the brake curve. */
  datatype Curves = Curves(accelerating: real -> real, behaviour: real -> real, brake: real -> real)

  datatype Bike = Bike(
    booted: bool,
    falldown: bool,
    velocity: real,
    tilt: real,
    y: real,
    horizont: real,
    steeringIncrease: real,
    angleMultiplier: real,
    accForward: real,
    accBackward: real,
    flagBreak: bool,
    isConstraint: bool,
    flagReset: bool,
    colPos: Vec3,
    leftHand: Vec3,
    rightHand: Vec3)

  /** What a step does to the scene besides the controller's own fields. */
  datatype Effect =
    | FallDown                                   // translated down by the rate of fall
    | StopRigidbody                              // the rigidbody's velocity is zeroed
    | Reverse                                    // translated back by the backward velocity
    | Advance(speed: real, yaw: real, roll: real) // translated forward at `speed`, rotated to (0, yaw, roll)
    | ObstacleVisible(visible: bool)             // the hit obstacle's renderer
    | ResetBoard(shown: bool)                    // the HUD switched to (or from) the reset board
    | BitState(state: bool)                      // a state request to the bit
    | FreezeHeight(frozen: bool)                 // the rigidbody's vertical position constraint

  datatype Stepped = Stepped(bike: Bike, effects: seq<Effect>)

  /** The field initialisers followed by Start, for a bike placed with heading `yaw`. */
  function Initial(yaw: real): (b: Bike)
    ensures !b.booted && !b.falldown && !b.flagBreak && !b.flagReset
    ensures b.velocity == 0.0 && b.accForward == 0.0 && b.y == yaw && b.angleMultiplier == 1.0
  {
    Start(Bike(false, false, 0.0, 0.0, 0.0, 0.0, 3.0, 0.0, 0.0, 0.0, false, false, false, Zero, Zero, Zero), yaw)
  }

  /** Start: heading from the placement, on the ground, angle multiplier 1. */
  function Start(b: Bike, yaw: real): (r: Bike)
    ensures r.y == yaw && !r.falldown && r.angleMultiplier == 1.0
    ensures r.velocity == b.velocity && r.booted == b.booted && r.flagReset == b.flagReset
  {
    b.(y := yaw, falldown := false, angleMultiplier := 1.0)
  }

  /**
    The engine's vector equality against the origin: approximate, true when the
    squared length is below 1e-10.
   */
  predicate AtOrigin(p: Vec3) {
    Dot(p, p) < 0.0000000001
  }

  /** The brake amount: the brake curve at the velocity's fraction of the maximum, scaled. */
  function GetBreak(cfg: Config, c: Curves, velocity: real): (r: real)
    requires WellFormed(cfg)
    ensures r == cfg.maxBreak * c.brake(velocity / cfg.maxVelocity)
    ensures cfg.maxBreak >= 0.0 && c.brake(velocity / cfg.maxVelocity) >= 0.0 ==> r >= 0.0
    ensures cfg.maxBreak >= 0.0 && c.brake(velocity / cfg.maxVelocity) <= 1.0 ==> r <= cfg.maxBreak
  {
    var vp := velocity * 100.0 / cfg.maxVelocity;
    assert vp / 100.0 == velocity / cfg.maxVelocity;
    cfg.maxBreak * c.brake(vp / 100.0)
  }

  /** The acceleration amount: the acceleration curve at the velocity's fraction of the maximum, scaled. */
  function GetAcceleration(cfg: Config, c: Curves, velocity: real): (r: real)
    requires WellFormed(cfg)
    ensures r == cfg.maxAcceleration * c.accelerating(velocity / cfg.maxVelocity)
    ensures cfg.maxAcceleration >= 0.0 && 0.0 <= c.accelerating(velocity / cfg.maxVelocity) <= 1.0 ==>
      0.0 <= r <= cfg.maxAcceleration
  {
    var vp := velocity * 100.0 / cfg.maxVelocity;
    assert vp / 100.0 == velocity / cfg.maxVelocity;
    cfg.maxAcceleration * c.accelerating(vp / 100.0)
  }

  /**
    The grounded part of the step: falling only moves the bike down; otherwise,
    moving faster than 0.1 either way, the hands' steering value (when both hands
    are away from the origin) replaces the steering axis, a steering axis beyond 0.1
    turns the heading, and a set brake flag brakes a forward-moving bike or stops
    the rigidbody of one that is not.
   */
  function SteerAndBrake(cfg: Config, c: Curves, b: Bike, handSteer: real): (r: Stepped)
    requires WellFormed(cfg)
    ensures r.bike == b.(y := r.bike.y, horizont := r.bike.horizont, velocity := r.bike.velocity)
    ensures b.falldown ==> r == Stepped(b, [FallDown])
    ensures !b.falldown && Abs(b.velocity) <= 0.1 ==> r == Stepped(b, [])
    ensures !b.falldown && Abs(b.velocity) > 0.1 ==>
      r.bike.horizont == (if !AtOrigin(b.leftHand) && !AtOrigin(b.rightHand) then handSteer else b.horizont)
    ensures r.bike.y != b.y ==> !b.falldown && Abs(b.velocity) > 0.1 && Abs(r.bike.horizont) > 0.1
    ensures !b.falldown && Abs(b.velocity) > 0.1 && Abs(r.bike.horizont) > 0.1 ==>
      r.bike.y == b.y + r.bike.horizont * b.steeringIncrease * b.angleMultiplier
    ensures r.bike.velocity != b.velocity ==> !b.falldown && b.flagBreak && b.velocity > 0.1
    ensures !b.falldown && b.flagBreak && b.velocity > 0.1 ==>
      r.bike.velocity == b.velocity - GetBreak(cfg, c, b.velocity)
    ensures !b.falldown ==> (r.effects == [StopRigidbody] <==> b.flagBreak && b.velocity < -0.1)
    ensures !b.falldown && !(b.flagBreak && b.velocity < -0.1) ==> r.effects == []
  {
    if b.falldown then Stepped(b, [FallDown])
    else if Abs(b.velocity) > 0.1 then
      var h := if !AtOrigin(b.leftHand) && !AtOrigin(b.rightHand) then handSteer else b.horizont;
      var yaw := if Abs(h) > 0.1 then b.y + h * b.steeringIncrease * b.angleMultiplier else b.y;
      var steered := b.(horizont := h, y := yaw);
      if b.flagBreak then
        if b.velocity > 0.0 then Stepped(steered.(velocity := b.velocity - GetBreak(cfg, c, b.velocity)), [])
        else Stepped(steered, [StopRigidbody])
      else Stepped(steered, [])
    else Stepped(b, [])
  }

  /**
    Forward acceleration, on the ground or not: with the forward input above 0.01
    the rigidbody is stopped when slower than 3, and at or below the maximum velocity
    the velocity grows by the scaled acceleration plus the friction the drag will
    take off again.
   */
  function Accelerate(cfg: Config, c: Curves, b: Bike, rigidbodySpeed: real): (r: Stepped)
    requires WellFormed(cfg)
    ensures r.bike == b.(velocity := r.bike.velocity)
    ensures b.accForward > 0.01 && b.velocity <= cfg.maxVelocity ==>
      r.bike.velocity == b.velocity + GetAcceleration(cfg, c, b.velocity) * b.accForward + cfg.friction
    ensures !(b.accForward > 0.01 && b.velocity <= cfg.maxVelocity) ==> r.bike.velocity == b.velocity
    ensures r.effects == (if b.accForward > 0.01 && rigidbodySpeed < 3.0 then [StopRigidbody] else [])
  {
    if b.accForward > 0.01 then
      var stop := if rigidbodySpeed < 3.0 then [StopRigidbody] else [];
      if b.velocity <= cfg.maxVelocity then
        Stepped(b.(velocity := b.velocity + GetAcceleration(cfg, c, b.velocity) * b.accForward + cfg.friction), stop)
      else Stepped(b, stop)
    else Stepped(b, [])
  }

  /**
    The brake input: pressed while moving forward sets the brake flag, pressed
    while standing or reversing moves the bike back and leaves the flag as it was,
    released clears the flag.
   */
  function BrakeInput(b: Bike): (r: Stepped)
    ensures r.bike == b.(flagBreak := r.bike.flagBreak)
    ensures b.accBackward > 0.0 && b.velocity > 0.0 ==> r.bike.flagBreak && r.effects == []
    ensures b.accBackward > 0.0 && b.velocity <= 0.0 ==> r.bike.flagBreak == b.flagBreak && r.effects == [Reverse]
    ensures b.accBackward <= 0.0 ==> !r.bike.flagBreak && r.effects == []
  {
    if b.accBackward > 0.0 then
      if b.velocity <= 0.0 then Stepped(b, [Reverse])
      else Stepped(b.(flagBreak := true), [])
    else Stepped(b.(flagBreak := false), [])
  }

  /** The lean computed from the velocity: the steering sensitivity and the tilt angle. */
  datatype Lean = Lean(steeringIncrease: real, tilt: real)

  lemma RatioAtLeastHundred(v: real, m: real)
    requires m > 0.0 && v >= m
    ensures v * 100.0 / m >= 100.0
  {
    var q := v / m;
    assert q * m == v;
    assert v * 100.0 / m == q * 100.0;
    assert (q - 1.0) * m == v - m;
  }

  lemma SelfRatio(m: real)
    requires m > 0.0
    ensures m * 100.0 / m == 100.0
  {
    assert (m * 100.0 / m) * m == m * 100.0;
  }

  lemma QuotientAtLeast(vp: real, m: real)
    requires m > 0.0 && vp >= 100.0
    ensures m / 100.0 * vp >= m
  {
    assert m / 100.0 * vp - m == m / 100.0 * (vp - 100.0);
    MulNonneg(m / 100.0, vp - 100.0);
  }

  /**
    The lean for steering axis `axis`: the faster the bike, the lower the steering
    sensitivity (from the maximum at standstill down to 1) and the larger the share of
    the maximum tilt.
   */
  function TiltMotorbike(cfg: Config, velocity: real, axis: real): (r: Lean)
    requires WellFormed(cfg)
    ensures cfg.maxSteerIncrease >= 1.0 ==> 1.0 <= r.steeringIncrease <= cfg.maxSteerIncrease
    ensures velocity >= cfg.maxVelocity ==> r.steeringIncrease == 1.0
  {
    var vp := velocity * 100.0 / cfg.maxVelocity;
    var si := Clamp(cfg.maxSteerIncrease - (cfg.maxSteerIncrease / 100.0 * vp), 1.0, cfg.maxSteerIncrease);
    assert velocity >= cfg.maxVelocity ==> si == 1.0 by {
      if velocity >= cfg.maxVelocity {
        RatioAtLeastHundred(velocity, cfg.maxVelocity);
        QuotientAtLeast(vp, cfg.maxSteerIncrease);
      }
    }
    var sp := si * 100.0 / cfg.maxSteerIncrease;
    var tmpTilt := Clamp(cfg.maxTilt * ((100.0 - sp) / 100.0), 0.0, cfg.maxTilt);
    Lean(si, axis * tmpTilt)
  }

  /**
    The tilt never exceeds the steering axis times the maximum tilt in magnitude,
    and a standing bike does not lean.
   */
  lemma TiltBounds(cfg: Config, velocity: real, axis: real)
    requires WellFormed(cfg)
    requires cfg.maxSteerIncrease >= 1.0 && cfg.maxTilt >= 0.0
    ensures Abs(TiltMotorbike(cfg, velocity, axis).tilt) <= Abs(axis) * cfg.maxTilt
    ensures velocity == 0.0 ==> TiltMotorbike(cfg, velocity, axis).tilt == 0.0
  {
    var vp := velocity * 100.0 / cfg.maxVelocity;
    var si := Clamp(cfg.maxSteerIncrease - (cfg.maxSteerIncrease / 100.0 * vp), 1.0, cfg.maxSteerIncrease);
    var sp := si * 100.0 / cfg.maxSteerIncrease;
    var tmpTilt := Clamp(cfg.maxTilt * ((100.0 - sp) / 100.0), 0.0, cfg.maxTilt);
    assert TiltMotorbike(cfg, velocity, axis).tilt == axis * tmpTilt;
    assert Abs(axis * tmpTilt) == Abs(axis) * tmpTilt;
    MulNonneg(Abs(axis), cfg.maxTilt - tmpTilt);
    if velocity == 0.0 {
      assert vp == 0.0;
      assert si == cfg.maxSteerIncrease;
      SelfRatio(cfg.maxSteerIncrease);
      assert tmpTilt == 0.0;
    }
  }

  /** The forward move: the lean is recomputed from the steering axis and applied with the heading. */
  function MoveForward(cfg: Config, b: Bike): (r: Stepped)
    requires WellFormed(cfg)
    ensures r.bike == b.(steeringIncrease := r.bike.steeringIncrease, tilt := r.bike.tilt)
    ensures Lean(r.bike.steeringIncrease, r.bike.tilt) == TiltMotorbike(cfg, b.velocity, b.horizont)
    ensures r.effects == [Advance(b.velocity, b.y, -r.bike.tilt)]
  {
    var lean := TiltMotorbike(cfg, b.velocity, b.horizont);
    Stepped(b.(steeringIncrease := lean.steeringIncrease, tilt := lean.tilt), [Advance(b.velocity, b.y, -lean.tilt)])
  }

  /** The drag: a forward-moving bike loses exactly the friction, any other comes to a halt. */
  function Drag(cfg: Config, b: Bike): (r: Bike)
    ensures r == b.(velocity := r.velocity)
    ensures b.velocity > 0.0 ==> r.velocity == b.velocity - cfg.friction
    ensures b.velocity <= 0.0 ==> r.velocity == 0.0
    ensures cfg.friction >= 0.0 ==> r.velocity <= Max(b.velocity, 0.0)
  {
    if b.velocity > 0.0 then b.(velocity := b.velocity - cfg.friction)
    else b.(velocity := 0.0)
  }

  /**
    The reset-board check: once the bike is more than 0.5 away from where it hit
    the obstacle, the obstacle reappears, the latch clears and the dashboard returns.
    Distances are compared squared.
   */
  function ResetResetBoard(b: Bike, position: Vec3): (r: Stepped)
    ensures r.bike == b.(flagReset := r.bike.flagReset)
    ensures DistSq(b.colPos, position) > 0.25 ==>
      !r.bike.flagReset && r.effects == [ObstacleVisible(true), ResetBoard(false)]
    ensures DistSq(b.colPos, position) <= 0.25 ==> r == Stepped(b, [])
  {
    if DistSq(b.colPos, position) > 0.25 then
      Stepped(b.(flagReset := false), [ObstacleVisible(true), ResetBoard(false)])
    else Stepped(b, [])
  }

  /**
    What the step reads from outside the controller: the hands' steering value, the
    rigidbody's speed, and the bike's position when the reset check runs.
   */
  datatype Sensors = Sensors(handSteer: real, rigidbodySpeed: real, position: Vec3)

  /** One fixed step; a bike that has not booted does nothing. */
  function FixedUpdate(cfg: Config, c: Curves, b: Bike, s: Sensors): (r: Stepped)
    requires WellFormed(cfg)
    ensures !b.booted ==> r == Stepped(b, [])
    ensures r.bike.booted == b.booted && r.bike.falldown == b.falldown && r.bike.isConstraint == b.isConstraint
    ensures r.bike.accForward == b.accForward && r.bike.accBackward == b.accBackward
    ensures r.bike.colPos == b.colPos && r.bike.angleMultiplier == b.angleMultiplier
    ensures !b.flagReset ==> !r.bike.flagReset
    ensures b.booted && b.flagReset ==> (r.bike.flagReset <==> DistSq(b.colPos, s.position) <= 0.25)
    ensures b.booted && cfg.friction >= 0.0 ==> r.bike.velocity == 0.0 || r.bike.velocity > -cfg.friction
  {
    if !b.booted then Stepped(b, [])
    else
      var s1 := SteerAndBrake(cfg, c, b, s.handSteer);
      var s2 := Accelerate(cfg, c, s1.bike, s.rigidbodySpeed);
      var s3 := BrakeInput(s2.bike);
      var s4 := MoveForward(cfg, s3.bike);
      var dragged := Drag(cfg, s4.bike);
      var s5 := if dragged.flagReset then ResetResetBoard(dragged, s.position) else Stepped(dragged, []);
      Stepped(s5.bike, s1.effects + s2.effects + s3.effects + s4.effects + s5.effects)
  }

  const GroundTag := "ground"
  const ObstacleTag := "obstacle"

  /**
    A collider enters the bike's trigger. Ground: the vertical position is frozen,
    the constraint marked and the fall ended. Obstacle: the reset latch is set, the
    bike stopped and its forward input cleared, the obstacle hidden, the reset board
    shown, the hit position stored and the bit asked for its false state.
   */
  function OnTriggerEnter(b: Bike, tag: string, position: Vec3): (r: Stepped)
    ensures tag == GroundTag ==>
      r == Stepped(b.(isConstraint := true, falldown := false), [FreezeHeight(true)])
    ensures tag == ObstacleTag ==>
      && r.bike == b.(flagReset := true, velocity := 0.0, accForward := 0.0, colPos := position)
      && r.effects == [ObstacleVisible(false), ResetBoard(true), BitState(false)]
    ensures tag != GroundTag && tag != ObstacleTag ==> r == Stepped(b, [])
  {
    if tag == GroundTag then Stepped(b.(isConstraint := true, falldown := false), [FreezeHeight(true)])
    else if tag == ObstacleTag then
      var latched := if !b.flagReset then b.(flagReset := true) else b;
      var hit := latched.(velocity := 0.0, accForward := 0.0, colPos := position);
      Stepped(hit, [ObstacleVisible(false), ResetBoard(hit.flagReset), BitState(false)])
    else Stepped(b, [])
  }

  /** Leaving the ground above height 1 starts the fall; nothing else reacts. */
  function OnTriggerExit(b: Bike, tag: string, height: real): (r: Bike)
    ensures r == b.(falldown := r.falldown)
    ensures r.falldown <==> b.falldown || (tag == GroundTag && height > 1.0)
  {
    if tag == GroundTag && height > 1.0 then b.(falldown := true) else b
  }

  /** Staying on the ground releases the constraint set on entry, once. */
  function OnTriggerStay(b: Bike, tag: string): (r: Stepped)
    ensures r.bike == b.(isConstraint := r.bike.isConstraint)
    ensures b.isConstraint && tag == GroundTag ==> !r.bike.isConstraint && r.effects == [FreezeHeight(false)]
    ensures !(b.isConstraint && tag == GroundTag) ==> r == Stepped(b, [])
  {
    if b.isConstraint && tag == GroundTag then Stepped(b.(isConstraint := false), [FreezeHeight(false)])
    else Stepped(b, [])
  }

  /** Everything that happens to the bike: a fixed step, a trigger callback or an input. */
  datatype Op =
    | Fixed(sensors: Sensors)
    | Enter(tag: string, position: Vec3)
    | Exit(tag: string, height: real)
    | Stay(tag: string)
    | Boot(on: bool)
    | Steer(x: real)
    | Acc(context: real)
    | AccBack(context: real)
    | LeftController(leftPos: Vec3)
    | RightController(rightPos: Vec3)

  /**
    One operation. The input setters store their value; the forward input passes
    through the response curve first.
   */
  function Step(cfg: Config, c: Curves, b: Bike, op: Op): (r: Bike)
    requires WellFormed(cfg)
    ensures op.Boot? ==> r.booted == op.on && r == b.(booted := r.booted)
    ensures op.Steer? ==> r.horizont == op.x && r == b.(horizont := r.horizont)
    ensures op.Acc? ==> r.accForward == c.behaviour(op.context) && r == b.(accForward := r.accForward)
    ensures op.AccBack? ==> r.accBackward == op.context && r == b.(accBackward := r.accBackward)
    ensures op.LeftController? ==> r.leftHand == op.leftPos && r == b.(leftHand := r.leftHand)
    ensures op.RightController? ==> r.rightHand == op.rightPos && r == b.(rightHand := r.rightHand)
  {
    match op
    case Fixed(sensors) => FixedUpdate(cfg, c, b, sensors).bike
    case Enter(tag, position) => OnTriggerEnter(b, tag, position).bike
    case Exit(tag, height) => OnTriggerExit(b, tag, height)
    case Stay(tag) => OnTriggerStay(b, tag).bike
    case Boot(on) => b.(booted := on)
    case Steer(x) => b.(horizont := x)
    case Acc(context) => b.(accForward := c.behaviour(context))
    case AccBack(context) => b.(accBackward := context)
    case LeftController(p) => b.(leftHand := p)
    case RightController(p) => b.(rightHand := p)
  }

  function Run(cfg: Config, c: Curves, b: Bike, ops: seq<Op>): Bike
    requires WellFormed(cfg)
    decreases |ops|
  {
    if |ops| == 0 then b else Run(cfg, c, Step(cfg, c, b, ops[0]), ops[1..])
  }

  /**
    The bike's settings and curves as the scene configures them: non-negative
    amounts, and curves with values in [0, 1].
   */
  ghost predicate Tuned(cfg: Config, c: Curves) {
    && WellFormed(cfg)
    && cfg.maxAcceleration >= 0.0 && cfg.maxBreak >= 0.0 && cfg.friction >= 0.0
    && (forall x :: 0.0 <= c.accelerating(x) <= 1.0)
    && (forall x :: c.behaviour(x) <= 1.0)
    && (forall x :: 0.0 <= c.brake(x))
  }

  /** The speed envelope: never below minus the friction, never above the maximum plus one full acceleration. */
  ghost predicate Envelope(cfg: Config, b: Bike) {
    -cfg.friction <= b.velocity <= cfg.maxVelocity + cfg.maxAcceleration && b.accForward <= 1.0
  }

  lemma AccelerationAtMost(cfg: Config, c: Curves, velocity: real, input: real)
    requires Tuned(cfg, c)
    requires 0.0 < input <= 1.0
    ensures 0.0 <= GetAcceleration(cfg, c, velocity) * input <= cfg.maxAcceleration
  {
    var a := c.accelerating(velocity / cfg.maxVelocity);
    assert 0.0 <= a <= 1.0;
    MulNonneg(cfg.maxAcceleration, a);
    MulNonneg(cfg.maxAcceleration, 1.0 - a);
    var g := cfg.maxAcceleration * a;
    assert 0.0 <= g <= cfg.maxAcceleration;
    MulNonneg(g, input);
    MulNonneg(g, 1.0 - input);
  }

  /** Braking never speeds the bike up. */
  lemma SteerAndBrakeNeverSpeedsUp(cfg: Config, c: Curves, b: Bike, handSteer: real)
    requires Tuned(cfg, c)
    ensures SteerAndBrake(cfg, c, b, handSteer).bike.velocity <= b.velocity
  {
    var r := SteerAndBrake(cfg, c, b, handSteer);
    if r.bike.velocity != b.velocity {
      var k := c.brake(b.velocity / cfg.maxVelocity);
      assert 0.0 <= k;
      MulNonneg(cfg.maxBreak, k);
    }
  }

  /** One acceleration from within the envelope overshoots its top by at most the friction. */
  lemma AccelerateWithinEnvelope(cfg: Config, c: Curves, b: Bike, rigidbodySpeed: real)
    requires Tuned(cfg, c)
    requires b.velocity <= cfg.maxVelocity + cfg.maxAcceleration && b.accForward <= 1.0
    ensures Accelerate(cfg, c, b, rigidbodySpeed).bike.velocity <= cfg.maxVelocity + cfg.maxAcceleration + cfg.friction
  {
    if b.accForward > 0.01 && b.velocity <= cfg.maxVelocity {
      AccelerationAtMost(cfg, c, b.velocity, b.accForward);
    }
  }

  /** A fixed step keeps the bike inside the speed envelope. */
  lemma FixedUpdateKeepsEnvelope(cfg: Config, c: Curves, b: Bike, s: Sensors)
    requires Tuned(cfg, c)
    requires Envelope(cfg, b)
    ensures Envelope(cfg, FixedUpdate(cfg, c, b, s).bike)
  {
    if b.booted {
      var s1 := SteerAndBrake(cfg, c, b, s.handSteer);
      SteerAndBrakeNeverSpeedsUp(cfg, c, b, s.handSteer);
      var s2 := Accelerate(cfg, c, s1.bike, s.rigidbodySpeed);
      AccelerateWithinEnvelope(cfg, c, s1.bike, s.rigidbodySpeed);
      var s3 := BrakeInput(s2.bike);
      var s4 := MoveForward(cfg, s3.bike);
      assert s4.bike.velocity == s2.bike.velocity;
      var dragged := Drag(cfg, s4.bike);
      assert -cfg.friction <= dragged.velocity <= cfg.maxVelocity + cfg.maxAcceleration;
      var s5 := if dragged.flagReset then ResetResetBoard(dragged, s.position) else Stepped(dragged, []);
      assert s5.bike.velocity == dragged.velocity && s5.bike.accForward == b.accForward;
      assert FixedUpdate(cfg, c, b, s).bike == s5.bike;
    }
  }

  /** Any operation keeps the bike inside the speed envelope. */
  lemma StepKeepsEnvelope(cfg: Config, c: Curves, b: Bike, op: Op)
    requires Tuned(cfg, c)
    requires Envelope(cfg, b)
    ensures Envelope(cfg, Step(cfg, c, b, op))
  {
    match op
    case Fixed(sensors) => FixedUpdateKeepsEnvelope(cfg, c, b, sensors);
    case Acc(context) => assert c.behaviour(context) <= 1.0;
    case _ =>
  }

  /**
    From the initial state, whatever the inputs, triggers and steps, the velocity
    stays within the envelope: the bike cannot be driven past its maximum velocity by
    more than one step's acceleration, and reverses only by translation.
   */
  lemma {:induction false} SpeedStaysInEnvelope(cfg: Config, c: Curves, b: Bike, ops: seq<Op>)
    requires Tuned(cfg, c)
    requires Envelope(cfg, b)
    ensures Envelope(cfg, Run(cfg, c, b, ops))
    decreases |ops|
  {
    if |ops| > 0 {
      StepKeepsEnvelope(cfg, c, b, ops[0]);
      SpeedStaysInEnvelope(cfg, c, Step(cfg, c, b, ops[0]), ops[1..]);
    }
  }

  /**
    The acceleration adds the friction the drag takes off again: on the ground, not
    braking, with the forward input pressed and a curve value of 0, a forward-moving
    bike keeps its speed exactly.
   */
  lemma FrictionIsCompensated(cfg: Config, c: Curves, b: Bike, s: Sensors)
    requires WellFormed(cfg) && cfg.friction >= 0.0
    requires b.booted && !b.falldown && !b.flagBreak
    requires b.accForward > 0.01 && b.accBackward <= 0.0
    requires 0.0 < b.velocity <= cfg.maxVelocity
    requires c.accelerating(b.velocity / cfg.maxVelocity) == 0.0
    ensures FixedUpdate(cfg, c, b, s).bike.velocity == b.velocity
  {
    assert GetAcceleration(cfg, c, b.velocity) == 0.0;
  }

  /** Falling does not stop the forward acceleration: only braking and steering need the ground. */
  lemma FallingStillAccelerates(cfg: Config, c: Curves, b: Bike, s: Sensors)
    requires WellFormed(cfg) && cfg.friction >= 0.0
    requires b.booted && b.falldown
    requires b.accForward > 0.01 && b.velocity <= cfg.maxVelocity
    requires b.velocity + GetAcceleration(cfg, c, b.velocity) * b.accForward > 0.0
    ensures var r := FixedUpdate(cfg, c, b, s);
      && r.bike.velocity == b.velocity + GetAcceleration(cfg, c, b.velocity) * b.accForward
      && r.bike.y == b.y
      && r.effects[0] == FallDown
  {
    var s1 := SteerAndBrake(cfg, c, b, s.handSteer);
    assert s1 == Stepped(b, [FallDown]);
    var v := b.velocity + GetAcceleration(cfg, c, b.velocity) * b.accForward;
    var s2 := Accelerate(cfg, c, s1.bike, s.rigidbodySpeed);
    assert s2.bike.velocity == v + cfg.friction;
    var s3 := BrakeInput(s2.bike);
    var s4 := MoveForward(cfg, s3.bike);
    assert s4.bike.velocity == v + cfg.friction && s4.bike.y == b.y;
    assert Drag(cfg, s4.bike).velocity == v;
  }

  /**
    The reset latch set by an obstacle hit survives every fixed step taken within
    0.5 of the hit position, whatever else happens in those steps.
   */
  lemma {:induction false} LatchHoldsNearHit(cfg: Config, c: Curves, b: Bike, steps: seq<Sensors>)
    requires WellFormed(cfg)
    requires b.flagReset
    requires forall i :: 0 <= i < |steps| ==> DistSq(b.colPos, steps[i].position) <= 0.25
    ensures var r := Run(cfg, c, b, seq(|steps|, i requires 0 <= i < |steps| => Fixed(steps[i])));
      r.flagReset && r.colPos == b.colPos
    decreases |steps|
  {
    var ops := seq(|steps|, i requires 0 <= i < |steps| => Fixed(steps[i]));
    if |steps| > 0 {
      var next := Step(cfg, c, b, ops[0]);
      assert next == FixedUpdate(cfg, c, b, steps[0]).bike;
      assert next.flagReset && next.colPos == b.colPos;
      var rest := seq(|steps[1..]|, i requires 0 <= i < |steps[1..]| => Fixed(steps[1..][i]));
      assert ops[1..] == rest;
      LatchHoldsNearHit(cfg, c, next, steps[1..]);
    }
  }

  /** After an obstacle hit the bike stands still and the latch is set; the first booted step beyond 0.5 clears it. */
  lemma HitThenClear(cfg: Config, c: Curves, b: Bike, hitAt: Vec3, s: Sensors)
    requires WellFormed(cfg)
    requires b.booted
    requires DistSq(hitAt, s.position) > 0.25
    ensures var hit := OnTriggerEnter(b, ObstacleTag, hitAt).bike;
      && hit.flagReset && hit.velocity == 0.0 && hit.accForward == 0.0
      && !FixedUpdate(cfg, c, hit, s).bike.flagReset
  {
    assert ObstacleTag != GroundTag;
  }
}
