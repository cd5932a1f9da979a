/**
  The engine sound of the bike. While the bike moves forward the sound plays, its
  volume and pitch eased each frame toward levels proportional to the speed; at a
  standstill or when reversing they are eased down to their minimum and the sound
  stops once the volume reaches it. The stereo pan follows the bike's lean.
 */
module EngineSound {
  import opened Common

  /**
    The inspector settings plus the two values read from the bike at Start:
    `maxSpeed` (its maximum velocity) and `maxTilt` (its maximum lean in degrees).
   */
  datatype Config = Config(
    minPitch: real,
    maxPitch: real,
    minVolume: real,
    maxVolume: real,
    interpolationSpeed: real,
    stereoManipulation: bool,
    switchStereoDirection: bool,
    maxSpeed: real,
    maxTilt: real)

  /** The inspector defaults, with the bike's defaults for its maximum speed and lean. */
  const Defaults := Config(0.5, 1.0, 0.1, 0.5, 0.9, true, false, 120.0, 65.0)

  /** Both divisors are positive; without that the engine would divide by zero. */
  predicate WellFormed(cfg: Config) {
    cfg.maxSpeed > 0.0 && cfg.maxTilt > 0.0
  }

  /** The levels are ordered, so "between minimum and maximum" means something. */
  predicate Ordered(cfg: Config) {
    cfg.minVolume <= cfg.maxVolume && cfg.minPitch <= cfg.maxPitch
  }

  /** The audio source's state and the controller's fade clock and pan direction. */
  datatype Engine = Engine(
    volume: real,
    pitch: real,
    playing: bool,
    pan: real,
    interpolationTime: real,
    stereoDirection: real)

  /** Start: volume and pitch at their minimum; the pan direction is flipped by the setting. */
  function Start(cfg: Config, e: Engine): (r: Engine)
    ensures r.volume == cfg.minVolume && r.pitch == cfg.minPitch
    ensures r.stereoDirection == (if cfg.switchStereoDirection then 1.0 else -1.0)
    ensures r.playing == e.playing && r.pan == e.pan && r.interpolationTime == e.interpolationTime
  {
    e.(volume := cfg.minVolume, pitch := cfg.minPitch,
       stereoDirection := if cfg.switchStereoDirection then 1.0 else -1.0)
  }

  /** A level proportional to the speed fraction: the minimum at 0, the maximum at 1. */
  function Desired(lo: real, hi: real, amount: real): (r: real)
    ensures amount == 0.0 ==> r == lo
    ensures amount == 1.0 ==> r == hi
    ensures lo <= hi && 0.0 <= amount <= 1.0 ==> lo <= r <= hi
  {
    var r := lo + (hi - lo) * amount;
    assert lo <= hi && 0.0 <= amount <= 1.0 ==> lo <= r <= hi by {
      if lo <= hi && 0.0 <= amount <= 1.0 {
        MulNonneg(hi - lo, amount);
        MulNonneg(hi - lo, 1.0 - amount);
        assert (hi - lo) * (1.0 - amount) == (hi - lo) - (hi - lo) * amount;
      }
    }
    r
  }

  /**
    The lean angle as an engine reports it, in [0, 360), mapped to (-180, 180] so
    that a lean to one side is negative.
   */
  function NormaliseTilt(z: real): (r: real)
    requires 0.0 <= z < 360.0
    ensures -180.0 < r <= 180.0
    ensures r == z || r == z - 360.0
  {
    if z > 180.0 then -360.0 + z else z
  }

  /** The stereo pan for a lean, given the pan direction. */
  function Pan(cfg: Config, stereoDirection: real, tiltZ: real): (r: real)
    requires WellFormed(cfg)
    requires 0.0 <= tiltZ < 360.0
    ensures r * cfg.maxTilt == stereoDirection * NormaliseTilt(tiltZ)
  {
    stereoDirection * (NormaliseTilt(tiltZ) / cfg.maxTilt)
  }

  /**
    One frame at bike speed `speed`, frame time `dt` and lean angle `tiltZ`. When the
    bike does not move forward and nothing plays, the frame ends early and the pan is
    not updated either.
   */
  function Update(cfg: Config, e: Engine, speed: real, dt: real, tiltZ: real): (r: Engine)
    requires WellFormed(cfg)
    requires 0.0 <= tiltZ < 360.0
    ensures r.stereoDirection == e.stereoDirection
    ensures speed > 0.0 && !e.playing ==>
      r == e.(playing := true, pan := if cfg.stereoManipulation then Pan(cfg, e.stereoDirection, tiltZ) else e.pan)
    ensures speed <= 0.0 && !e.playing ==> r == e
    ensures speed > 0.0 ==> r.playing && r.interpolationTime == e.interpolationTime
    ensures e.playing && speed <= 0.0 && r.playing ==> r.interpolationTime == e.interpolationTime + dt
    ensures e.playing && speed <= 0.0 && !r.playing ==>
      r.volume == cfg.minVolume && r.pitch == cfg.minPitch && r.interpolationTime == 0.0
    ensures (e.playing || speed > 0.0) && cfg.stereoManipulation ==> r.pan == Pan(cfg, e.stereoDirection, tiltZ)
    ensures !cfg.stereoManipulation ==> r.pan == e.pan
  {
    var amount := speed / cfg.maxSpeed;
    if speed <= 0.0 && !e.playing then e
    else
      var levelled :=
        if speed > 0.0 then
          if !e.playing then e.(playing := true)
          else
            e.(volume := Lerp(e.volume, Desired(cfg.minVolume, cfg.maxVolume, amount), amount),
               pitch := Lerp(e.pitch, Desired(cfg.minPitch, cfg.maxPitch, amount), amount))
        else
          var time := e.interpolationTime + dt;
          var faded := e.(interpolationTime := time,
                          pitch := Lerp(e.pitch, cfg.minPitch, time * cfg.interpolationSpeed),
                          volume := Lerp(e.volume, cfg.minVolume, time * cfg.interpolationSpeed));
          if faded.volume == cfg.minVolume then
            faded.(pitch := cfg.minPitch, playing := false, interpolationTime := 0.0)
          else faded;
      if cfg.stereoManipulation then levelled.(pan := Pan(cfg, e.stereoDirection, tiltZ))
      else levelled
  }

  /** Volume and pitch lie between their configured minimum and maximum. */
  ghost predicate InRange(cfg: Config, e: Engine) {
    cfg.minVolume <= e.volume <= cfg.maxVolume && cfg.minPitch <= e.pitch <= cfg.maxPitch
  }

  /**
    As long as the bike never exceeds its maximum speed, volume and pitch stay
    within their configured ranges: each frame only eases them toward a level inside
    the range.
   */
  lemma UpdateKeepsRange(cfg: Config, e: Engine, speed: real, dt: real, tiltZ: real)
    requires WellFormed(cfg) && Ordered(cfg)
    requires 0.0 <= tiltZ < 360.0
    requires speed <= cfg.maxSpeed
    requires InRange(cfg, e)
    ensures InRange(cfg, Update(cfg, e, speed, dt, tiltZ))
  {
    if speed > 0.0 {
      var amount := speed / cfg.maxSpeed;
      assert 0.0 < amount <= 1.0 by {
        assert amount * cfg.maxSpeed == speed;
      }
    }
  }

  /** A frame with a bike speed and frame time, and the engine's lean reading. */
  datatype Frame = Frame(speed: real, dt: real, tiltZ: real)

  function Run(cfg: Config, e: Engine, frames: seq<Frame>): Engine
    requires WellFormed(cfg)
    requires forall i :: 0 <= i < |frames| ==> 0.0 <= frames[i].tiltZ < 360.0
    decreases |frames|
  {
    if |frames| == 0 then e
    else Run(cfg, Update(cfg, e, frames[0].speed, frames[0].dt, frames[0].tiltZ), frames[1..])
  }

  /** From Start on, over any frames within the bike's maximum speed, the levels stay in range. */
  lemma {:induction false} LevelsStayInRange(cfg: Config, e: Engine, frames: seq<Frame>)
    requires WellFormed(cfg) && Ordered(cfg)
    requires forall i :: 0 <= i < |frames| ==> frames[i].speed <= cfg.maxSpeed && 0.0 <= frames[i].tiltZ < 360.0
    requires InRange(cfg, e)
    ensures InRange(cfg, Run(cfg, e, frames))
    decreases |frames|
  {
    if |frames| > 0 {
      var f := frames[0];
      UpdateKeepsRange(cfg, e, f.speed, f.dt, f.tiltZ);
      forall i | 0 <= i < |frames[1..]|
        ensures frames[1..][i].speed <= cfg.maxSpeed && 0.0 <= frames[1..][i].tiltZ < 360.0
      {
        assert frames[1..][i] == frames[i + 1];
      }
      LevelsStayInRange(cfg, Update(cfg, e, f.speed, f.dt, f.tiltZ), frames[1..]);
    }
  }

  /**
    The fade ends: once the accumulated fade time times the interpolation speed
    reaches 1, the volume lands on its minimum and the sound stops.
   */
  lemma FadeCompletes(cfg: Config, e: Engine, speed: real, dt: real, tiltZ: real)
    requires WellFormed(cfg)
    requires 0.0 <= tiltZ < 360.0
    requires e.playing && speed <= 0.0
    requires (e.interpolationTime + dt) * cfg.interpolationSpeed >= 1.0
    ensures var r := Update(cfg, e, speed, dt, tiltZ);
      !r.playing && r.volume == cfg.minVolume && r.pitch == cfg.minPitch && r.interpolationTime == 0.0
  {
  }

  lemma QuotientWithinUnit(n: real, m: real)
    requires m > 0.0 && -m <= n <= m
    ensures -1.0 <= n / m <= 1.0
  {
    assert n / m * m == n;
  }

  /** With the lean within the bike's maximum, the pan stays within [-1, 1]. */
  lemma PanWithinUnitRange(cfg: Config, stereoDirection: real, tiltZ: real)
    requires WellFormed(cfg)
    requires 0.0 <= tiltZ < 360.0
    requires stereoDirection == 1.0 || stereoDirection == -1.0
    requires -cfg.maxTilt <= NormaliseTilt(tiltZ) <= cfg.maxTilt
    ensures -1.0 <= Pan(cfg, stereoDirection, tiltZ) <= 1.0
    ensures NormaliseTilt(tiltZ) == 0.0 ==> Pan(cfg, stereoDirection, tiltZ) == 0.0
  {
    QuotientWithinUnit(NormaliseTilt(tiltZ), cfg.maxTilt);
  }
}
