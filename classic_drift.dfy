/** The second drift variant, the scene that setup-game.js writes out as
    template text: keyboard or pointer controls, a speed clamp that widens
    under boost, a drift that accrues points and a multiplier, banking of the
    drift on exit with a boost reward, and the collision penalty. The car's
    rotation, velocity vector and every trigonometric term belong to Phaser's
    physics body and are not modelled. */
module ClassicDrift {
  import opened JsMath

  const ReverseLimit: real := -200.0
  const BaseMaxSpeed: real := 350.0
  const MaxBoostFactor: real := 1.8
  const DriftSpeedThreshold: real := 120.0
  const MaxDriftFactor: real := 1.8
  const MaxMultiplier: real := 5.0
  const CoastDecay: real := 0.97

  // ---------------------------------------------------------------- controls

  datatype ControlMode = KeysMode | MouseMode

  /** The space-key listener: swap keyboard and pointer steering. */
  function ToggleMode(m: ControlMode): (r: ControlMode)
    ensures r != m
    ensures r.KeysMode? <==> m.MouseMode?
  {
    if m == KeysMode then MouseMode else KeysMode
  }

  datatype Keys = Keys(up: bool, down: bool, left: bool, right: bool, shift: bool, ctrl: bool)

  /** The pointer as the scene sees it: the raw difference between the angle
      towards the pointer and the car's rotation (both from `atan2` and the
      physics body, so given, not computed) and the distance to it. */
  datatype Pointer = Pointer(angleDiff: real, distance: real)

  datatype Controls = Controls(accel: real, steer: real, drift: real)

  function KeyControls(k: Keys): (c: Controls)
    ensures c.accel == (if k.up then 1.0 else if k.down then -0.5 else 0.0)
    ensures c.steer == (if k.left then -1.0 else if k.right then 1.0 else 0.0)
    ensures c.drift == (if k.shift then 1.0 else 0.0)
  {
    Controls(if k.up then 1.0 else if k.down then -0.5 else 0.0,
             if k.left then -1.0 else if k.right then 1.0 else 0.0,
             if k.shift then 1.0 else 0.0)
  }

  /** Bring an angle difference into [-pi, pi] by at most one turn each way,
      as the two `if`s of the pointer branch do. */
  function WrapOnce(a: real): (r: real)
    ensures -Pi <= a <= Pi ==> r == a
    ensures -3.0 * Pi <= a <= 3.0 * Pi ==> -Pi <= r <= Pi
  {
    var a1 := if a > Pi then a - 2.0 * Pi else a;
    if a1 < -Pi then a1 + 2.0 * Pi else a1
  }

  /** Pointer steering: turn towards the pointer, and accelerate in
      proportion to its distance beyond 100, reaching full throttle at 300.
      Without a pointer every control stays at zero. */
  function MouseControls(p: Option<Pointer>, k: Keys): (c: Controls)
    ensures -1.0 <= c.steer <= 1.0 && 0.0 <= c.accel <= 1.0
    ensures p.None? ==> c == Controls(0.0, 0.0, 0.0)
    ensures p.Some? ==> c.drift == (if k.shift then 1.0 else 0.0)
    ensures p.Some? && p.value.distance <= 100.0 ==> c.accel == 0.0
    ensures p.Some? && p.value.distance >= 300.0 ==> c.accel == 1.0
  {
    match p
    case None => Controls(0.0, 0.0, 0.0)
    case Some(ptr) =>
      var steer := Clamp(WrapOnce(ptr.angleDiff) * 2.0, -1.0, 1.0);
      var accel := if k.ctrl || ptr.distance > 100.0
                   then Clamp((ptr.distance - 100.0) / (300.0 - 100.0), 0.0, 1.0) else 0.0;
      Controls(accel, steer, if k.shift then 1.0 else 0.0)
  }

  function ReadControls(mode: ControlMode, k: Keys, p: Option<Pointer>): (c: Controls)
    ensures -1.0 <= c.steer <= 1.0 && -0.5 <= c.accel <= 1.0
    ensures c.drift == 0.0 || c.drift == 1.0
    ensures c.drift == 1.0 ==> k.shift
  {
    if mode == KeysMode then KeyControls(k) else MouseControls(p, k)
  }

  // ---------------------------------------------------------------- state

  datatype CarState = CarState(
    speed: real,
    acceleration: real,
    drifting: bool,
    driftFactor: real,
    driftDirection: int,
    driftTime: real,
    driftScore: real,
    driftMultiplier: real,
    boostTime: real,
    boostFactor: real,
    controlMode: ControlMode,
    driftInitialSpeed: real)

  function InitialCarState(): (c: CarState)
    ensures Consistent(c) && !c.drifting && c.controlMode == KeysMode && c.speed == 0.0
  {
    CarState(0.0, 0.0, false, 0.0, 0, 0.0, 0.0, 1.0, 0.0, 1.0, KeysMode, 0.0)
  }

  /** What every tick with a nonnegative delta and every collision keep. */
  predicate Consistent(c: CarState)
  {
    && ReverseLimit <= c.speed <= BaseMaxSpeed * MaxBoostFactor
    && 0.0 <= c.driftFactor <= MaxDriftFactor
    && c.driftTime >= 0.0
    && c.driftScore >= 0.0
    && 1.0 <= c.driftMultiplier <= MaxMultiplier
    && c.boostTime >= 0.0
    && 1.0 <= c.boostFactor <= MaxBoostFactor
    && (c.boostTime == 0.0 ==> c.boostFactor == 1.0)
    && -1 <= c.driftDirection <= 1
    && (c.drifting ==> c.driftDirection != 0)
    && (!c.drifting ==> NoDrift(c))
    && c.driftMultiplier == MultiplierAt(c.driftTime)
  }

  /** The drift fields as a reset leaves them. */
  predicate NoDrift(c: CarState)
  {
    c.driftFactor == 0.0 && c.driftTime == 0.0 && c.driftScore == 0.0 && c.driftMultiplier == 1.0
  }

  // ---------------------------------------------------------------- speed

  /** The boost timer: count down, and on expiry zero the timer and drop the
      factor back to 1. */
  function CountDownBoost(c: CarState, dt: real): (r: CarState)
    ensures c.boostTime > 0.0 && c.boostTime - dt <= 0.0 ==> r == c.(boostTime := 0.0, boostFactor := 1.0)
    ensures c.boostTime > 0.0 && c.boostTime - dt > 0.0 ==> r == c.(boostTime := c.boostTime - dt)
    ensures c.boostTime <= 0.0 ==> r == c
  {
    if c.boostTime > 0.0 then
      var t := c.boostTime - dt;
      if t <= 0.0 then c.(boostTime := 0.0, boostFactor := 1.0) else c.(boostTime := t)
    else c
  }

  /** The ceiling of the speed clamp at a given boost factor. */
  function MaxSpeed(boostFactor: real): real { BaseMaxSpeed * boostFactor }

  /** Throttle, coast decay and the clamp to [-200, 350 * boostFactor]. */
  function Throttle(c: CarState, accel: real, dt: real): (r: CarState)
    ensures r == c.(speed := r.speed, acceleration := accel * 300.0 * c.boostFactor)
    ensures c.boostFactor >= 0.0 ==> ReverseLimit <= r.speed <= MaxSpeed(c.boostFactor)
  {
    var force := accel * 300.0 * c.boostFactor;
    var pushed := c.speed + force * dt;
    var rolled := if accel == 0.0 then pushed * CoastDecay else pushed;
    c.(acceleration := force, speed := Clamp(rolled, ReverseLimit, MaxSpeed(c.boostFactor)))
  }

  /** Without throttle a car inside the clamp loses exactly 3% of its speed,
      so it never speeds up. */
  lemma CoastingDecays(c: CarState, dt: real)
    requires c.boostFactor >= 0.0 && ReverseLimit <= c.speed <= MaxSpeed(c.boostFactor)
    ensures Throttle(c, 0.0, dt).speed == c.speed * CoastDecay
    ensures Abs(Throttle(c, 0.0, dt).speed) <= Abs(c.speed)
  {
    assert 0.0 * 300.0 * c.boostFactor == 0.0;
    var v := c.speed * CoastDecay;
    assert ReverseLimit <= v <= MaxSpeed(c.boostFactor);
  }

  // ---------------------------------------------------------------- drifting

  /** The drift test on the clamped speed: faster than 120 either way and
      steering harder than 0.2. */
  predicate CanDrift(speed: real, steer: real)
  {
    Abs(speed) > DriftSpeedThreshold && Abs(steer) > 0.2
  }

  /** Starting a drift: a fresh drift record in the direction of the steer. */
  function StartDrift(c: CarState, steer: real): (r: CarState)
    ensures r.drifting && r.driftDirection == Sign(steer)
    ensures r.driftTime == 0.0 && r.driftScore == 0.0 && r.driftMultiplier == 1.0
    ensures r.driftInitialSpeed == c.speed
    ensures r == c.(drifting := r.drifting, driftDirection := r.driftDirection, driftTime := 0.0,
                    driftScore := 0.0, driftMultiplier := 1.0, driftInitialSpeed := c.speed)
  {
    c.(drifting := true, driftDirection := Sign(steer), driftTime := 0.0, driftScore := 0.0,
       driftMultiplier := 1.0, driftInitialSpeed := c.speed)
  }

  /** Points for one frame of drifting: faster and sharper earns more. */
  function DriftPoints(dt: real, speed: real, steer: real, inZone: bool): (p: real)
    ensures dt >= 0.0 ==> p >= 0.0
  {
    var base := dt * Abs(speed) * 0.15 * Abs(steer);
    ProductNonnegative(dt, Abs(speed), 0.15, Abs(steer));
    if inZone then base * 2.0 else base
  }

  lemma ProductNonnegative(a: real, b: real, c: real, d: real)
    requires b >= 0.0 && c >= 0.0 && d >= 0.0
    ensures a >= 0.0 ==> a * b * c * d >= 0.0
  {
    if a >= 0.0 {
      MulMono4(a, b, c, d, a, b, c, d);
    }
  }

  /** A drift zone doubles the points exactly. */
  lemma DriftZoneDoubles(dt: real, speed: real, steer: real)
    ensures DriftPoints(dt, speed, steer, true) == 2.0 * DriftPoints(dt, speed, steer, false)
  {
  }

  /** The multiplier once the drift has lasted more than half a second. */
  function Multiplier(driftTime: real): (m: real)
    requires driftTime > 0.5
    ensures 1.0 < m <= MaxMultiplier
  {
    Min(1.0 + (driftTime - 0.5) * 0.5, MaxMultiplier)
  }

  /** The multiplier a drift of the given length carries: 1 for the first
      half second, then `Multiplier`. */
  function MultiplierAt(driftTime: real): (m: real)
    ensures 1.0 <= m <= MaxMultiplier
  {
    if driftTime > 0.5 then Multiplier(driftTime) else 1.0
  }

  /** A longer drift never earns a smaller multiplier, and every drift of
      8.5 seconds or more earns the full 5. */
  lemma MultiplierMonotone(t1: real, t2: real)
    requires 0.5 < t1 <= t2
    ensures Multiplier(t1) <= Multiplier(t2)
    ensures t1 >= 8.5 ==> Multiplier(t1) == MaxMultiplier
  {
  }

  /** One frame with the drift held: grow the drift factor towards 1.8, the
      time and the score, and lift the multiplier after half a second. */
  function AccrueDrift(c: CarState, steer: real, dt: real, inZone: bool): (r: CarState)
  {
    var time := c.driftTime + dt;
    c.(driftFactor := Min(c.driftFactor + dt * 2.0, MaxDriftFactor),
       driftTime := time,
       driftScore := c.driftScore + DriftPoints(dt, c.speed, steer, inZone),
       driftMultiplier := if time > 0.5 then Multiplier(time) else c.driftMultiplier)
  }

  lemma AccrueDriftFacts(c: CarState, steer: real, dt: real, inZone: bool)
    requires Consistent(c) && c.drifting && dt >= 0.0
    ensures var r := AccrueDrift(c, steer, dt, inZone);
      && Consistent(r) && r.drifting
      && r.driftTime == c.driftTime + dt
      && r.driftScore >= c.driftScore
      && r.driftScore - c.driftScore == DriftPoints(dt, c.speed, steer, inZone)
      && r.driftMultiplier >= c.driftMultiplier
      && c.driftFactor <= r.driftFactor <= MaxDriftFactor
      && r.speed == c.speed && r.boostTime == c.boostTime && r.boostFactor == c.boostFactor
  {
    var time := c.driftTime + dt;
    if c.driftTime > 0.5 {
      MultiplierMonotone(c.driftTime, time);
    }
  }

  /** The reward boost for a drift banked on exit. */
  datatype Boost = Boost(factor: real, duration: real)

  predicate EarnsBoost(c: CarState)
  {
    c.driftTime > 1.0 && c.driftScore > 100.0
  }

  function RewardBoost(c: CarState): (b: Boost)
    ensures c.driftTime > 1.0 ==> 1.5 < b.duration <= 3.0
    ensures 1.0 <= c.driftMultiplier ==> 1.4 <= b.factor <= MaxBoostFactor
  {
    Boost(Min(1.3 + c.driftMultiplier * 0.1, MaxBoostFactor), Min(1.0 + c.driftTime * 0.5, 3.0))
  }

  /** The points a drift is worth when banked. */
  function Banked(c: CarState): (n: int)
    ensures c.driftScore >= 0.0 && c.driftMultiplier >= 1.0 ==> n >= c.driftScore.Floor
  {
    BankedAtLeastScore(c.driftScore, c.driftMultiplier);
    (c.driftScore * c.driftMultiplier).Floor
  }

  lemma BankedAtLeastScore(s: real, m: real)
    ensures s >= 0.0 && m >= 1.0 ==> s * m >= s
  {
    if s >= 0.0 && m >= 1.0 {
      ScaleBetween(s, m, 1.0, m);
    }
  }

  /** All drift fields back to their idle values. */
  function ResetDrift(c: CarState): (r: CarState)
    ensures !r.drifting && NoDrift(r)
    ensures r == c.(drifting := false, driftFactor := 0.0, driftTime := 0.0, driftScore := 0.0,
                    driftMultiplier := 1.0)
  {
    c.(drifting := false, driftFactor := 0.0, driftTime := 0.0, driftScore := 0.0, driftMultiplier := 1.0)
  }

  /** Releasing a drift: bank a positive drift score, reward a long and
      rich drift with a boost, then reset. */
  function ExitDrift(c: CarState, score: int): (r: (CarState, int))
  {
    var b := RewardBoost(c);
    var c1 := if c.driftScore > 0.0 && EarnsBoost(c)
              then c.(boostTime := b.duration, boostFactor := b.factor) else c;
    (ResetDrift(c1), if c.driftScore > 0.0 then score + Banked(c) else score)
  }

  lemma ExitDriftFacts(c: CarState, score: int)
    requires Consistent(c) && c.drifting
    ensures var r := ExitDrift(c, score);
      && Consistent(r.0) && !r.0.drifting
      && r.1 == score + (if c.driftScore > 0.0 then Banked(c) else 0)
      && r.1 >= score
      && (EarnsBoost(c) ==> r.0.boostTime == RewardBoost(c).duration && r.0.boostFactor == RewardBoost(c).factor)
      && (!EarnsBoost(c) ==> r.0.boostTime == c.boostTime && r.0.boostFactor == c.boostFactor)
      && r.0.speed == c.speed
  {
    var b := RewardBoost(c);
    assert c.driftScore.Floor >= 0;
  }

  // ---------------------------------------------------------------- the tick

  /** One frame of the embedded `update` on the car record and the score;
      `dt` is the frame delta in seconds. */
  function Tick(c: CarState, score: int, ctl: Controls, dt: real, inZone: bool): (r: (CarState, int))
  {
    var c1 := Throttle(CountDownBoost(c, dt), ctl.accel, dt);
    if ctl.drift > 0.0 && CanDrift(c1.speed, ctl.steer) then
      var c2 := if c1.drifting then c1 else StartDrift(c1, ctl.steer);
      (AccrueDrift(c2, ctl.steer, dt, inZone), score)
    else if c1.drifting then ExitDrift(c1, score)
    else (c1, score)
  }

  /** The speed and boost part of a tick: the invariants survive it, and a
      drift is neither started nor stopped by it. */
  lemma SpeedStepFacts(c: CarState, ctl: Controls, dt: real)
    requires Consistent(c) && dt >= 0.0
    ensures var c1 := Throttle(CountDownBoost(c, dt), ctl.accel, dt);
      && Consistent(c1)
      && c1.drifting == c.drifting
      && c1 == c.(speed := c1.speed, acceleration := c1.acceleration,
                  boostTime := c1.boostTime, boostFactor := c1.boostFactor)
      && ReverseLimit <= c1.speed <= MaxSpeed(c1.boostFactor)
  {
    var c0 := CountDownBoost(c, dt);
    assert MaxSpeed(c0.boostFactor) <= BaseMaxSpeed * MaxBoostFactor;
  }

  /** A frame with a nonnegative delta keeps every invariant and never
      lowers the score. */
  lemma TickPreservesConsistency(c: CarState, score: int, ctl: Controls, dt: real, inZone: bool)
    requires Consistent(c) && dt >= 0.0
    ensures Consistent(Tick(c, score, ctl, dt, inZone).0)
    ensures Tick(c, score, ctl, dt, inZone).1 >= score
  {
    SpeedStepFacts(c, ctl, dt);
    var c1 := Throttle(CountDownBoost(c, dt), ctl.accel, dt);
    if ctl.drift > 0.0 && CanDrift(c1.speed, ctl.steer) {
      var c2 := if c1.drifting then c1 else StartDrift(c1, ctl.steer);
      AccrueDriftFacts(c2, ctl.steer, dt, inZone);
    } else if c1.drifting {
      ExitDriftFacts(c1, score);
    }
  }

  /** The car drifts after a frame exactly when the drift input is held and
      the clamped speed and the steer pass the drift test; a new drift starts
      in the direction of the steer. */
  lemma TickDriftingIff(c: CarState, score: int, ctl: Controls, dt: real, inZone: bool)
    ensures var c1 := Throttle(CountDownBoost(c, dt), ctl.accel, dt);
      var r := Tick(c, score, ctl, dt, inZone);
      && (r.0.drifting <==> ctl.drift > 0.0 && CanDrift(c1.speed, ctl.steer))
      && (r.0.drifting && !c.drifting ==>
            r.0.driftDirection == Sign(ctl.steer) && r.0.driftTime == dt && r.0.driftInitialSpeed == c1.speed)
      && (r.0.drifting && c.drifting ==> r.0.driftDirection == c.driftDirection)
  {
  }

  /** While a drift is held the drift score never falls, and the game score
      is untouched until the drift is banked. */
  lemma TickDriftScoreGrows(c: CarState, score: int, ctl: Controls, dt: real, inZone: bool)
    requires Consistent(c) && c.drifting && dt >= 0.0
    ensures var r := Tick(c, score, ctl, dt, inZone);
      r.0.drifting ==> r.0.driftScore >= c.driftScore && r.1 == score
  {
    SpeedStepFacts(c, ctl, dt);
    var c1 := Throttle(CountDownBoost(c, dt), ctl.accel, dt);
    if ctl.drift > 0.0 && CanDrift(c1.speed, ctl.steer) {
      AccrueDriftFacts(c1, ctl.steer, dt, inZone);
    }
  }

  /** Letting go of a drift banks `floor(driftScore * multiplier)` when the
      drift scored, grants the reward boost exactly when it lasted over a
      second with more than 100 points, and resets every drift field. */
  lemma TickBanksOnExit(c: CarState, score: int, ctl: Controls, dt: real, inZone: bool)
    requires Consistent(c) && c.drifting && dt >= 0.0
    ensures var c1 := Throttle(CountDownBoost(c, dt), ctl.accel, dt);
      var r := Tick(c, score, ctl, dt, inZone);
      !r.0.drifting ==>
        && r.1 == score + (if c.driftScore > 0.0 then Banked(c) else 0)
        && NoDrift(r.0)
        && (EarnsBoost(c) ==> r.0.boostTime == RewardBoost(c).duration && r.0.boostFactor == RewardBoost(c).factor)
        && (!EarnsBoost(c) ==> r.0.boostTime == c1.boostTime && r.0.boostFactor == c1.boostFactor)
  {
    SpeedStepFacts(c, ctl, dt);
    var c1 := Throttle(CountDownBoost(c, dt), ctl.accel, dt);
    if !(ctl.drift > 0.0 && CanDrift(c1.speed, ctl.steer)) {
      ExitDriftFacts(c1, score);
    }
  }

  // ---------------------------------------------------------------- collisions

  /** `handleCollision`: an impact of half the speed; above 5 it costs ten
      points per unit (never below zero), banks a running drift and resets
      the drift. Below it nothing changes. */
  function Collide(c: CarState, score: int): (r: (CarState, int))
    ensures var impact := c.speed * 0.5;
      && (impact <= 5.0 ==> r == (c, score))
      && (impact > 5.0 ==> !r.0.drifting && NoDrift(r.0))
      && (impact > 5.0 ==> r.0 == ResetDrift(c))
  {
    var impact := c.speed * 0.5;
    if impact > 5.0 then
      var penalised := Max(0.0, (score - (impact * 10.0).Floor) as real).Floor;
      var banked := if c.drifting && c.driftScore > 0.0 then Banked(c) else 0;
      (ResetDrift(c), penalised + banked)
    else (c, score)
  }

  lemma CollideFacts(c: CarState, score: int)
    requires Consistent(c)
    ensures var r := Collide(c, score);
      && Consistent(r.0)
      && (c.speed * 0.5 > 5.0 ==>
            r.1 == Max(0.0, (score - (c.speed * 0.5 * 10.0).Floor) as real).Floor
                   + (if c.drifting && c.driftScore > 0.0 then Banked(c) else 0))
      && (score >= 0 ==> r.1 >= 0)
  {
    if c.drifting {
      assert c.driftScore.Floor >= 0;
    }
  }

  // ---------------------------------------------------------------- the scene

  class ClassicScene {
    var car: CarState
    var gameScore: int

    constructor ()
      ensures car == InitialCarState() && gameScore == 0
    {
      car := InitialCarState();
      gameScore := 0;
    }

    /** The space key flips the control mode and nothing else. */
    method ToggleControlMode()
      modifies this`car
      ensures car == old(car).(controlMode := ToggleMode(old(car).controlMode))
    {
      car := car.(controlMode := ToggleMode(car.controlMode));
    }

    /** One frame of the embedded `update`; `delta` is in milliseconds and
        `inZone` says whether the car lies in a drift-zone rectangle. */
    method Update(keys: Keys, pointer: Option<Pointer>, delta: real, inZone: bool)
      modifies this`car, this`gameScore
      ensures (car, gameScore) ==
              Tick(old(car), old(gameScore), ReadControls(old(car).controlMode, keys, pointer), delta / 1000.0, inZone)
      ensures old(Consistent(car)) && delta >= 0.0 ==> Consistent(car) && gameScore >= old(gameScore)
    {
      var dt := delta / 1000.0;
      var ctl := ReadControls(car.controlMode, keys, pointer);
      if Consistent(car) && dt >= 0.0 {
        TickPreservesConsistency(car, gameScore, ctl, dt, inZone);
      }
      var next := Tick(car, gameScore, ctl, dt, inZone);
      car, gameScore := next.0, next.1;
    }

    method HandleCollision()
      modifies this`car, this`gameScore
      ensures (car, gameScore) == Collide(old(car), old(gameScore))
      ensures old(Consistent(car)) ==> Consistent(car)
      ensures old(Consistent(car)) && old(gameScore) >= 0 ==> gameScore >= 0
    {
      if Consistent(car) {
        CollideFacts(car, gameScore);
      }
      var next := Collide(car, gameScore);
      car, gameScore := next.0, next.1;
    }
  }
}
