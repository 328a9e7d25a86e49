/** `CarController` of game/objects/car-controller.ts: car stats derived from
    the upgrade levels, clamped input setters, the keyboard reading, the
    speed/drift/heading integration of `applyPhysics`, and the boost that
    `applyBoost` installs and a detached timer later removes. The velocity
    vector (cosine and sine of the heading), the sprite, particles and sounds
    are not modelled. */
module CarControl {
  import opened JsMath
  import opened PlayerProfile

  datatype CarStats = CarStats(maxSpeed: real, acceleration: real, handling: real, driftFactor: real)

  /** The stats the constructor derives from the saved upgrade levels. */
  function StatsFor(u: Upgrades): (s: CarStats)
    ensures s.maxSpeed == 300.0 + u.engine as real * 30.0
    ensures s.acceleration == 200.0 + u.engine as real * 20.0
    ensures s.handling == 2.5 + u.handling as real * 0.3
    ensures s.driftFactor == 0.7 + u.tires as real * 0.06
  {
    CarStats(300.0 + u.engine as real * 30.0, 200.0 + u.engine as real * 20.0,
             2.5 + u.handling as real * 0.3, 0.7 + u.tires as real * 0.06)
  }

  predicate StatsInRange(s: CarStats)
  {
    s.maxSpeed > 0.0 && s.acceleration >= 0.0 && s.handling >= 0.0 && s.driftFactor >= 0.0
  }

  /** Every upgrade level gives usable stats, and buying a level never makes
      a stat worse. */
  lemma StatsMonotone(u: Upgrades, v: Upgrades)
    requires u.engine <= v.engine && u.tires <= v.tires && u.handling <= v.handling
    ensures StatsInRange(StatsFor(u)) && StatsFor(u).maxSpeed >= 300.0
    ensures StatsFor(u).maxSpeed <= StatsFor(v).maxSpeed
    ensures StatsFor(u).acceleration <= StatsFor(v).acceleration
    ensures StatsFor(u).handling <= StatsFor(v).handling
    ensures StatsFor(u).driftFactor <= StatsFor(v).driftFactor
  {
  }

  // ---------------------------------------------------------------- inputs

  datatype Inputs = Inputs(throttle: real, brake: real, steer: real, drift: real)

  predicate InputsInRange(i: Inputs)
  {
    0.0 <= i.throttle <= 1.0 && 0.0 <= i.brake <= 1.0 && -1.0 <= i.steer <= 1.0 && 0.0 <= i.drift <= 1.0
  }

  datatype Keys = Keys(up: bool, down: bool, left: bool, right: bool, shift: bool)

  /** `handleInput`: held keys force throttle and brake to 1 and a released
      key drops an input of exactly 1 back to 0, leaving any other value
      alone; steering follows the arrows, left first; the drift input
      follows shift. Without a keyboard nothing changes. */
  function ReadKeys(prev: Inputs, keys: Option<Keys>): (r: Inputs)
    ensures keys.None? ==> r == prev
    ensures keys.Some? && keys.value.up ==> r.throttle == 1.0
    ensures keys.Some? && !keys.value.up && prev.throttle == 1.0 ==> r.throttle == 0.0
    ensures keys.Some? && !keys.value.up && prev.throttle != 1.0 ==> r.throttle == prev.throttle
    ensures keys.Some? && keys.value.down ==> r.brake == 1.0
    ensures keys.Some? && !keys.value.down && prev.brake == 1.0 ==> r.brake == 0.0
    ensures keys.Some? && !keys.value.down && prev.brake != 1.0 ==> r.brake == prev.brake
    ensures keys.Some? && keys.value.left ==> r.steer == -1.0
    ensures keys.Some? && !keys.value.left && keys.value.right ==> r.steer == 1.0
    ensures keys.Some? ==> (r.steer == 0.0 <==> !keys.value.left && !keys.value.right)
    ensures keys.Some? ==> r.drift == (if keys.value.shift then 1.0 else 0.0)
  {
    match keys
    case None => prev
    case Some(k) =>
      Inputs(if k.up then 1.0 else if prev.throttle == 1.0 then 0.0 else prev.throttle,
             if k.down then 1.0 else if prev.brake == 1.0 then 0.0 else prev.brake,
             if k.left then -1.0 else if k.right then 1.0 else 0.0,
             if k.shift then 1.0 else 0.0)
  }

  /** The on-screen buttons only ever write 0 or 1 (and steering -1, 0 or
      1). Once a keyboard exists, the next `handleInput` erases every such
      value: the inputs `applyPhysics` sees are those of the keys alone, as
      if every input had been 0. */
  lemma ButtonInputsOverridden(prev: Inputs, k: Keys)
    requires prev.throttle == 0.0 || prev.throttle == 1.0
    requires prev.brake == 0.0 || prev.brake == 1.0
    ensures ReadKeys(prev, Some(k)) == ReadKeys(Inputs(0.0, 0.0, 0.0, 0.0), Some(k))
    ensures !k.up && !k.down && !k.left && !k.right && !k.shift ==>
              ReadKeys(prev, Some(k)) == Inputs(0.0, 0.0, 0.0, 0.0)
  {
  }

  /** Reading the keyboard keeps every input in its range. */
  lemma ReadKeysInRange(prev: Inputs, keys: Option<Keys>)
    requires InputsInRange(prev)
    ensures InputsInRange(ReadKeys(prev, keys))
  {
  }

  // ---------------------------------------------------------------- physics

  /** The part of the controller `applyPhysics` integrates. */
  datatype Motion = Motion(speed: real, direction: real, drifting: bool, driftFactor: real, driftDirection: int)

  /** The boost multiplier in force: the boost factor while boosting. */
  function BoostMultiplier(boosting: bool, boostFactor: real): real
  {
    if boosting then boostFactor else 1.0
  }

  /** Throttle or a 2% roll-off, then the brake, then the clamp to
      [0, maxSpeed]. */
  function SpeedStep(speed: real, i: Inputs, stats: CarStats, boost: real, dt: real): (s: real)
    ensures s >= 0.0
    ensures stats.maxSpeed * boost >= 0.0 ==> s <= stats.maxSpeed * boost
  {
    Clamp(Brake(Accelerate(speed, i.throttle, stats.acceleration * boost, dt), i.brake, stats.acceleration, dt),
          0.0, stats.maxSpeed * boost)
  }

  /** Throttle pushes by `throttle * acceleration * boost` per second; with
      no throttle the car rolls off 2% per frame. */
  function Accelerate(speed: real, throttle: real, acceleration: real, dt: real): real
  {
    if throttle > 0.0 then speed + throttle * acceleration * dt else speed * 0.98
  }

  /** The brake takes off `brake * acceleration * 1.5` per second. */
  function Brake(speed: real, brake: real, acceleration: real, dt: real): real
  {
    if brake > 0.0 then speed - brake * acceleration * 1.5 * dt else speed
  }

  /** With neither throttle nor brake a car within the limit loses exactly
      2% of its speed. */
  lemma CoastingLosesTwoPercent(speed: real, i: Inputs, stats: CarStats, boost: real, dt: real)
    requires i.throttle <= 0.0 && i.brake <= 0.0
    requires 0.0 <= speed <= stats.maxSpeed * boost
    ensures SpeedStep(speed, i, stats, boost, dt) == speed * 0.98
  {
  }

  /** Braking without throttle never leaves the car faster than coasting
      would. */
  lemma BrakingSlowsMore(speed: real, i: Inputs, stats: CarStats, boost: real, dt: real)
    requires i.throttle <= 0.0 && i.brake > 0.0 && stats.acceleration >= 0.0 && dt >= 0.0
    requires 0.0 <= speed <= stats.maxSpeed * boost
    ensures SpeedStep(speed, i, stats, boost, dt) <= speed * 0.98
  {
    var brakeForce := i.brake * stats.acceleration * 1.5;
    MulMono(i.brake, stats.acceleration, i.brake, stats.acceleration);
    assert brakeForce >= 0.0;
    MulMono(brakeForce, dt, brakeForce, dt);
    assert Brake(speed * 0.98, i.brake, stats.acceleration, dt) == speed * 0.98 - brakeForce * dt;
  }

  /** The drift test on the clamped speed. */
  predicate DriftHeld(i: Inputs, speed: real, maxSpeed: real)
  {
    i.drift > 0.0 && speed > maxSpeed * 0.4 && Abs(i.steer) > 0.5
  }

  /** Enter or hold a drift (direction fixed on entry, factor growing by 2
      per second up to five times the tire stat), or leave it (factor
      shrinking by 4 per second down to 0). */
  function DriftStep(m: Motion, i: Inputs, maxSpeed: real, tireFactor: real, dt: real): (r: Motion)
    ensures r.speed == m.speed && r.direction == m.direction
    ensures r.drifting == DriftHeld(i, m.speed, maxSpeed)
    ensures r.driftDirection == if r.drifting && !m.drifting then Sign(i.steer) else m.driftDirection
  {
    if DriftHeld(i, m.speed, maxSpeed) then
      m.(drifting := true,
         driftDirection := if !m.drifting then Sign(i.steer) else m.driftDirection,
         driftFactor := Min(m.driftFactor + dt * 2.0, tireFactor * 5.0))
    else
      m.(drifting := false, driftFactor := Max(m.driftFactor - dt * 4.0, 0.0))
  }

  /** The turning rate: steer times handling, fading to half at top speed. */
  function SteeringForce(steer: real, handling: real, speed: real, maxSpeed: real): real
    requires maxSpeed != 0.0
  {
    steer * handling * (1.0 - (speed / maxSpeed) * 0.5)
  }

  /** Within the speed range the turning rate never exceeds the handling
      stat and keeps at least half of it. */
  lemma SteeringForceBounds(steer: real, handling: real, speed: real, maxSpeed: real)
    requires maxSpeed > 0.0 && 0.0 <= speed <= maxSpeed && handling >= 0.0 && -1.0 <= steer <= 1.0
    ensures Abs(SteeringForce(steer, handling, speed, maxSpeed)) <= handling
    ensures Abs(SteeringForce(steer, handling, speed, maxSpeed)) >= Abs(steer) * handling * 0.5
  {
    var a, f := SteeringFactors(steer, handling, speed, maxSpeed);
    ScaleBetween(a, f, 0.5, 1.0);
    assert a * f <= a * 1.0;
    assert a * 1.0 == a;
    assert a * f <= handling;
  }

  /** The steering force as the steering share of handling, `a`, times the
      speed fade, `f`. */
  lemma SteeringFactors(steer: real, handling: real, speed: real, maxSpeed: real) returns (a: real, f: real)
    requires maxSpeed > 0.0 && 0.0 <= speed <= maxSpeed && handling >= 0.0 && -1.0 <= steer <= 1.0
    ensures a == Abs(steer) * handling && 0.0 <= a <= handling && 0.5 <= f <= 1.0
    ensures Abs(SteeringForce(steer, handling, speed, maxSpeed)) == a * f
  {
    f := 1.0 - (speed / maxSpeed) * 0.5;
    assert speed / maxSpeed <= 1.0 by {
      assert speed <= maxSpeed;
    }
    a := Abs(steer) * handling;
    ScaleBetween(handling, Abs(steer), 0.0, 1.0);
    assert a == handling * Abs(steer);
    assert SteeringForce(steer, handling, speed, maxSpeed) == steer * handling * f;
  }

  /** Turn the heading: by `steeringForce * dt`, half again as much while
      drifting. */
  function Turn(m: Motion, force: real, dt: real): (r: Motion)
    ensures r == m.(direction := r.direction)
  {
    m.(direction := if m.drifting then m.direction + force * dt * 1.5 else m.direction + force * dt)
  }

  /** One `applyPhysics` step at boost multiplier `boost`. */
  function Physics(m: Motion, i: Inputs, stats: CarStats, boost: real, dt: real): Motion
    requires stats.maxSpeed * boost != 0.0
  {
    var maxSpeed := stats.maxSpeed * boost;
    var speed := SpeedStep(m.speed, i, stats, boost, dt);
    var force := SteeringForce(i.steer, stats.handling, speed, maxSpeed);
    Turn(DriftStep(m.(speed := speed), i, maxSpeed, stats.driftFactor, dt), force, dt)
  }

  /** `Physics` assembled from its steps. */
  lemma PhysicsFromSteps(m: Motion, i: Inputs, stats: CarStats, boost: real, dt: real,
                         s: real, d: Motion, force: real, r: Motion)
    requires stats.maxSpeed * boost > 0.0
    requires s == SpeedStep(m.speed, i, stats, boost, dt)
    requires d == DriftStep(m.(speed := s), i, stats.maxSpeed * boost, stats.driftFactor, dt)
    requires force == SteeringForce(i.steer, stats.handling, s, stats.maxSpeed * boost)
    requires r == Turn(d, force, dt)
    requires StatsInRange(stats) && boost > 0.0 && dt >= 0.0 && MotionInRange(m, stats)
    ensures r == Physics(m, i, stats, boost, dt)
    ensures MotionInRange(r, stats) && 0.0 <= r.speed <= stats.maxSpeed * boost
  {
    PhysicsSteps(m, i, stats, boost, dt);
    DriftThenTurn(m.(speed := s), i, stats, stats.maxSpeed * boost, dt);
  }

  predicate MotionInRange(m: Motion, stats: CarStats)
  {
    && 0.0 <= m.speed
    && 0.0 <= m.driftFactor <= stats.driftFactor * 5.0
    && -1 <= m.driftDirection <= 1
    && (m.drifting ==> m.driftDirection != 0)
  }

  /** What a physics step promises: speed within [0, maxSpeed]; drifting
      exactly when the drift test passes on the new speed; a direction fixed
      on entry; a drift factor that stays in [0, 5 * tire stat], growing by
      2 per second while drifting and shrinking by 4 per second otherwise;
      and a heading advanced by the steering force, scaled by 1.5 while
      drifting. */
  lemma PhysicsFacts(m: Motion, i: Inputs, stats: CarStats, boost: real, dt: real)
    requires StatsInRange(stats) && boost > 0.0 && dt >= 0.0 && MotionInRange(m, stats)
    ensures var maxSpeed := stats.maxSpeed * boost;
      var r := Physics(m, i, stats, boost, dt);
      && MotionInRange(r, stats)
      && 0.0 <= r.speed <= maxSpeed
      && r.speed == SpeedStep(m.speed, i, stats, boost, dt)
      && (r.drifting <==> DriftHeld(i, r.speed, maxSpeed))
      && r.driftDirection == (if r.drifting && !m.drifting then Sign(i.steer) else m.driftDirection)
      && (r.drifting ==> r.driftFactor == Min(m.driftFactor + dt * 2.0, stats.driftFactor * 5.0))
      && (!r.drifting ==> r.driftFactor == Max(m.driftFactor - dt * 4.0, 0.0))
      && var force := SteeringForce(i.steer, stats.handling, r.speed, maxSpeed);
         r.direction == m.direction + (if r.drifting then force * dt * 1.5 else force * dt)
  {
    MulPos(stats.maxSpeed, boost);
    var maxSpeed := stats.maxSpeed * boost;
    var speed := SpeedStep(m.speed, i, stats, boost, dt);
    PhysicsSteps(m, i, stats, boost, dt);
    DriftThenTurn(m.(speed := speed), i, stats, maxSpeed, dt);
  }

  /** `Physics` as its three steps. */
  lemma PhysicsSteps(m: Motion, i: Inputs, stats: CarStats, boost: real, dt: real)
    requires stats.maxSpeed * boost != 0.0
    ensures var maxSpeed := stats.maxSpeed * boost;
      var speed := SpeedStep(m.speed, i, stats, boost, dt);
      Physics(m, i, stats, boost, dt)
        == Turn(DriftStep(m.(speed := speed), i, maxSpeed, stats.driftFactor, dt),
                SteeringForce(i.steer, stats.handling, speed, maxSpeed), dt)
  {
  }

  /** The drift step and the turn at an already clamped speed: the motion
      stays in range, the drift factor moves by its rate and the heading by
      the steering force, half again as much while drifting. */
  lemma DriftThenTurn(m: Motion, i: Inputs, stats: CarStats, maxSpeed: real, dt: real)
    requires StatsInRange(stats) && maxSpeed > 0.0 && dt >= 0.0 && MotionInRange(m, stats)
    ensures var force := SteeringForce(i.steer, stats.handling, m.speed, maxSpeed);
      var r := Turn(DriftStep(m, i, maxSpeed, stats.driftFactor, dt), force, dt);
      && MotionInRange(r, stats)
      && r.speed == m.speed
      && (r.drifting <==> DriftHeld(i, m.speed, maxSpeed))
      && r.driftDirection == (if r.drifting && !m.drifting then Sign(i.steer) else m.driftDirection)
      && (r.drifting ==> r.driftFactor == Min(m.driftFactor + dt * 2.0, stats.driftFactor * 5.0))
      && (!r.drifting ==> r.driftFactor == Max(m.driftFactor - dt * 4.0, 0.0))
      && r.direction == m.direction + (if r.drifting then force * dt * 1.5 else force * dt)
  {
  }

  /** The speed statements of `applyPhysics`. */
  method NextSpeed(speed: real, i: Inputs, stats: CarStats, boost: real, dt: real) returns (s: real)
    ensures s == SpeedStep(speed, i, stats, boost, dt)
  {
    s := Accelerate(speed, i.throttle, stats.acceleration * boost, dt);
    s := Brake(s, i.brake, stats.acceleration, dt);
    s := Clamp(s, 0.0, stats.maxSpeed * boost);
  }

  /** The drift statements of `applyPhysics`. */
  method NextDrift(m: Motion, i: Inputs, maxSpeed: real, tireFactor: real, dt: real) returns (r: Motion)
    ensures r == DriftStep(m, i, maxSpeed, tireFactor, dt)
  {
    r := m;
    if i.drift > 0.0 && m.speed > maxSpeed * 0.4 && Abs(i.steer) > 0.5 {
      if !r.drifting {
        r := r.(drifting := true, driftDirection := Sign(i.steer));
      }
      r := r.(driftFactor := Min(r.driftFactor + dt * 2.0, tireFactor * 5.0));
    } else {
      if r.drifting {
        r := r.(drifting := false);
      }
      r := r.(driftFactor := Max(r.driftFactor - dt * 4.0, 0.0));
    }
  }

  /** The statements of `applyPhysics`, on the controller's motion. */
  method Integrate(m: Motion, i: Inputs, stats: CarStats, boost: real, dt: real) returns (r: Motion)
    requires StatsInRange(stats) && boost > 0.0 && dt >= 0.0 && MotionInRange(m, stats)
    ensures r == Physics(m, i, stats, boost, dt)
    ensures MotionInRange(r, stats) && r.speed <= stats.maxSpeed * boost
  {
    MulPos(stats.maxSpeed, boost);
    var maxSpeed := stats.maxSpeed * boost;
    var s := NextSpeed(m.speed, i, stats, boost, dt);
    var steeringForce := SteeringForce(i.steer, stats.handling, s, maxSpeed);
    var d := NextDrift(m.(speed := s), i, maxSpeed, stats.driftFactor, dt);
    var heading := d.direction;
    if d.drifting {
      heading := heading + steeringForce * dt * 1.5;
    } else {
      heading := heading + steeringForce * dt;
    }
    r := d.(direction := heading);
    PhysicsFromSteps(m, i, stats, boost, dt, s, d, steeringForce, r);
  }

  /** The statements of `handleInput`, on the controller's inputs. */
  method NextInputs(prev: Inputs, keys: Option<Keys>) returns (r: Inputs)
    ensures r == ReadKeys(prev, keys)
  {
    r := prev;
    if keys.Some? {
      var k := keys.value;
      if k.up {
        r := r.(throttle := 1.0);
      } else if !k.up && r.throttle == 1.0 {
        r := r.(throttle := 0.0);
      }
      if k.down {
        r := r.(brake := 1.0);
      } else if !k.down && r.brake == 1.0 {
        r := r.(brake := 0.0);
      }
      if k.left {
        r := r.(steer := -1.0);
      } else if k.right {
        r := r.(steer := 1.0);
      } else if !k.left && !k.right {
        r := r.(steer := 0.0);
      }
      if k.shift {
        r := r.(drift := 1.0);
      } else {
        r := r.(drift := 0.0);
      }
    }
  }

  // ---------------------------------------------------------------- the controller

  class CarController {
    var speed: real
    var direction: real
    var drifting: bool
    var driftFactor: real
    var driftDirection: int
    const stats: CarStats
    var throttleInput: real
    var brakeInput: real
    var steeringInput: real
    var driftInput: real
    var boosting: bool
    var boostFactor: real
    /** The pending expiry of the last boost, in milliseconds, if any. */
    var boostTimer: Option<real>

    function MotionOf(): Motion
      reads this
    {
      Motion(speed, direction, drifting, driftFactor, driftDirection)
    }

    function InputsOf(): Inputs
      reads this
    {
      Inputs(throttleInput, brakeInput, steeringInput, driftInput)
    }

    ghost predicate Valid()
      reads this
    {
      && StatsInRange(stats)
      && InputsInRange(InputsOf())
      && boostFactor > 0.0
      && MotionInRange(MotionOf(), stats)
    }

    constructor (upgrades: Upgrades)
      ensures Valid()
      ensures stats == StatsFor(upgrades)
      ensures MotionOf() == Motion(0.0, 0.0, false, 0.0, 0)
      ensures InputsOf() == Inputs(0.0, 0.0, 0.0, 0.0)
      ensures !boosting && boostFactor == 1.0 && boostTimer == None
    {
      speed, direction, drifting, driftFactor, driftDirection := 0.0, 0.0, false, 0.0, 0;
      stats := StatsFor(upgrades);
      throttleInput, brakeInput, steeringInput, driftInput := 0.0, 0.0, 0.0, 0.0;
      boosting, boostFactor, boostTimer := false, 1.0, None;
      StatsMonotone(upgrades, upgrades);
    }

    method SetThrottleInput(value: real)
      requires Valid()
      modifies this`throttleInput
      ensures Valid() && throttleInput == Clamp(value, 0.0, 1.0)
    {
      throttleInput := Clamp(value, 0.0, 1.0);
    }

    method SetBrakeInput(value: real)
      requires Valid()
      modifies this`brakeInput
      ensures Valid() && brakeInput == Clamp(value, 0.0, 1.0)
    {
      brakeInput := Clamp(value, 0.0, 1.0);
    }

    method SetSteeringInput(value: real)
      requires Valid()
      modifies this`steeringInput
      ensures Valid() && steeringInput == Clamp(value, -1.0, 1.0)
    {
      steeringInput := Clamp(value, -1.0, 1.0);
    }

    method SetDriftInput(value: real)
      requires Valid()
      modifies this`driftInput
      ensures Valid() && driftInput == Clamp(value, 0.0, 1.0)
    {
      driftInput := Clamp(value, 0.0, 1.0);
    }

    /** A new boost overwrites the factor and replaces any pending expiry;
        boosts do not stack. The factor must be positive (the only caller
        passes 1.5), since the top speed is divided by. */
    method ApplyBoost(factor: real, duration: real)
      requires Valid() && factor > 0.0
      modifies this`boosting, this`boostFactor, this`boostTimer
      ensures Valid() && boosting && boostFactor == factor && boostTimer == Some(duration)
    {
      boosting := true;
      boostFactor := factor;
      boostTimer := Some(duration);
    }

    /** The detached timer firing. */
    method ExpireBoost()
      requires Valid()
      modifies this`boosting, this`boostFactor, this`boostTimer
      ensures Valid() && !boosting && boostFactor == 1.0 && boostTimer == None
    {
      boosting := false;
      boostFactor := 1.0;
      boostTimer := None;
    }

    method HandleInput(keys: Option<Keys>)
      requires Valid()
      modifies this`throttleInput, this`brakeInput, this`steeringInput, this`driftInput
      ensures Valid() && InputsOf() == ReadKeys(old(InputsOf()), keys)
    {
      ReadKeysInRange(InputsOf(), keys);
      var r := NextInputs(InputsOf(), keys);
      throttleInput, brakeInput, steeringInput, driftInput := r.throttle, r.brake, r.steer, r.drift;
    }

    method ApplyPhysics(dt: real)
      requires Valid() && dt >= 0.0
      modifies this`speed, this`direction, this`drifting, this`driftFactor, this`driftDirection
      ensures Valid()
      ensures MotionOf() == Physics(old(MotionOf()), InputsOf(), stats, BoostMultiplier(boosting, boostFactor), dt)
    {
      var r := Integrate(MotionOf(), InputsOf(), stats, BoostMultiplier(boosting, boostFactor), dt);
      speed, direction, drifting, driftFactor, driftDirection := r.speed, r.direction, r.drifting, r.driftFactor, r.driftDirection;
    }

    /** `update(delta)`: read the keys, then integrate over the frame. */
    method Update(delta: real, keys: Option<Keys>)
      requires Valid() && delta >= 0.0
      modifies this
      ensures Valid()
      ensures InputsOf() == ReadKeys(old(InputsOf()), keys)
      ensures MotionOf() == Physics(old(MotionOf()), InputsOf(), stats, BoostMultiplier(boosting, boostFactor), delta / 1000.0)
      ensures boosting == old(boosting) && boostFactor == old(boostFactor) && boostTimer == old(boostTimer)
    {
      HandleInput(keys);
      ApplyPhysics(delta / 1000.0);
    }
  }
}
