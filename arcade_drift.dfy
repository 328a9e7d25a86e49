/** The arcade drift tick of src/components/game.tsx: the car-state record the
    scene's `update` rewrites once per frame, the surface grid it reads, the
    style meter and boost it feeds, the score it pays into, and the two bounded
    queues it keeps. Velocity, rotation and every trigonometric term belong to
    Phaser's physics body and are not modelled; the magnitude of the body's
    velocity enters each tick as `measuredSpeed`. */
module ArcadeDrift {
  import opened JsMath

  const SpeedThreshold: real := 80.0
  const DefaultStyleLimit: real := 1000.0
  const BoostMinStyle: real := 250.0
  const HistoryWindowMs: real := 1000.0
  const MaxTireTracks: nat := 300
  const GridCell: real := 100.0
  const RollingResistance: real := 20.0
  const CoinValue: int := 100

  // ---------------------------------------------------------------- inputs

  /** Keys held this frame, arrow keys and WASD already merged. */
  datatype Keys = Keys(up: bool, down: bool, left: bool, right: bool, space: bool, shift: bool)

  /** The numeric controls `update` derives from the keys. */
  datatype Controls = Controls(accel: real, brake: real, handbrake: bool, boost: bool, steer: real)

  function ReadControls(k: Keys): (c: Controls)
    ensures c.steer == -1.0 <==> k.left
    ensures c.steer == 1.0 <==> !k.left && k.right
    ensures c.steer == 0.0 <==> !k.left && !k.right
    ensures c.accel == (if k.up then 1.0 else 0.0)
    ensures c.brake == (if k.down then 0.75 else 0.0)
    ensures c.handbrake == k.space && c.boost == k.shift
  {
    Controls(if k.up then 1.0 else 0.0,
             if k.down then 0.75 else 0.0,
             k.space,
             k.shift,
             if k.left then -1.0 else if k.right then 1.0 else 0.0)
  }

  /** Everything one call of `update` consumes besides the scene state: the
      frame time and delta in milliseconds, the keys, the car position, the
      magnitude of the physics body's velocity and whether any drift-zone
      segment lies within 150 units. */
  datatype TickInput = TickInput(time: real, delta: real, keys: Keys, x: real, y: real,
                                 measuredSpeed: real, inDriftZone: bool)

  /** The frames the model's invariants are stated for: at most a third of a
      second long, with a body speed of at most 800 (the body's velocity is
      capped at 300 per axis, so about 424 in practice). In this regime each
      smoothing step of the slip angle stays between its start and its target. */
  predicate FrameInRange(ti: TickInput)
  {
    0.0 <= ti.delta <= 1000.0 / 3.0 && 0.0 <= ti.measuredSpeed <= 800.0
  }

  // ---------------------------------------------------------------- state

  datatype CarState = CarState(
    speed: real,
    drifting: bool,
    driftPower: real,
    driftDirection: int,
    driftDuration: real,
    boostTime: real,
    boostPower: real,
    inDriftZone: bool,
    driftMomentum: real,
    currentGrip: real,
    weightTransfer: real,
    lastSteeringInput: real,
    steeringResponseDelay: real,
    slipAngle: real,
    styleMeter: real,
    styleLimit: real,
    tireSmokeIntensity: real,
    handbrakeWasPressed: bool,
    handbrakeJustPressed: bool,
    wasJustDrifting: bool,
    driftKickApplied: bool)

  /** The record `create` installs. */
  function InitialCarState(): (c: CarState)
    ensures Consistent(c) && !c.drifting && c.styleMeter == 0.0 && c.boostPower == 1.0
  {
    CarState(0.0, false, 0.0, 0, 0.0, 0.0, 1.0, false, 0.0, 1.0, 0.0, 0.0, 0.0, 0.0,
             0.0, DefaultStyleLimit, 0.0, false, false, false, false)
  }

  /** What every tick in range preserves. */
  predicate Consistent(c: CarState)
  {
    && c.styleLimit == DefaultStyleLimit
    && 0.0 <= c.styleMeter <= c.styleLimit
    && 0.0 <= c.driftPower <= 1.0
    && 0.0 <= c.driftMomentum <= 1.0
    && c.driftDuration >= 0.0
    && c.speed >= 0.0
    && 0.0 <= c.slipAngle <= 1.0
    && c.boostTime >= 0.0
    && c.boostPower >= 1.0
    && (c.boostTime == 0.0 ==> c.boostPower == 1.0)
    && -1 <= c.driftDirection <= 1
    && (c.drifting ==> c.driftDirection != 0)
    && (c.driftKickApplied ==> c.drifting)
  }

  // ---------------------------------------------------------------- surface grid

  type SurfaceGrid = map<(int, int), real>

  /** The grid cell `floor(x/100), floor(y/100)` that contains the point. */
  function GridKey(x: real, y: real): (key: (int, int))
    ensures key.0 as real * GridCell <= x < (key.0 + 1) as real * GridCell
    ensures key.1 as real * GridCell <= y < (key.1 + 1) as real * GridCell
  {
    ((x / GridCell).Floor, (y / GridCell).Floor)
  }

  /** `roadSurfaces[gridKey] || 1.0`: the grip stored for the cell holding the
      car, or normal grip 1.0 when the cell holds none (or a falsy 0). */
  function SurfaceGrip(grid: SurfaceGrid, x: real, y: real): (g: real)
    ensures GridKey(x, y) !in grid ==> g == 1.0
    ensures GridKey(x, y) in grid && grid[GridKey(x, y)] != 0.0 ==> g == grid[GridKey(x, y)]
    ensures (forall k | k in grid :: grid[k] > 0.0) ==> g > 0.0
  {
    var key := GridKey(x, y);
    if key in grid && grid[key] != 0.0 then grid[key] else 1.0
  }

  function SpeedGripFactor(speed: real): real { Max(0.6, 1.0 - speed / 500.0) }

  function TurnGripFactor(steer: real): real { Max(0.5, 1.0 - Abs(steer) * 0.3) }

  /** Surface grip times the speed falloff times the turn falloff. */
  function CurrentGrip(surface: real, speed: real, steer: real): real
  {
    surface * SpeedGripFactor(speed) * TurnGripFactor(steer)
  }

  /** Grip stays between 42% and 100% of the surface grip for any speed and
      any steering in [-1, 1]. */
  lemma GripBounds(surface: real, speed: real, steer: real)
    requires surface >= 0.0 && speed >= 0.0 && -1.0 <= steer <= 1.0
    ensures 0.42 * surface <= CurrentGrip(surface, speed, steer) <= surface
  {
    var sf, tf := SpeedGripFactor(speed), TurnGripFactor(steer);
    assert 0.6 <= sf <= 1.0;
    assert 0.7 <= tf <= 1.0;
    FactorProductBounds(surface, sf, tf);
    assert CurrentGrip(surface, speed, steer) == surface * sf * tf;
  }

  lemma FactorProductBounds(s: real, a: real, b: real)
    requires s >= 0.0 && 0.6 <= a <= 1.0 && 0.7 <= b <= 1.0
    ensures 0.42 * s <= s * a * b
    ensures s * a * b <= s
  {
    ScaleBetween(s, a, 0.6, 1.0);
    ScaleBetween(s * a, b, 0.7, 1.0);
    assert s * a <= s;
    assert s * a * b <= s * a;
    assert 0.42 * s <= s * a * 0.7;
  }

  /** Grip never rises with speed. */
  lemma GripFallsWithSpeed(surface: real, s1: real, s2: real, steer: real)
    requires surface >= 0.0 && s1 <= s2
    ensures CurrentGrip(surface, s2, steer) <= CurrentGrip(surface, s1, steer)
  {
    var f1, f2, tf := SpeedGripFactor(s1), SpeedGripFactor(s2), TurnGripFactor(steer);
    assert 0.0 <= f2 <= f1 && tf >= 0.0;
    ScaleBetween(surface, f2, 0.0, f1);
    ScaleBetween(tf, surface * f2, 0.0, surface * f1);
    assert surface * f2 * tf <= surface * f1 * tf;
  }

  // ---------------------------------------------------------------- prelude steps

  /** Weight transfer, steering-change detection and the 150 ms steering
      response delay; also yields the effective steering input, halved while
      the delay runs. */
  function ShiftWeight(c: CarState, steer: real, dt: real): (r: (CarState, real))
    ensures r.0 == c.(weightTransfer := r.0.weightTransfer, lastSteeringInput := steer,
                      steeringResponseDelay := r.0.steeringResponseDelay)
    ensures r.1 == steer || r.1 == steer * 0.5
    ensures Abs(steer - c.lastSteeringInput) > 0.1 ==> r.1 == steer * 0.5 && r.0.steeringResponseDelay == 0.15 - dt
    ensures Abs(steer - c.lastSteeringInput) <= 0.1 && c.steeringResponseDelay > 0.0 ==>
              r.1 == steer * 0.5 && r.0.steeringResponseDelay == c.steeringResponseDelay - dt
    ensures Abs(steer - c.lastSteeringInput) <= 0.1 && c.steeringResponseDelay <= 0.0 ==>
              r.1 == steer && r.0.steeringResponseDelay == c.steeringResponseDelay
    ensures 0.0 <= dt * 3.0 <= 1.0 ==>
              Min(c.weightTransfer, -steer * 0.5) <= r.0.weightTransfer <= Max(c.weightTransfer, -steer * 0.5)
    ensures dt == 0.0 ==> r.0.weightTransfer == c.weightTransfer
  {
    var delay := if Abs(steer - c.lastSteeringInput) > 0.1 then 0.15 else c.steeringResponseDelay;
    var wt := Approach(c.weightTransfer, -steer * 0.5, dt * 3.0);
    (c.(weightTransfer := wt, lastSteeringInput := steer,
        steeringResponseDelay := if delay > 0.0 then delay - dt else delay),
     if delay > 0.0 then steer * 0.5 else steer)
  }

  /** Weight transfer stays within half a unit either side when steering is in
      [-1, 1] and a frame is short enough not to overshoot. */
  lemma WeightTransferBounded(c: CarState, steer: real, dt: real)
    requires -0.5 <= c.weightTransfer <= 0.5 && -1.0 <= steer <= 1.0 && 0.0 <= dt * 3.0 <= 1.0
    ensures -0.5 <= ShiftWeight(c, steer, dt).0.weightTransfer <= 0.5
  {
  }

  /** The boost countdown: the only place boost power falls back to 1. */
  function CountDownBoost(c: CarState, dt: real): (r: CarState)
    ensures r == c.(boostTime := r.boostTime, boostPower := r.boostPower)
    ensures c.boostTime > 0.0 && c.boostTime - dt <= 0.0 ==> r.boostTime == 0.0 && r.boostPower == 1.0
    ensures c.boostTime > 0.0 && c.boostTime - dt > 0.0 ==> r.boostTime == c.boostTime - dt && r.boostPower == c.boostPower
    ensures c.boostTime <= 0.0 ==> r == c
  {
    var expired := c.boostTime > 0.0 && c.boostTime - dt <= 0.0;
    c.(boostTime := if expired then 0.0 else if c.boostTime > 0.0 then c.boostTime - dt else c.boostTime,
       boostPower := if expired then 1.0 else c.boostPower)
  }

  /** The frame's work before the drift decision: handbrake edge, grip from the
      previous frame's speed, weight transfer, boost countdown, then the new
      speed and drift-zone flag. Yields the effective steering input too. */
  function Prelude(grid: SurfaceGrid, c: CarState, ti: TickInput): (r: (CarState, real))
  {
    var dt := ti.delta / 1000.0;
    var ctl := ReadControls(ti.keys);
    var c1 := c.(handbrakeJustPressed := ctl.handbrake && !c.handbrakeWasPressed,
                 handbrakeWasPressed := ctl.handbrake,
                 currentGrip := CurrentGrip(SurfaceGrip(grid, ti.x, ti.y), c.speed, ctl.steer));
    var w := ShiftWeight(c1, ctl.steer, dt);
    var c2 := CountDownBoost(w.0, dt);
    (c2.(speed := ti.measuredSpeed, inDriftZone := ti.inDriftZone), w.1)
  }

  /** The prelude changes no drift or style state, records the handbrake edge,
      and hands on the boost exactly as the countdown leaves it. */
  lemma PreludeFacts(grid: SurfaceGrid, c: CarState, ti: TickInput)
    requires Consistent(c) && FrameInRange(ti)
    ensures var p := Prelude(grid, c, ti).0;
      && Consistent(p)
      && p.speed == ti.measuredSpeed && p.inDriftZone == ti.inDriftZone
      && p.drifting == c.drifting && p.driftKickApplied == c.driftKickApplied
      && p.driftDirection == c.driftDirection && p.driftPower == c.driftPower
      && p.driftDuration == c.driftDuration && p.driftMomentum == c.driftMomentum
      && p.styleMeter == c.styleMeter && p.slipAngle == c.slipAngle
      && p.handbrakeWasPressed == ti.keys.space
      && p.handbrakeJustPressed == (ti.keys.space && !c.handbrakeWasPressed)
      && p.boostTime == CountDownBoost(c, ti.delta / 1000.0).boostTime
      && p.boostPower == CountDownBoost(c, ti.delta / 1000.0).boostPower
    ensures var s := Prelude(grid, c, ti).1; var steer := ReadControls(ti.keys).steer;
      -1.0 <= steer <= 1.0 && (s == steer || s == steer * 0.5)
  {
  }

  // ---------------------------------------------------------------- drift entry

  /** The kick guard: handbrake newly pressed, fast enough, steering, and no
      kick applied yet in this drift. */
  predicate KickFires(c: CarState, steer: real)
  {
    c.handbrakeJustPressed && c.speed > SpeedThreshold && Abs(steer) > 0.1 && !c.driftKickApplied
  }

  /** The drift state the kick installs (the lateral impulse itself acts on
      the physics body and is not modelled). */
  function ApplyKick(c: CarState, steer: real): (r: CarState)
    ensures r.drifting && r.driftKickApplied
    ensures r.driftDirection == Sign(steer)
    ensures r.driftPower == 0.2 && r.slipAngle == 0.2
    ensures r.driftDuration == 0.0 && r.driftMomentum == 0.0
  {
    c.(drifting := true, driftDirection := Sign(steer), driftPower := 0.2, slipAngle := 0.2,
       driftKickApplied := true, driftDuration := 0.0, driftMomentum := 0.0,
       tireSmokeIntensity := 2.0)
  }

  /** `Math.sign(steer) || previous || 1`. */
  function FallbackDirection(steer: real, previous: int): (d: int)
    ensures d != 0
    ensures steer != 0.0 ==> d == Sign(steer)
    ensures steer == 0.0 && previous != 0 ==> d == previous
  {
    if Sign(steer) != 0 then Sign(steer) else if previous != 0 then previous else 1
  }

  /** Entering the drift from the hold branch when no kick started it. */
  function EnterDrift(c: CarState, steer: real): (r: CarState)
  {
    c.(drifting := true,
       driftDirection := if c.drifting then c.driftDirection else FallbackDirection(steer, c.driftDirection),
       driftPower := if c.drifting then c.driftPower else 0.2,
       slipAngle := if c.drifting then c.slipAngle else 0.2,
       driftDuration := if c.drifting then c.driftDuration else 0.0,
       driftMomentum := if c.drifting then c.driftMomentum else 0.0)
  }

  // ---------------------------------------------------------------- drift hold

  /** Target slip before steering shaping: ramped drift power capped at 0.9,
      scaled by the speed factor, the stability factor and the momentum factor. */
  function BaseTargetSlip(power: real, speed: real, momentum: real): real
  {
    Min(0.9, power * 1.2) * Max(0.5, 1.0 - speed / 500.0)
      * (0.7 + Min(1.0, speed / 200.0) * 0.3) * (0.5 + momentum * 0.5)
  }

  /** Steering with the drift widens the target by up to 40%; counter-steering
      narrows it to no less than 60%. */
  function SteerShaping(steer: real, direction: int): real
  {
    if Sign(steer) == Sign(direction as real) then 1.0 + Abs(steer) * 0.4
    else Max(0.6, 1.0 - Abs(steer) * 0.3)
  }

  /** Steering shaping of the base target; near-neutral steering keeps it at
      least 0.3. */
  function ShapeTarget(base: real, steer: real, direction: int): real
  {
    if Abs(steer) > 0.1 then base * SteerShaping(steer, direction) else Max(base, 0.3)
  }

  /** The target slip angle of a held drift. */
  function TargetSlip(power: real, speed: real, momentum: real, steer: real, direction: int): real
  {
    ShapeTarget(BaseTargetSlip(power, speed, momentum), steer, direction)
  }

  lemma BaseTargetSlipRange(power: real, speed: real, momentum: real)
    requires 0.0 <= power && speed > SpeedThreshold && 0.0 <= momentum <= 1.0
    ensures 0.0 <= BaseTargetSlip(power, speed, momentum) <= 0.7
  {
    var p := Min(0.9, power * 1.2);
    var sf := Max(0.5, 1.0 - speed / 500.0);
    var st := 0.7 + Min(1.0, speed / 200.0) * 0.3;
    var m := 0.5 + momentum * 0.5;
    assert 0.0 <= p <= 0.9 && 0.5 <= m <= 1.0;
    if speed <= 140.0 {
      assert 0.5 <= sf <= 0.84 && 0.7 <= st <= 0.91;
      MulMono4(p, sf, st, m, 0.9, 0.84, 0.91, 1.0);
    } else {
      assert 0.5 <= sf <= 0.72 && 0.7 <= st <= 1.0;
      MulMono4(p, sf, st, m, 0.9, 0.72, 1.0, 1.0);
    }
    assert BaseTargetSlip(power, speed, momentum) == p * sf * st * m;
  }

  lemma SteerShapingRange(steer: real, direction: int)
    requires -1.0 <= steer <= 1.0
    ensures 0.6 <= SteerShaping(steer, direction) <= 1.4
    ensures Sign(steer) == Sign(direction as real) ==> SteerShaping(steer, direction) >= 1.0
    ensures Sign(steer) != Sign(direction as real) ==> SteerShaping(steer, direction) <= 1.0
  {
  }

  /** Counter-steering keeps at least 60% of the base target, steering with
      the drift only adds (up to 40%), and without steering the target is at
      least 0.3. */
  lemma TargetSlipShaping(base: real, steer: real, direction: int)
    requires base >= 0.0 && -1.0 <= steer <= 1.0
    ensures var t := ShapeTarget(base, steer, direction);
      && t >= 0.0
      && (Abs(steer) > 0.1 && Sign(steer) != Sign(direction as real) ==> 0.6 * base <= t <= base)
      && (Abs(steer) > 0.1 && Sign(steer) == Sign(direction as real) ==> base <= t <= 1.4 * base)
      && (Abs(steer) <= 0.1 ==> t >= 0.3 && t >= base)
  {
    if Abs(steer) > 0.1 {
      SteerShapingRange(steer, direction);
      ShapingBetween(base, SteerShaping(steer, direction), ShapeTarget(base, steer, direction));
    }
  }

  /** A target `t` that is the base scaled by a factor `f` in [0.6, 1.4]
      lies between 60% of the base and the base when `f` is at most 1, and
      between the base and 140% of it when `f` is at least 1. */
  lemma ShapingBetween(base: real, f: real, t: real)
    requires base >= 0.0 && 0.6 <= f <= 1.4 && t == base * f
    ensures f <= 1.0 ==> 0.6 * base <= t <= base
    ensures f >= 1.0 ==> base <= t <= 1.4 * base
  {
    MulNonneg(base, f - 0.6);
    MulNonneg(base, 1.4 - f);
    if f <= 1.0 {
      MulNonneg(base, 1.0 - f);
    } else {
      MulNonneg(base, f - 1.0);
    }
  }

  /** While a drift is held the target never exceeds 1, whatever the
      steering: above the drift threshold the base target is at most 0.7. */
  lemma TargetSlipBelowOne(power: real, speed: real, momentum: real, steer: real, direction: int)
    requires 0.0 <= power && speed > SpeedThreshold && 0.0 <= momentum <= 1.0
    requires -1.0 <= steer <= 1.0
    ensures 0.0 <= TargetSlip(power, speed, momentum, steer, direction) < 1.0
  {
    BaseTargetSlipRange(power, speed, momentum);
    var base := BaseTargetSlip(power, speed, momentum);
    TargetSlipShaping(base, steer, direction);
    assert TargetSlip(power, speed, momentum, steer, direction) == ShapeTarget(base, steer, direction);
  }

  /** The speed-dependent slip transition rate `3 * (1 - speed/800)`. */
  function SlipTransitionRate(speed: real): real { 3.0 * (1.0 - speed / 800.0) }

  /** Style points per second before the bonuses: speed, steering and angle. */
  function StyleBase(speed: real, steer: real, slip: real): real
  {
    speed * 0.05 + (if Abs(steer) > 0.1 then speed * 0.03 * Abs(steer) else 0.0) + speed * 0.05 * slip
  }

  /** The duration bonus, growing by 20% a second up to 2x. */
  function DurationBonus(duration: real): real { Min(2.0, 1.0 + duration / 5.0) }

  /** The duration bonus grows from 1 with the drift's length and stays at 2
      once the drift has lasted five seconds. */
  lemma DurationBonusMonotone(d1: real, d2: real)
    requires 0.0 <= d1 <= d2
    ensures 1.0 <= DurationBonus(d1) <= DurationBonus(d2) <= 2.0
    ensures d1 >= 5.0 ==> DurationBonus(d1) == 2.0 && DurationBonus(d2) == 2.0
  {
    assert d1 / 5.0 <= d2 / 5.0;
    assert d1 >= 5.0 ==> 1.0 + d1 / 5.0 >= 2.0;
  }

  lemma StyleBaseNonnegative(speed: real, steer: real, slip: real)
    requires speed >= 0.0 && slip >= 0.0
    ensures StyleBase(speed, steer, slip) >= 0.0
  {
    ScaleBetween(speed * 0.03, Abs(steer), 0.0, Abs(steer));
    ScaleBetween(speed * 0.05, slip, 0.0, slip);
    assert speed * 0.03 * Abs(steer) >= 0.0;
    assert speed * 0.05 * slip >= 0.0;
  }

  /** Style points per second: the base times the duration bonus, doubled in
      a drift zone. */
  function StyleRate(speed: real, steer: real, slip: real, duration: real, inZone: bool): real
  {
    var rate := StyleBase(speed, steer, slip) * DurationBonus(duration);
    if inZone then rate * 2.0 else rate
  }

  /** Identical drift conditions earn exactly twice as much in a drift zone. */
  lemma StyleRateZoneDoubles(speed: real, steer: real, slip: real, duration: real)
    ensures StyleRate(speed, steer, slip, duration, true) == 2.0 * StyleRate(speed, steer, slip, duration, false)
  {
  }

  /** The accrual rate is nonnegative, and holding a drift longer never lowers
      it: the duration bonus grows until it saturates at 2x after 5 seconds. */
  lemma StyleRateMonotone(speed: real, steer: real, slip: real, d1: real, d2: real, inZone: bool)
    requires speed >= 0.0 && slip >= 0.0 && d1 >= 0.0 && d1 <= d2
    ensures 0.0 <= StyleRate(speed, steer, slip, d1, inZone) <= StyleRate(speed, steer, slip, d2, inZone)
    ensures d1 >= 5.0 ==> StyleRate(speed, steer, slip, d1, inZone) == StyleRate(speed, steer, slip, d2, inZone)
  {
    StyleBaseNonnegative(speed, steer, slip);
    DurationBonusMonotone(d1, d2);
    ScaledRateMonotone(StyleBase(speed, steer, slip), DurationBonus(d1), DurationBonus(d2), inZone);
  }

  /** The arithmetic step of `StyleRateMonotone`, kept apart from the
      definition of the base rate. */
  lemma ScaledRateMonotone(base: real, b1: real, b2: real, inZone: bool)
    requires base >= 0.0 && 0.0 <= b1 <= b2
    ensures 0.0 <= (if inZone then base * b1 * 2.0 else base * b1)
    ensures (if inZone then base * b1 * 2.0 else base * b1) <= (if inZone then base * b2 * 2.0 else base * b2)
  {
    MulMono(base, b1, base, b2);
    var r1, r2 := base * b1, base * b2;
    assert 0.0 <= r1 <= r2;
    assert r1 * 2.0 <= r2 * 2.0;
  }

  /** The first half of the hold branch: (re)enter the drift if needed,
      follow strong steering, ramp power, duration and momentum. */
  function RampDrift(c: CarState, steer: real, dt: real): CarState
  {
    var e := EnterDrift(c, steer);
    e.(driftDirection := if Abs(steer) > 0.5 then Sign(steer) else e.driftDirection,
       driftPower := Min(e.driftPower + dt * 2.5, 1.0),
       driftDuration := e.driftDuration + dt,
       driftMomentum := Min(1.0, e.driftMomentum + dt * 0.5))
  }

  /** The slip angle after one frame of a held drift: one smoothing step
      toward the target. */
  function HeldSlip(slip: real, power: real, speed: real, momentum: real, steer: real,
                    direction: int, dt: real): real
  {
    Approach(slip, TargetSlip(power, speed, momentum, steer, direction), dt * SlipTransitionRate(speed))
  }

  /** Move the slip angle and the tire-smoke intensity toward their targets. */
  function Slide(r: CarState, steer: real, dt: real): CarState
  {
    r.(slipAngle := HeldSlip(r.slipAngle, r.driftPower, r.speed, r.driftMomentum, steer, r.driftDirection, dt),
       tireSmokeIntensity := Approach(r.tireSmokeIntensity, Min(8.0, 3.0 + Abs(steer) * 5.0), dt * 3.0))
  }

  /** Accrue style points at the rate the new slip angle and duration give,
      capped at the limit. */
  function AccrueStyle(r: CarState, steer: real, dt: real): CarState
  {
    r.(styleMeter := Min(r.styleLimit, r.styleMeter + StyleRate(r.speed, steer, r.slipAngle, r.driftDuration, r.inDriftZone) * dt))
  }

  /** The hold branch: ramp, slide, then score. */
  function HoldDrift(c: CarState, steer: real, dt: real): CarState
  {
    AccrueStyle(Slide(RampDrift(c, steer, dt), steer, dt), steer, dt)
  }

  /** A frame of at most a third of a second at a speed of at most 800 moves
      the slip angle by at most the whole distance to its target. */
  lemma SmoothingStepInUnit(dt: real, speed: real)
    requires 0.0 <= dt <= 1.0 / 3.0 && 0.0 <= speed <= 800.0
    ensures 0.0 <= dt * SlipTransitionRate(speed) <= 1.0
  {
    assert 0.0 <= SlipTransitionRate(speed) <= 3.0;
    ThirdTimesAtMostThree(dt, SlipTransitionRate(speed));
  }

  /** A factor of at most a third times one of at most three is at most 1. */
  lemma ThirdTimesAtMostThree(a: real, b: real)
    requires 0.0 <= a <= 1.0 / 3.0 && 0.0 <= b <= 3.0
    ensures 0.0 <= a * b <= 1.0
  {
    MulMono(a, b, 1.0 / 3.0, 3.0);
    assert (1.0 / 3.0) * 3.0 == 1.0;
  }

  /** Slip stays in [0, 1] during a held drift in range: the target is below
      1 and one smoothing step does not overshoot. The source itself clamps
      nothing. */
  lemma HeldSlipInUnit(slip: real, power: real, speed: real, momentum: real, steer: real,
                       direction: int, dt: real)
    requires 0.0 <= slip <= 1.0 && 0.0 <= power && 0.0 <= momentum <= 1.0
    requires SpeedThreshold < speed <= 800.0 && -1.0 <= steer <= 1.0 && 0.0 <= dt <= 1.0 / 3.0
    ensures 0.0 <= HeldSlip(slip, power, speed, momentum, steer, direction, dt) <= 1.0
  {
    var target := TargetSlip(power, speed, momentum, steer, direction);
    TargetSlipBelowOne(power, speed, momentum, steer, direction);
    var k := dt * SlipTransitionRate(speed);
    SmoothingStepInUnit(dt, speed);
    assert HeldSlip(slip, power, speed, momentum, steer, direction, dt) == Approach(slip, target, k);
  }

  lemma RampDriftFacts(c: CarState, steer: real, dt: real)
    requires Consistent(c) && 0.0 <= dt && -1.0 <= steer <= 1.0
    ensures var r := RampDrift(c, steer, dt);
      && Consistent(r) && r.drifting
      && r.driftDuration == (if c.drifting then c.driftDuration else 0.0) + dt
      && r.driftPower == Min((if c.drifting then c.driftPower else 0.2) + dt * 2.5, 1.0)
      && r.driftMomentum == Min(1.0, (if c.drifting then c.driftMomentum else 0.0) + dt * 0.5)
      && (Abs(steer) > 0.5 ==> r.driftDirection == Sign(steer))
      && (c.drifting && Abs(steer) <= 0.5 ==> r.driftDirection == c.driftDirection)
      && r == c.(drifting := true, driftDirection := r.driftDirection, driftPower := r.driftPower,
                 slipAngle := r.slipAngle, driftDuration := r.driftDuration, driftMomentum := r.driftMomentum)
  {
  }

  lemma SlideFacts(r: CarState, steer: real, dt: real)
    requires Consistent(r) && 0.0 <= dt <= 1.0 / 3.0 && -1.0 <= steer <= 1.0
    requires SpeedThreshold < r.speed <= 800.0
    ensures Consistent(Slide(r, steer, dt))
    ensures Slide(r, steer, dt) == r.(slipAngle := Slide(r, steer, dt).slipAngle,
                                      tireSmokeIntensity := Slide(r, steer, dt).tireSmokeIntensity)
  {
    HeldSlipInUnit(r.slipAngle, r.driftPower, r.speed, r.driftMomentum, steer, r.driftDirection, dt);
  }

  /** One frame's accrual never lowers the style meter and never passes its
      limit. */
  lemma AccrueStyleGrows(r: CarState, steer: real, dt: real)
    requires 0.0 <= r.styleMeter <= r.styleLimit && r.speed >= 0.0 && r.slipAngle >= 0.0
    requires r.driftDuration >= 0.0 && dt >= 0.0
    ensures r.styleMeter <= AccrueStyle(r, steer, dt).styleMeter <= r.styleLimit
    ensures AccrueStyle(r, steer, dt) == r.(styleMeter := AccrueStyle(r, steer, dt).styleMeter)
  {
    StyleRateMonotone(r.speed, steer, r.slipAngle, r.driftDuration, r.driftDuration, r.inDriftZone);
    ScaleBetween(StyleRate(r.speed, steer, r.slipAngle, r.driftDuration, r.inDriftZone), dt, 0.0, dt);
  }

  /** What holding the handbrake above the threshold guarantees: drifting
      with a nonzero direction, power and momentum capped at 1, duration grown
      by exactly dt (from 0 on entry), the style meter not falling, the boost
      untouched. */
  lemma HoldDriftFacts(c: CarState, steer: real, dt: real)
    requires Consistent(c) && 0.0 <= dt <= 1.0 / 3.0 && -1.0 <= steer <= 1.0
    requires SpeedThreshold < c.speed <= 800.0
    ensures var r := HoldDrift(c, steer, dt);
      && Consistent(r) && r.drifting
      && r.driftDuration == (if c.drifting then c.driftDuration else 0.0) + dt
      && r.driftPower == Min((if c.drifting then c.driftPower else 0.2) + dt * 2.5, 1.0)
      && r.driftMomentum == Min(1.0, (if c.drifting then c.driftMomentum else 0.0) + dt * 0.5)
      && (Abs(steer) > 0.5 ==> r.driftDirection == Sign(steer))
      && (c.drifting && Abs(steer) <= 0.5 ==> r.driftDirection == c.driftDirection)
      && c.styleMeter <= r.styleMeter
      && r.boostTime == c.boostTime && r.boostPower == c.boostPower
      && r.driftKickApplied == c.driftKickApplied
      && r.speed == c.speed
  {
    RampDriftFacts(c, steer, dt);
    SlideFacts(RampDrift(c, steer, dt), steer, dt);
    AccrueStyleGrows(Slide(RampDrift(c, steer, dt), steer, dt), steer, dt);
  }

  /** A kick is always followed, in the same frame, by the hold branch, so a
      kicked drift leaves its first frame with duration dt and power
      `min(0.2 + 2.5 dt, 1)`, steering in the kick's direction. */
  lemma KickThenHold(c: CarState, steer: real, dt: real)
    requires Consistent(c) && 0.0 <= dt && -1.0 <= steer <= 1.0 && KickFires(c, steer)
    ensures var r := HoldDrift(ApplyKick(c, steer), steer, dt);
      && r.drifting && r.driftKickApplied
      && r.driftDuration == dt
      && r.driftPower == Min(0.2 + dt * 2.5, 1.0)
      && r.driftMomentum == Min(1.0, dt * 0.5)
      && r.driftDirection == Sign(steer) && r.driftDirection != 0
  {
  }

  // ---------------------------------------------------------------- exit and normal driving

  /** Leaving the drift: the flags reset and momentum is dropped; the style
      meter is kept for a later boost. */
  function ExitDrift(c: CarState): (r: CarState)
    ensures !r.drifting && !r.driftKickApplied && r.wasJustDrifting && r.driftMomentum == 0.0
    ensures r.styleMeter == c.styleMeter && r.slipAngle == c.slipAngle && r.boostPower == c.boostPower
  {
    c.(wasJustDrifting := true, drifting := false, driftKickApplied := false, driftMomentum := 0.0)
  }

  datatype Boost = Boost(power: real, duration: real)

  /** The three boost tiers by style points spent. */
  function BoostTier(style: real): (b: Boost)
    ensures style >= 750.0 ==> b == Boost(2.0, 3.0)
    ensures 500.0 <= style < 750.0 ==> b == Boost(1.75, 2.0)
    ensures style < 500.0 ==> b == Boost(1.5, 1.0)
  {
    if style >= 750.0 then Boost(2.0, 3.0)
    else if style >= 500.0 then Boost(1.75, 2.0)
    else Boost(1.5, 1.0)
  }

  /** More style never buys a weaker or shorter boost, and every boost is
      stronger than normal power. */
  lemma BoostTierMonotone(s1: real, s2: real)
    requires s1 <= s2
    ensures 1.0 < BoostTier(s1).power <= BoostTier(s2).power
    ensures 0.0 < BoostTier(s1).duration <= BoostTier(s2).duration
  {
  }

  predicate BoostReady(c: CarState, boostKey: bool)
  {
    boostKey && c.styleMeter >= BoostMinStyle && c.boostTime <= 0.0
  }

  /** Spending the style meter: a tiered boost, the whole meter (floored)
      paid into the score, and an empty meter. */
  function ActivateBoost(c: CarState, score: int): (r: (CarState, int))
    ensures r.0 == c.(boostTime := BoostTier(c.styleMeter).duration,
                      boostPower := BoostTier(c.styleMeter).power, styleMeter := 0.0)
    ensures r.1 == score + c.styleMeter.Floor
    ensures c.styleMeter >= 0.0 ==> r.1 >= score
  {
    var tier := BoostTier(c.styleMeter);
    (c.(boostTime := tier.duration, boostPower := tier.power, styleMeter := 0.0), score + c.styleMeter.Floor)
  }

  /** Speed, slip and style adjustments of normal driving: roll the speed down
      when coasting, relax the slip angle, let it creep up when grip is lost at
      speed, and decay the style meter by 10 per second. */
  function Coast(c: CarState, accel: real, effSteer: real, dt: real): (r: CarState)
  {
    var speed := if accel != 0.0 then c.speed else Max(0.0, c.speed - RollingResistance * dt);
    var relaxed := if c.slipAngle > 0.0 then Max(0.0, c.slipAngle - dt * 2.0) else c.slipAngle;
    var slip := if speed > 150.0 && Abs(effSteer) > 0.8 && c.currentGrip < 0.7 then relaxed + dt * 0.5 else relaxed;
    c.(speed := speed, slipAngle := slip,
       styleMeter := if c.styleMeter > 0.0 then Max(0.0, c.styleMeter - dt * 10.0) else c.styleMeter)
  }

  /** The normal-driving branch: clear the drift flags, maybe spend the style
      meter on a boost, then coast. */
  function DriveNormally(c: CarState, score: int, ctl: Controls, effSteer: real, dt: real): (r: (CarState, int))
  {
    var c1 := c.(driftKickApplied := false, wasJustDrifting := false);
    var b := if BoostReady(c1, ctl.boost) then ActivateBoost(c1, score) else (c1, score);
    (Coast(b.0, ctl.accel, effSteer, dt), b.1)
  }

  lemma CoastFacts(c: CarState, accel: real, effSteer: real, dt: real)
    requires Consistent(c) && 0.0 <= dt <= 1.0 / 3.0
    ensures var r := Coast(c, accel, effSteer, dt);
      && Consistent(r)
      && r == c.(speed := r.speed, slipAngle := r.slipAngle, styleMeter := r.styleMeter)
      && r.styleMeter == Max(0.0, c.styleMeter - dt * 10.0)
      && (accel == 0.0 ==> r.speed == Max(0.0, c.speed - RollingResistance * dt))
      && (accel != 0.0 ==> r.speed == c.speed)
      && var relaxed := if c.slipAngle > 0.0 then Max(0.0, c.slipAngle - dt * 2.0) else c.slipAngle;
         && (r.speed > 150.0 && Abs(effSteer) > 0.8 && c.currentGrip < 0.7 ==> r.slipAngle == relaxed + dt * 0.5)
         && (!(r.speed > 150.0 && Abs(effSteer) > 0.8 && c.currentGrip < 0.7) ==> r.slipAngle == relaxed)
         && (r.slipAngle > c.slipAngle ==> r.speed > 150.0 && Abs(effSteer) > 0.8 && c.currentGrip < 0.7)
  {
  }

  /** Normal driving keeps the invariants, spends the meter exactly when a
      boost is ready, and otherwise decays it. */
  lemma DriveNormallyFacts(c: CarState, score: int, ctl: Controls, effSteer: real, dt: real)
    requires Consistent(c) && !c.drifting && 0.0 <= dt <= 1.0 / 3.0
    ensures var r := DriveNormally(c, score, ctl, effSteer, dt);
      && Consistent(r.0) && !r.0.drifting && !r.0.driftKickApplied && !r.0.wasJustDrifting
      && (BoostReady(c, ctl.boost) ==>
            && r.1 == score + c.styleMeter.Floor
            && r.0.boostPower == BoostTier(c.styleMeter).power
            && r.0.boostTime == BoostTier(c.styleMeter).duration
            && r.0.styleMeter == 0.0)
      && (!BoostReady(c, ctl.boost) ==>
            && r.1 == score
            && r.0.boostPower == c.boostPower && r.0.boostTime == c.boostTime
            && r.0.styleMeter == Max(0.0, c.styleMeter - dt * 10.0))
  {
    var c1 := c.(driftKickApplied := false, wasJustDrifting := false);
    var b := if BoostReady(c1, ctl.boost) then ActivateBoost(c1, score) else (c1, score);
    BoostTierMonotone(c.styleMeter, c.styleMeter);
    assert Consistent(b.0);
    CoastFacts(b.0, ctl.accel, effSteer, dt);
  }

  // ---------------------------------------------------------------- the whole tick

  /** The drift decision after the prelude: maybe kick, then hold, exit or
      drive normally. */
  function Branch(k: CarState, score: int, ctl: Controls, effSteer: real, dt: real): (r: (CarState, int))
  {
    var c := if KickFires(k, ctl.steer) then ApplyKick(k, ctl.steer) else k;
    if ctl.handbrake && c.speed > SpeedThreshold then (HoldDrift(c, ctl.steer, dt), score)
    else if c.drifting then (ExitDrift(c), score)
    else DriveNormally(c, score, ctl, effSteer, dt)
  }

  /** Everything the drift decision guarantees, for a consistent car in range. */
  lemma BranchFacts(k: CarState, score: int, ctl: Controls, effSteer: real, dt: real)
    requires Consistent(k) && 0.0 <= dt <= 1.0 / 3.0 && k.speed <= 800.0 && -1.0 <= ctl.steer <= 1.0
    requires k.handbrakeJustPressed ==> ctl.handbrake
    ensures var r := Branch(k, score, ctl, effSteer, dt);
      && Consistent(r.0) && r.1 >= score
      && (r.0.drifting <==> ctl.handbrake && k.speed > SpeedThreshold)
      && r.0.handbrakeWasPressed == k.handbrakeWasPressed
      && r.0.handbrakeJustPressed == k.handbrakeJustPressed
      && (r.0.driftKickApplied && !k.driftKickApplied ==>
            KickFires(k, ctl.steer) && r.0.driftDirection == Sign(ctl.steer))
      && r.0.boostPower >= k.boostPower
      && (r.1 != score ==>
            && !(ctl.handbrake && k.speed > SpeedThreshold) && !k.drifting
            && BoostReady(k, ctl.boost)
            && r.1 == score + k.styleMeter.Floor
            && r.0.styleMeter == 0.0
            && r.0.boostPower == BoostTier(k.styleMeter).power)
  {
    var c := if KickFires(k, ctl.steer) then ApplyKick(k, ctl.steer) else k;
    if KickFires(k, ctl.steer) {
      KickThenHold(k, ctl.steer, dt);
    }
    if ctl.handbrake && c.speed > SpeedThreshold {
      HoldDriftFacts(c, ctl.steer, dt);
    } else if !c.drifting {
      DriveNormallyFacts(c, score, ctl, effSteer, dt);
    }
  }

  /** Whatever the state, the car leaves the decision drifting exactly when
      the hold branch ran. */
  lemma BranchDrifting(k: CarState, score: int, ctl: Controls, effSteer: real, dt: real)
    ensures var c := if KickFires(k, ctl.steer) then ApplyKick(k, ctl.steer) else k;
      Branch(k, score, ctl, effSteer, dt).0.drifting <==> ctl.handbrake && c.speed > SpeedThreshold
  {
  }

  /** One frame of `update` on the car record and the score. */
  function Tick(grid: SurfaceGrid, c: CarState, score: int, ti: TickInput): (r: (CarState, int))
  {
    var p := Prelude(grid, c, ti);
    Branch(p.0, score, ReadControls(ti.keys), p.1, ti.delta / 1000.0)
  }

  /** A tick in range keeps every invariant of the car record and never
      lowers the score. */
  lemma TickPreservesConsistency(grid: SurfaceGrid, c: CarState, score: int, ti: TickInput)
    requires Consistent(c) && FrameInRange(ti)
    ensures Consistent(Tick(grid, c, score, ti).0)
    ensures Tick(grid, c, score, ti).1 >= score
  {
    PreludeReady(grid, c, ti);
    var p := Prelude(grid, c, ti);
    BranchKeepsConsistent(p.0, score, ReadControls(ti.keys), p.1, ti.delta / 1000.0);
  }

  /** The prelude hands the drift decision a consistent car in range. */
  lemma PreludeReady(grid: SurfaceGrid, c: CarState, ti: TickInput)
    requires Consistent(c) && FrameInRange(ti)
    ensures var k := Prelude(grid, c, ti).0; var ctl := ReadControls(ti.keys);
      && Consistent(k) && k.speed <= 800.0 && -1.0 <= ctl.steer <= 1.0
      && (k.handbrakeJustPressed ==> ctl.handbrake)
  {
    PreludeFacts(grid, c, ti);
  }

  /** The drift decision keeps a consistent car consistent and never lowers
      the score. */
  lemma BranchKeepsConsistent(k: CarState, score: int, ctl: Controls, effSteer: real, dt: real)
    requires Consistent(k) && 0.0 <= dt <= 1.0 / 3.0 && k.speed <= 800.0 && -1.0 <= ctl.steer <= 1.0
    requires k.handbrakeJustPressed ==> ctl.handbrake
    ensures var r := Branch(k, score, ctl, effSteer, dt);
      Consistent(r.0) && r.1 >= score
  {
    BranchFacts(k, score, ctl, effSteer, dt);
  }

  /** After a tick the car is drifting exactly when the handbrake is held
      above the drift speed, and the handbrake edge is recorded. */
  lemma TickDriftingIff(grid: SurfaceGrid, c: CarState, score: int, ti: TickInput)
    requires Consistent(c) && FrameInRange(ti)
    ensures var r := Tick(grid, c, score, ti).0;
      && (r.drifting <==> ti.keys.space && ti.measuredSpeed > SpeedThreshold)
      && r.handbrakeWasPressed == ti.keys.space
      && r.handbrakeJustPressed == (ti.keys.space && !c.handbrakeWasPressed)
  {
    PreludeFacts(grid, c, ti);
    var p := Prelude(grid, c, ti);
    BranchFacts(p.0, score, ReadControls(ti.keys), p.1, ti.delta / 1000.0);
  }

  /** The kick flag is newly set only by a kick whose guard held this frame:
      handbrake newly pressed, above the drift speed, steering harder than
      0.1; the drift then points the way the player steers. */
  lemma TickKickGuard(grid: SurfaceGrid, c: CarState, score: int, ti: TickInput)
    requires Consistent(c) && FrameInRange(ti)
    ensures var r := Tick(grid, c, score, ti).0;
      var steer := ReadControls(ti.keys).steer;
      r.driftKickApplied && !c.driftKickApplied ==>
        && ti.keys.space && !c.handbrakeWasPressed
        && ti.measuredSpeed > SpeedThreshold && Abs(steer) > 0.1
        && r.driftDirection == Sign(steer)
  {
    PreludeFacts(grid, c, ti);
    var p := Prelude(grid, c, ti);
    BranchFacts(p.0, score, ReadControls(ti.keys), p.1, ti.delta / 1000.0);
  }

  /** Boost power only ever falls when the countdown runs out in this frame
      (a new boost bought in the same frame may then set it again). */
  lemma TickBoostPowerFallsOnlyOnExpiry(grid: SurfaceGrid, c: CarState, score: int, ti: TickInput)
    requires Consistent(c) && FrameInRange(ti)
    ensures var r := Tick(grid, c, score, ti).0;
      r.boostPower < c.boostPower ==>
        c.boostTime > 0.0 && c.boostTime - ti.delta / 1000.0 <= 0.0
  {
    PreludeFacts(grid, c, ti);
    var p := Prelude(grid, c, ti);
    BranchFacts(p.0, score, ReadControls(ti.keys), p.1, ti.delta / 1000.0);
  }

  /** The score moves only through boost activation, which needs the car not
      to be drifting, the boost key, at least 250 style points and no boost
      left after the countdown; it then gains the floored style meter and the
      meter empties into a tiered boost. */
  lemma TickScoreOnlyFromBoost(grid: SurfaceGrid, c: CarState, score: int, ti: TickInput)
    requires Consistent(c) && FrameInRange(ti)
    ensures var r := Tick(grid, c, score, ti);
      r.1 != score ==>
        && !c.drifting && !(ti.keys.space && ti.measuredSpeed > SpeedThreshold)
        && ti.keys.shift && c.styleMeter >= BoostMinStyle
        && CountDownBoost(c, ti.delta / 1000.0).boostTime <= 0.0
        && r.1 == score + c.styleMeter.Floor
        && r.0.styleMeter == 0.0
        && r.0.boostPower == BoostTier(c.styleMeter).power
  {
    PreludeFacts(grid, c, ti);
    var p := Prelude(grid, c, ti);
    BranchFacts(p.0, score, ReadControls(ti.keys), p.1, ti.delta / 1000.0);
  }

  // ---------------------------------------------------------------- bounded queues

  datatype SteeringSample = SteeringSample(steering: real, time: real)

  /** The `while`/`shift` loop: drop samples older than one second from the
      front until the front one is recent. */
  function TrimHistory(h: seq<SteeringSample>, now: real): (r: seq<SteeringSample>)
    ensures |r| <= |h| && r == h[|h| - |r|..]
    ensures |r| > 0 ==> now - r[0].time <= HistoryWindowMs
    ensures forall j | 0 <= j < |h| - |r| :: now - h[j].time > HistoryWindowMs
    decreases |h|
  {
    if |h| > 0 && now - h[0].time > HistoryWindowMs then TrimHistory(h[1..], now) else h
  }

  predicate SortedByTime(h: seq<SteeringSample>)
  {
    forall i, j | 0 <= i <= j < |h| :: h[i].time <= h[j].time
  }

  /** A sample taken now always survives the trim, and when the history is in
      time order, as frames deliver it, every kept sample is within the
      one-second window. */
  lemma TrimHistoryKeepsWindow(h: seq<SteeringSample>, s: SteeringSample, now: real)
    requires s.time == now
    requires SortedByTime(h + [s])
    ensures var r := TrimHistory(h + [s], now);
      && |r| > 0 && r[|r| - 1] == s
      && (forall i | 0 <= i < |r| :: 0.0 <= now - r[i].time <= HistoryWindowMs)
  {
    var full := h + [s];
    TrimKeepsLast(full, now);
    TrimWithinWindow(full, now);
  }

  /** A history whose last sample is taken now keeps that sample. */
  lemma TrimKeepsLast(full: seq<SteeringSample>, now: real)
    requires |full| > 0 && full[|full| - 1].time == now
    ensures var r := TrimHistory(full, now);
      |r| > 0 && r[|r| - 1] == full[|full| - 1]
  {
    assert !(now - full[|full| - 1].time > HistoryWindowMs);
  }

  /** In a time-ordered history ending now, the kept samples all lie within
      the window: the first kept one does, and the rest are newer. */
  lemma TrimWithinWindow(full: seq<SteeringSample>, now: real)
    requires |full| > 0 && full[|full| - 1].time == now && SortedByTime(full)
    ensures var r := TrimHistory(full, now);
      forall i | 0 <= i < |r| :: 0.0 <= now - r[i].time <= HistoryWindowMs
  {
    var r := TrimHistory(full, now);
    forall i | 0 <= i < |r|
      ensures 0.0 <= now - r[i].time <= HistoryWindowMs
    {
      KeptWithinWindow(full, now, i);
    }
  }

  /** The `i`-th kept sample lies between the first kept one and the last. */
  lemma KeptWithinWindow(full: seq<SteeringSample>, now: real, i: int)
    requires |full| > 0 && full[|full| - 1].time == now && SortedByTime(full)
    requires 0 <= i < |TrimHistory(full, now)|
    ensures 0.0 <= now - TrimHistory(full, now)[i].time <= HistoryWindowMs
  {
    var r := TrimHistory(full, now);
    var m := |full| - |r|;
    assert r[i] == full[m + i] && r[0] == full[m];
    assert full[m].time <= full[m + i].time <= full[|full| - 1].time;
  }

  datatype Side = LeftWheel | RightWheel

  /** A tire mark's alpha and scale; its position follows the rear wheels and
      is not modelled. */
  datatype TireMark = TireMark(side: Side, alpha: real, scale: real)

  function MarkPair(slip: real): (m: seq<TireMark>)
    ensures |m| == 2 && m[0].side == LeftWheel && m[1].side == RightWheel
    ensures forall i | 0 <= i < 2 :: m[i].alpha <= 0.85 && 1.0 <= m[i].scale <= 3.0
  {
    var alpha := Min(0.85, slip * 0.8);
    var scale := Max(1.0, Min(3.0, slip * 3.0));
    [TireMark(LeftWheel, alpha, scale), TireMark(RightWheel, alpha, scale)]
  }

  /** Marks are laid in the first 20 ms of every 60 ms, with a probability
      (the random roll) of twice the slip angle. */
  predicate LaysMarks(time: real, slip: real, roll: real)
  {
    JsRem(time, 60.0) < 20.0 && roll < slip * 2.0
  }

  /** The cap loop: shift the oldest marks until at most 300 remain. */
  function CapTracks(t: seq<TireMark>): (r: seq<TireMark>)
    ensures |r| <= MaxTireTracks
    ensures |t| <= MaxTireTracks ==> r == t
    ensures |t| > MaxTireTracks ==> r == t[|t| - MaxTireTracks..]
    decreases |t|
  {
    if |t| > MaxTireTracks then CapTracks(t[1..]) else t
  }

  // ---------------------------------------------------------------- the scene

  class ArcadeScene {
    var car: CarState
    var gameScore: int
    var inputHistory: seq<SteeringSample>
    var tireTracks: seq<TireMark>
    const roadSurfaces: SurfaceGrid

    ghost predicate Valid()
      reads this
    {
      |tireTracks| <= MaxTireTracks
    }

    /** The state `create` sets up over a generated surface grid. */
    constructor (grid: SurfaceGrid)
      ensures Valid() && Consistent(car)
      ensures car == InitialCarState() && gameScore == 0
      ensures inputHistory == [] && tireTracks == [] && roadSurfaces == grid
    {
      car := InitialCarState();
      gameScore := 0;
      inputHistory := [];
      tireTracks := [];
      roadSurfaces := grid;
    }

    /** Push a steering sample and trim the history to the last second. */
    method RecordSteering(steer: real, time: real)
      modifies this`inputHistory
      ensures inputHistory == TrimHistory(old(inputHistory) + [SteeringSample(steer, time)], time)
    {
      inputHistory := inputHistory + [SteeringSample(steer, time)];
      ghost var full := inputHistory;
      while |inputHistory| > 0 && time - inputHistory[0].time > HistoryWindowMs
        invariant TrimHistory(inputHistory, time) == TrimHistory(full, time)
        decreases |inputHistory|
      {
        inputHistory := inputHistory[1..];
      }
    }

    /** Push a left and a right mark and shift the oldest past 300. */
    method LayTireMarks(slip: real)
      modifies this`tireTracks
      ensures tireTracks == CapTracks(old(tireTracks) + MarkPair(slip))
    {
      tireTracks := tireTracks + MarkPair(slip);
      ghost var full := tireTracks;
      while |tireTracks| > MaxTireTracks
        invariant CapTracks(tireTracks) == CapTracks(full)
        decreases |tireTracks|
      {
        tireTracks := tireTracks[1..];
      }
    }

    /** The car and score part of a frame: the tick, which keeps a
        consistent car consistent and never lowers the score in range. */
    method Step(ti: TickInput)
      modifies this`car, this`gameScore
      ensures (car, gameScore) == Tick(roadSurfaces, old(car), old(gameScore), ti)
      ensures old(Consistent(car)) && FrameInRange(ti) ==> Consistent(car) && gameScore >= old(gameScore)
    {
      if Consistent(car) && FrameInRange(ti) {
        TickPreservesConsistency(roadSurfaces, car, gameScore, ti);
      }
      var next := Tick(roadSurfaces, car, gameScore, ti);
      car, gameScore := next.0, next.1;
    }

    /** One frame of the scene's `update`. The random roll stands for
        `Math.random()` in the tire-mark test. */
    method Update(ti: TickInput, roll: real)
      requires Valid()
      modifies this`car, this`gameScore, this`inputHistory, this`tireTracks
      ensures Valid()
      ensures (car, gameScore) == Tick(roadSurfaces, old(car), old(gameScore), ti)
      ensures old(Consistent(car)) && FrameInRange(ti) ==> Consistent(car) && gameScore >= old(gameScore)
      ensures var sample := SteeringSample(ReadControls(ti.keys).steer, ti.time);
        inputHistory == TrimHistory(TrimHistory(old(inputHistory) + [sample], ti.time) + [sample], ti.time)
      ensures tireTracks == if car.drifting && LaysMarks(ti.time, car.slipAngle, roll)
                            then CapTracks(old(tireTracks) + MarkPair(car.slipAngle))
                            else old(tireTracks)
    {
      var steer := ReadControls(ti.keys).steer;
      RecordSteering(steer, ti.time);
      Step(ti);
      // Marks are laid only inside the hold branch, i.e. exactly when the
      // car leaves the frame drifting.
      ghost var laid := car.drifting && LaysMarks(ti.time, car.slipAngle, roll);
      ghost var marks := if laid then CapTracks(old(tireTracks) + MarkPair(car.slipAngle)) else old(tireTracks);
      if car.drifting && LaysMarks(ti.time, car.slipAngle, roll) {
        LayTireMarks(car.slipAngle);
      }
      assert tireTracks == marks;
      RecordSteering(steer, ti.time);
    }

    /** `collectCoin`: a coin is worth 100 points. */
    method CollectCoin()
      modifies this`gameScore
      ensures gameScore == old(gameScore) + CoinValue
    {
      gameScore := gameScore + CoinValue;
    }

    /** `collectBoost`: five seconds of double power, replacing any boost. */
    method CollectBoost()
      modifies this`car
      ensures old(Consistent(car)) ==> Consistent(car)
      ensures car == old(car).(boostTime := 5.0, boostPower := 2.0)
    {
      car := car.(boostTime := 5.0, boostPower := 2.0);
    }
  }
}
