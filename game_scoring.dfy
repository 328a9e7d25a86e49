/** The scoring of game/scenes/game-scene.ts: points for drifting each frame,
    a penalty for hitting traffic, coins and boosts picked up, and the
    throttled publication of score and time to the page. The scene drives a
    `CarController` and a `TrafficSystem`; the collectibles' own per-frame
    update is not part of this model. */
module GameScoring {
  import opened JsMath
  import opened PlayerProfile
  import CarControl
  import Traffic

  /** `Math.floor(driftFactor * speed / 10)`: a drifting frame's points. */
  function DriftPoints(driftFactor: real, speed: real): real
  {
    ((driftFactor * speed) / 10.0).Floor as real
  }

  /** A drifting frame never loses points, and earns the whole part of a
      tenth of drift factor times speed. */
  lemma DriftPointsFacts(driftFactor: real, speed: real)
    requires driftFactor >= 0.0 && speed >= 0.0
    ensures var p := DriftPoints(driftFactor, speed);
      && p >= 0.0
      && p <= driftFactor * speed / 10.0 < p + 1.0
      && p == (p as int) as real
  {
    MulMono(driftFactor, speed, driftFactor, speed);
  }

  /** `Math.max(0, score - 500)`: the crash penalty. */
  function Penalize(score: real): real
  {
    Max(0.0, score - 500.0)
  }

  /** A crash takes 500 points, or all of them when there are fewer; the
      score never goes below zero and never rises. */
  lemma PenalizeFacts(score: real)
    requires score >= 0.0
    ensures var r := Penalize(score);
      && r >= 0.0 && r <= score
      && (score >= 500.0 ==> r == score - 500.0)
      && (score < 500.0 ==> r == 0.0)
  {
  }

  /** The score after picking up `c`: a coin adds its value; a boost or a
      multiplier leaves the score alone. */
  function Collect(score: real, c: Collectible): real
  {
    match c.kind
    case Coin => score + c.value
    case BoostPickup => score
    case MultiplierPickup => score
  }

  /** Of the spawnable collectibles, only the coin scores, and it scores
      exactly 100. */
  lemma CollectFacts(score: real, c: Collectible)
    requires c in CollectibleTypes()
    ensures c.kind == Coin ==> Collect(score, c) == score + 100.0
    ensures c.kind != Coin ==> Collect(score, c) == score
    ensures Collect(score, c) >= score
  {
  }

  /** How long the scene waits between two reports to the page. */
  const UiInterval: real := 100.0

  /** A report of score and elapsed time to the page's callbacks. */
  datatype UiUpdate = UiUpdate(score: real, time: real)

  /** The frames, among those at `times`, that report to the page when the
      last report was at `last`. */
  function Reports(last: real, times: seq<real>): seq<real>
    decreases |times|
  {
    if |times| == 0 then []
    else if times[0] - last > UiInterval then [times[0]] + Reports(times[0], times[1..])
    else Reports(last, times[1..])
  }

  /** Reports are more than 100 ms apart, the first more than 100 ms after
      the last one before, and each is at one of the frames. */
  lemma {:induction false} ReportsSpaced(last: real, times: seq<real>)
    ensures var r := Reports(last, times);
      && |r| <= |times|
      && (|r| > 0 ==> r[0] - last > UiInterval)
      && (forall i | 0 < i < |r| :: r[i] - r[i - 1] > UiInterval)
      && (forall i | 0 <= i < |r| :: r[i] in times)
    decreases |times|
  {
    if |times| > 0 {
      var rest := times[1..];
      if times[0] - last > UiInterval {
        ReportsSpaced(times[0], rest);
        var r, r' := Reports(last, times), Reports(times[0], rest);
        assert r == [times[0]] + r';
        forall i | 0 <= i < |r|
          ensures r[i] in times
        {
          if i > 0 {
            assert r[i] == r'[i - 1];
            assert r'[i - 1] in rest;
          }
        }
      } else {
        ReportsSpaced(last, rest);
        var r := Reports(last, times);
        forall i | 0 <= i < |r|
          ensures r[i] in times
        {
          assert r[i] in rest;
        }
      }
    }
  }

  /** The time of the latest report among the frames at `times`, or `last`
      when none of them reports. */
  function LastReport(last: real, times: seq<real>): real
  {
    var r := Reports(last, times);
    if |r| == 0 then last else r[|r| - 1]
  }

  /** One more frame reports exactly when more than 100 ms have passed since
      the latest report, as `GameScene.Update` does frame by frame. */
  lemma {:induction false} ReportsExtend(last: real, times: seq<real>, t: real)
    ensures Reports(last, times + [t])
      == Reports(last, times) + (if t - LastReport(last, times) > UiInterval then [t] else [])
    decreases |times|
  {
    if |times| == 0 {
      assert times + [t] == [t];
    } else {
      assert (times + [t])[0] == times[0];
      assert (times + [t])[1..] == times[1..] + [t];
      if times[0] - last > UiInterval {
        ReportsExtend(times[0], times[1..], t);
      } else {
        ReportsExtend(last, times[1..], t);
      }
    }
  }

  class GameScene {
    var car: CarControl.CarController
    var traffic: Traffic.TrafficSystem
    var score: real
    var startTime: real
    var gameTime: real
    var lastUpdateTime: real
    /** Every report made to the page so far, in order. */
    var published: seq<UiUpdate>
    /** The times of the frames updated so far. */
    ghost var frames: seq<real>

    /** The page has had one report per reporting frame, stamped with that
        frame's game time, and `lastUpdateTime` is the latest of them. */
    ghost predicate Reported()
      reads this
    {
      var r := Reports(startTime, frames);
      && |published| == |r|
      && (forall i | 0 <= i < |published| :: published[i].time == r[i] - startTime)
      && lastUpdateTime == LastReport(startTime, frames)
    }

    ghost predicate Valid()
      reads this, car, traffic
    {
      car.Valid() && traffic.Valid() && score >= 0.0 && Reported()
    }

    /** `create`: a score of 0, the clocks at `now`, a fresh car with the
        saved upgrades and fresh traffic. */
    constructor (now: real, upgrades: Upgrades, trafficPicks: seq<Traffic.SpawnPick>)
      requires |trafficPicks| == 20
      requires forall i | 0 <= i < |trafficPicks| :: Traffic.PickInRange(trafficPicks[i], Traffic.LaneCount)
      ensures Valid() && fresh(car) && fresh(traffic)
      ensures score == 0.0 && startTime == now && lastUpdateTime == now && published == [] && frames == []
      ensures car.stats == CarControl.StatsFor(upgrades)
      ensures car.MotionOf() == CarControl.Motion(0.0, 0.0, false, 0.0, 0)
      ensures car.InputsOf() == CarControl.Inputs(0.0, 0.0, 0.0, 0.0)
      ensures !car.boosting && car.boostFactor == 1.0 && car.boostTimer == None
      ensures |traffic.cars| == 20
      ensures forall i | 0 <= i < |trafficPicks| :: traffic.cars[i] == Traffic.InitialCar(trafficPicks[i])
    {
      score := 0.0;
      startTime := now;
      gameTime := 0.0;
      lastUpdateTime := now;
      published := [];
      frames := [];
      car := new CarControl.CarController(upgrades);
      traffic := new Traffic.TrafficSystem(trafficPicks);
    }

    /** `update(time, delta)`: report to the page if more than 100 ms have
        passed since the last report, step the car and the traffic, and
        score the frame if the car is drifting. */
    method Update(time: real, delta: real, keys: Option<CarControl.Keys>, respawnPicks: seq<Traffic.SpawnPick>)
      requires Valid() && delta >= 0.0
      requires |respawnPicks| == |traffic.cars|
      requires forall i | 0 <= i < |respawnPicks| :: Traffic.PickInRange(respawnPicks[i], Traffic.LaneCount)
      modifies this, car, traffic
      ensures Valid()
      ensures car == old(car) && traffic == old(traffic) && startTime == old(startTime)
      ensures car.boosting == old(car.boosting) && car.boostFactor == old(car.boostFactor)
      ensures car.boostTimer == old(car.boostTimer)
      ensures gameTime == time - startTime && frames == old(frames) + [time]
      ensures published == old(published)
        + (if time - old(lastUpdateTime) > UiInterval then [UiUpdate(old(score), time - startTime)] else [])
      ensures lastUpdateTime == if time - old(lastUpdateTime) > UiInterval then time else old(lastUpdateTime)
      ensures car.InputsOf() == CarControl.ReadKeys(old(car.InputsOf()), keys)
      ensures car.MotionOf() == CarControl.Physics(old(car.MotionOf()), car.InputsOf(), car.stats,
                                                   CarControl.BoostMultiplier(car.boosting, car.boostFactor), delta / 1000.0)
      ensures |traffic.cars| == old(|traffic.cars|)
      ensures forall i | 0 <= i < |traffic.cars| ::
                traffic.cars[i] == Traffic.Drive(old(traffic.cars)[i], delta, traffic.roadPositions, respawnPicks[i])
      ensures score == old(score) + if car.drifting then DriftPoints(car.driftFactor, car.speed) else 0.0
    {
      Report(time);
      car.Update(delta, keys);
      traffic.Update(delta, respawnPicks);
      if car.drifting {
        var driftPoints := DriftPoints(car.driftFactor, car.speed);
        DriftPointsFacts(car.driftFactor, car.speed);
        score := score + driftPoints;
      }
    }

    /** The reporting part of a frame: the game clock, and a report to the
        page when more than 100 ms have passed since the last one. */
    method Report(time: real)
      requires Reported()
      modifies this`gameTime, this`published, this`lastUpdateTime, this`frames
      ensures Reported()
      ensures gameTime == time - startTime && frames == old(frames) + [time]
      ensures published == old(published)
        + (if time - old(lastUpdateTime) > UiInterval then [UiUpdate(score, time - startTime)] else [])
      ensures lastUpdateTime == if time - old(lastUpdateTime) > UiInterval then time else old(lastUpdateTime)
    {
      gameTime := time - startTime;
      ReportsExtend(startTime, frames, time);
      frames := frames + [time];
      if time - lastUpdateTime > UiInterval {
        published := published + [UiUpdate(score, gameTime)];
        lastUpdateTime := time;
      }
    }

    /** `handleCollision`: the crash penalty. */
    method HandleCollision()
      requires Valid()
      modifies this`score
      ensures Valid() && score == Penalize(old(score))
    {
      score := Max(0.0, score - 500.0);
    }

    /** `handleCollectible`: a coin scores its value, a boost makes the car
        boost by its value for 3000 ms, a multiplier does nothing. */
    method HandleCollectible(c: Collectible)
      requires Valid() && c in CollectibleTypes()
      modifies this`score, car`boosting, car`boostFactor, car`boostTimer
      ensures Valid() && score == Collect(old(score), c)
      ensures c.kind == BoostPickup ==> car.boosting && car.boostFactor == c.value && car.boostTimer == Some(3000.0)
      ensures c.kind != BoostPickup ==> unchanged(car)
    {
      match c.kind
      case Coin =>
        score := score + c.value;
      case BoostPickup =>
        car.ApplyBoost(c.value, 3000.0);
      case MultiplierPickup =>
    }
  }
}
