/** The traffic of game/objects/traffic-system.ts: 32 lane entry points, two
    per direction on every road, cars spawned at a random entry point with a
    random speed, driven along their lane each frame and sent back to an
    entry point once they leave the world by more than 200 pixels. The
    random choices are supplied as picks. */
module Traffic {
  import opened JsMath
  import CityLayout

  /** The four lane directions: `direction` 0, PI, PI/2 and -PI/2. */
  datatype Heading = East | West | South | North

  /** The point `distance` further along heading `h` from `(x, y)`:
      `(x + cos(direction) * distance, y + sin(direction) * distance)` for
      the four lane angles, with cosine and sine of the right angles taken
      as exact. */
  function Advance(x: real, y: real, h: Heading, distance: real): (real, real)
  {
    match h
    case East => (x + distance, y)
    case West => (x - distance, y)
    case South => (x, y + distance)
    case North => (x, y - distance)
  }

  datatype RoadPosition = RoadPosition(x: real, y: real, heading: Heading)

  /** The four lanes of the road on tile line `k`: eastbound from the left
      edge and westbound from the right edge of a horizontal road, then
      southbound from the top and northbound from the bottom of a vertical
      one. */
  function EastLane(k: int): RoadPosition
  {
    RoadPosition(0.0, (k * CityLayout.TileSize) as real + CityLayout.TileSize as real * 0.25, East)
  }

  function WestLane(k: int): RoadPosition
  {
    RoadPosition((CityLayout.MapWidth * CityLayout.TileSize) as real,
                 (k * CityLayout.TileSize) as real + CityLayout.TileSize as real * 0.75, West)
  }

  function SouthLane(k: int): RoadPosition
  {
    RoadPosition((k * CityLayout.TileSize) as real + CityLayout.TileSize as real * 0.25, 0.0, South)
  }

  function NorthLane(k: int): RoadPosition
  {
    RoadPosition((k * CityLayout.TileSize) as real + CityLayout.TileSize as real * 0.75,
                 (CityLayout.MapHeight * CityLayout.TileSize) as real, North)
  }

  /** The `n`-th entry `generateRoadPositions` pushes: the horizontal roads'
      pairs first, then the vertical roads' pairs. */
  function Lane(n: nat): RoadPosition
  {
    if n < 2 * CityLayout.RoadCount then
      var k := CityLayout.RoadLine(n / 2);
      if n % 2 == 0 then EastLane(k) else WestLane(k)
    else
      var k := CityLayout.RoadLine((n - 2 * CityLayout.RoadCount) / 2);
      if n % 2 == 0 then SouthLane(k) else NorthLane(k)
  }

  const LaneCount: nat := 32

  /** The four lanes of the `j`-th road line: its east and west lanes on the
      horizontal road, its south and north lanes on the vertical one. */
  lemma LanesOfRoad(j: nat)
    requires j < CityLayout.RoadCount
    ensures Lane(2 * j) == EastLane(CityLayout.RoadLine(j))
    ensures Lane(2 * j + 1) == WestLane(CityLayout.RoadLine(j))
    ensures Lane(2 * CityLayout.RoadCount + 2 * j) == SouthLane(CityLayout.RoadLine(j))
    ensures Lane(2 * CityLayout.RoadCount + 2 * j + 1) == NorthLane(CityLayout.RoadLine(j))
  {
  }

  function RoadPositions(): (r: seq<RoadPosition>)
    ensures |r| == LaneCount
  {
    seq(LaneCount, n requires 0 <= n => Lane(n))
  }

  /** Every entry point lies on the map's edge, in the lane of a road:
      a quarter or three quarters across one of the road tiles 3, 8, ..., 38,
      heading into the map. */
  lemma RoadPositionsOnRoads(n: nat)
    requires n < LaneCount
    ensures var p := RoadPositions()[n];
      var size := (CityLayout.MapWidth * CityLayout.TileSize) as real;
      && 0.0 <= p.x <= size && 0.0 <= p.y <= size
      && (p.heading == East ==> p.x == 0.0)
      && (p.heading == West ==> p.x == size)
      && (p.heading == South ==> p.y == 0.0)
      && (p.heading == North ==> p.y == size)
      && exists i: nat | i < CityLayout.RoadCount ::
           var base := (CityLayout.RoadLine(i) * CityLayout.TileSize) as real;
           var lane := if p.heading.East? || p.heading.West? then p.y else p.x;
           lane == base + 32.0 || lane == base + 96.0
  {
    var i: nat := if n < 16 then n / 2 else (n - 16) / 2;
    assert i < 8;
    var base := (CityLayout.RoadLine(i) * CityLayout.TileSize) as real;
    assert 0.0 <= base && base + 96.0 <= 5120.0;
  }

  datatype CarType = Traffic1 | Traffic2 | Traffic3

  const CarTypes: seq<CarType> := [Traffic1, Traffic2, Traffic3]

  /** A `TrafficCarData` record: where the car was (re)spawned, its speed
      in pixels per second, heading and sprite. */
  datatype TrafficCarData = TrafficCarData(x: real, y: real, speed: real, heading: Heading, sprite: CarType)

  /** A traffic car: the sprite's current position and its data record. */
  datatype TrafficCar = TrafficCar(x: real, y: real, data: TrafficCarData)

  /** The random choices of one spawn: `Between(0, length - 1)` for the entry
      point, `Between(0, 2)` for the car type, `Between(50, 150)` for the
      speed. */
  datatype SpawnPick = SpawnPick(position: nat, carType: nat, speed: int)

  predicate PickInRange(p: SpawnPick, positions: nat)
  {
    (positions > 0 ==> p.position < positions) && p.carType < |CarTypes| && 50 <= p.speed <= 150
  }

  /** How far beyond the world a car may wander before it is respawned. */
  const Margin: real := 200.0

  predicate OutOfBounds(x: real, y: real)
  {
    || x < -Margin
    || x > CityLayout.WorldWidth as real + Margin
    || y < -Margin
    || y > CityLayout.WorldHeight as real + Margin
  }

  predicate IsEntryPoint(p: RoadPosition)
  {
    p in RoadPositions()
  }

  /** A car as the system keeps it: speed between 50 and 150, data naming an
      entry point, and the sprite inside the widened world. */
  predicate CarInRange(c: TrafficCar)
  {
    && 50.0 <= c.data.speed <= 150.0
    && IsEntryPoint(RoadPosition(c.data.x, c.data.y, c.data.heading))
    && !OutOfBounds(c.x, c.y)
  }

  /** The car `spawnTrafficCar` creates from entry point `pos`. */
  function NewCar(pos: RoadPosition, pick: SpawnPick): TrafficCar
    requires pick.carType < |CarTypes|
  {
    TrafficCar(pos.x, pos.y, TrafficCarData(pos.x, pos.y, pick.speed as real, pos.heading, CarTypes[pick.carType]))
  }

  /** The car an initial spawn with `pick` adds: a new car at the picked
      entry point. */
  function InitialCar(pick: SpawnPick): (r: TrafficCar)
    requires PickInRange(pick, LaneCount)
    ensures CarInRange(r) && r.data.speed == pick.speed as real
    ensures RoadPosition(r.x, r.y, r.data.heading) == RoadPositions()[pick.position]
  {
    NewCarInRange(pick.position, pick);
    NewCar(RoadPositions()[pick.position], pick)
  }

  /** `respawnTrafficCar`: the data record moves to entry point `pos` with a
      new speed and heading, keeping its sprite, and the sprite is put on
      the record's position. */
  function Respawn(c: TrafficCar, pos: RoadPosition, pick: SpawnPick): (r: TrafficCar)
    ensures r.x == r.data.x && r.y == r.data.y
    ensures r.data.sprite == c.data.sprite
  {
    var data := c.data.(x := pos.x, y := pos.y, speed := pick.speed as real, heading := pos.heading);
    TrafficCar(data.x, data.y, data)
  }

  /** Where a frame of `delta` milliseconds takes the car's sprite: along its
      heading by `speed * delta / 1000`. */
  function Travel(c: TrafficCar, delta: real): (real, real)
  {
    Advance(c.x, c.y, c.data.heading, c.data.speed * (delta / 1000.0))
  }

  /** One frame of one car in `update`: move along the heading by
      `speed * delta / 1000`, then respawn it if it has left the widened
      world (and an entry point exists). */
  function Drive(c: TrafficCar, delta: real, positions: seq<RoadPosition>, pick: SpawnPick): TrafficCar
    requires PickInRange(pick, |positions|)
  {
    var p := Travel(c, delta);
    var moved := c.(x := p.0, y := p.1);
    if OutOfBounds(moved.x, moved.y) && |positions| > 0 then Respawn(moved, positions[pick.position], pick)
    else moved
  }

  /** A spawned car starts at its entry point with its picked speed. */
  lemma NewCarInRange(n: nat, pick: SpawnPick)
    requires n < LaneCount && PickInRange(pick, LaneCount)
    ensures CarInRange(NewCar(RoadPositions()[n], pick))
  {
    RoadPositionsOnRoads(n);
  }

  /** A car sent back to entry point `n` is inside the widened world, at
      that entry point, with its picked speed. */
  lemma RespawnInRange(c: TrafficCar, n: nat, pick: SpawnPick)
    requires n < LaneCount && PickInRange(pick, LaneCount)
    ensures CarInRange(Respawn(c, RoadPositions()[n], pick))
    ensures var r := Respawn(c, RoadPositions()[n], pick);
      && RoadPosition(r.data.x, r.data.y, r.data.heading) == RoadPositions()[n]
      && r.data.speed == pick.speed as real
  {
    var pos := RoadPositions()[n];
    RoadPositionsOnRoads(n);
    var r := Respawn(c, pos, pick);
    assert RoadPosition(r.data.x, r.data.y, r.data.heading) == RoadPositions()[n];
  }

  /** A car is respawned exactly when the frame takes it out of the
      widened world; otherwise it keeps its data and moves along its lane. */
  lemma DriveRespawnsIffOut(c: TrafficCar, delta: real, pick: SpawnPick)
    requires PickInRange(pick, LaneCount)
    ensures var r := Drive(c, delta, RoadPositions(), pick);
      var p := Travel(c, delta);
      && (OutOfBounds(p.0, p.1) ==> r == Respawn(c, RoadPositions()[pick.position], pick))
      && (!OutOfBounds(p.0, p.1) ==> r == TrafficCar(p.0, p.1, c.data))
  {
    var p := Travel(c, delta);
    RespawnReadsOnlyData(c.(x := p.0, y := p.1), c, RoadPositions()[pick.position], pick);
  }

  /** Where a car is respawned does not depend on where its sprite was. */
  lemma RespawnReadsOnlyData(c: TrafficCar, c': TrafficCar, pos: RoadPosition, pick: SpawnPick)
    requires c.data == c'.data
    ensures Respawn(c, pos, pick) == Respawn(c', pos, pick)
  {
  }

  /** After a frame every car is again inside the widened world, with a
      speed from 50 to 150 and data naming an entry point. */
  lemma DriveKeepsCarInRange(c: TrafficCar, delta: real, pick: SpawnPick)
    requires CarInRange(c) && PickInRange(pick, LaneCount)
    ensures CarInRange(Drive(c, delta, RoadPositions(), pick))
  {
    DriveRespawnsIffOut(c, delta, pick);
    var p := Travel(c, delta);
    if OutOfBounds(p.0, p.1) {
      RespawnInRange(c, pick.position, pick);
    }
  }

  /** `spawnTrafficCar` on the cars: nothing without entry points,
      otherwise one new car at the picked entry point. */
  function Spawn(positions: seq<RoadPosition>, cars: seq<TrafficCar>, pick: SpawnPick): seq<TrafficCar>
    requires PickInRange(pick, |positions|)
  {
    if |positions| == 0 then cars else cars + [NewCar(positions[pick.position], pick)]
  }

  /** Spawning appends exactly one car when there are entry points and
      nothing otherwise, and keeps every car in range. */
  lemma SpawnFacts(positions: seq<RoadPosition>, cars: seq<TrafficCar>, pick: SpawnPick)
    requires PickInRange(pick, |positions|)
    ensures var r := Spawn(positions, cars, pick);
      && (|positions| == 0 ==> r == cars)
      && (|positions| > 0 ==>
            && |r| == |cars| + 1 && r[..|cars|] == cars
            && r[|cars|].data.speed == pick.speed as real
            && RoadPosition(r[|cars|].x, r[|cars|].y, r[|cars|].data.heading) == positions[pick.position])
      && ((positions == RoadPositions() && forall i | 0 <= i < |cars| :: CarInRange(cars[i])) ==>
            forall i | 0 <= i < |r| :: CarInRange(r[i]))
  {
    if positions == RoadPositions() {
      NewCarInRange(pick.position, pick);
      var r := Spawn(positions, cars, pick);
      assert r[|cars|] == NewCar(positions[pick.position], pick);
    }
  }

  /** An initial spawn on the entry points appends the car of the next
      pick, keeping the cars of the earlier picks. */
  lemma SpawnInitial(cars: seq<TrafficCar>, picks: seq<SpawnPick>, i: nat)
    requires i < |picks| && |cars| == i && PickInRange(picks[i], LaneCount)
    requires forall j | 0 <= j < i :: PickInRange(picks[j], LaneCount) && cars[j] == InitialCar(picks[j])
    ensures var r := Spawn(RoadPositions(), cars, picks[i]);
      |r| == i + 1 && forall j | 0 <= j <= i :: r[j] == InitialCar(picks[j])
  {
  }

  /** Pushing the next two lanes keeps the list a prefix of the lanes. */
  lemma PushLanes(rp: seq<RoadPosition>, a: RoadPosition, b: RoadPosition)
    requires forall n | 0 <= n < |rp| :: rp[n] == Lane(n)
    requires Lane(|rp|) == a && Lane(|rp| + 1) == b
    ensures forall n | 0 <= n < |rp| + 2 :: (rp + [a] + [b])[n] == Lane(n)
  {
  }

  /** All 32 lanes in order are the entry points. */
  lemma AllLanes(rp: seq<RoadPosition>)
    requires |rp| == LaneCount && forall n | 0 <= n < |rp| :: rp[n] == Lane(n)
    ensures rp == RoadPositions()
  {
  }

  class TrafficSystem {
    var roadPositions: seq<RoadPosition>
    /** The sprites of the group together with the `trafficCars` records
        they carry: the two lists are always pushed together. */
    var cars: seq<TrafficCar>

    ghost predicate Valid()
      reads this
    {
      roadPositions == RoadPositions() && forall i | 0 <= i < |cars| :: CarInRange(cars[i])
    }

    /** The entry points, then twenty initial spawns: car `i` is the car
        spawned with pick `i`. */
    constructor (picks: seq<SpawnPick>)
      requires |picks| == 20 && forall i | 0 <= i < |picks| :: PickInRange(picks[i], LaneCount)
      ensures Valid() && |cars| == 20
      ensures forall i | 0 <= i < |picks| :: cars[i] == InitialCar(picks[i])
    {
      roadPositions := [];
      cars := [];
      new;
      GenerateRoadPositions();
      var i := 0;
      while i < 20
        invariant 0 <= i <= 20 && Valid() && |cars| == i
        invariant forall j | 0 <= j < i :: cars[j] == InitialCar(picks[j])
      {
        SpawnInitial(cars, picks, i);
        SpawnTrafficCar(picks[i]);
        i := i + 1;
      }
    }

    method GenerateRoadPositions()
      requires roadPositions == []
      modifies this`roadPositions
      ensures roadPositions == RoadPositions()
    {
      var y := 3;
      ghost var j: nat := 0;
      while y < CityLayout.MapHeight
        invariant j <= CityLayout.RoadCount && |roadPositions| == 2 * j
        invariant y == CityLayout.RoadLine(j)
        invariant forall n | 0 <= n < |roadPositions| :: roadPositions[n] == Lane(n)
      {
        LanesOfRoad(j);
        PushLanes(roadPositions, EastLane(y), WestLane(y));
        roadPositions := roadPositions + [EastLane(y)];
        roadPositions := roadPositions + [WestLane(y)];
        y := y + 5;
        j := j + 1;
      }
      assert j == CityLayout.RoadCount;
      var x := 3;
      j := 0;
      while x < CityLayout.MapWidth
        invariant j <= CityLayout.RoadCount && |roadPositions| == 2 * CityLayout.RoadCount + 2 * j
        invariant x == CityLayout.RoadLine(j)
        invariant forall n | 0 <= n < |roadPositions| :: roadPositions[n] == Lane(n)
      {
        LanesOfRoad(j);
        PushLanes(roadPositions, SouthLane(x), NorthLane(x));
        roadPositions := roadPositions + [SouthLane(x)];
        roadPositions := roadPositions + [NorthLane(x)];
        x := x + 5;
        j := j + 1;
      }
      AllLanes(roadPositions);
    }

    /** `spawnTrafficCar`, also fired every 2000 ms by the spawn timer. */
    method SpawnTrafficCar(pick: SpawnPick)
      requires PickInRange(pick, |roadPositions|)
      modifies this`cars
      ensures cars == Spawn(roadPositions, old(cars), pick)
      ensures old(Valid()) ==> Valid()
    {
      SpawnFacts(roadPositions, cars, pick);
      if |roadPositions| == 0 {
        return;
      }
      var roadPos := roadPositions[pick.position];
      var car := NewCar(roadPos, pick);
      cars := cars + [car];
    }

    /** `update(delta)`: drive every car for one frame, respawning with its
        own pick each car that has left the widened world. */
    method Update(delta: real, picks: seq<SpawnPick>)
      requires Valid()
      requires |picks| == |cars| && forall i | 0 <= i < |picks| :: PickInRange(picks[i], LaneCount)
      modifies this`cars
      ensures Valid() && |cars| == old(|cars|)
      ensures forall i | 0 <= i < |cars| :: cars[i] == Drive(old(cars)[i], delta, roadPositions, picks[i])
    {
      var k := 0;
      while k < |cars|
        invariant 0 <= k <= |cars| == |old(cars)| && Valid()
        invariant forall i | 0 <= i < k :: cars[i] == Drive(old(cars)[i], delta, roadPositions, picks[i])
        invariant forall i | k <= i < |cars| :: cars[i] == old(cars)[i]
      {
        DriveKeepsCarInRange(cars[k], delta, picks[k]);
        cars := cars[k := Drive(cars[k], delta, roadPositions, picks[k])];
        k := k + 1;
      }
    }
  }
}
