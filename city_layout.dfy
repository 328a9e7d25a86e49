/** The city of game/objects/city-map.ts: a 40 by 40 grid of 128-pixel
    tiles, a road along every fifth row and column starting at 3, and blocks
    of buildings filling the cells between the roads. The tile sprites and
    building sprites become records of the arguments they are created with;
    the random building type, scale and quarter turn are supplied as picks. */
module CityLayout {

  const TileSize: int := 128
  const MapWidth: int := 40
  const MapHeight: int := 40
  const BlockSize: int := 5

  /** The physics world's bounds, set to the map's size in pixels. */
  const WorldWidth: int := MapWidth * TileSize
  const WorldHeight: int := MapHeight * TileSize

  /** The tile index of the `i`-th road line: 3, 8, ..., 38. */
  function RoadLine(i: nat): int
  {
    3 + 5 * i
  }

  const RoadCount: nat := 8

  /** The road lines are exactly the tile indices below 40 that leave
      remainder 3 when divided by 5. */
  lemma RoadLinesAreThreeModFive(t: int)
    ensures (exists i: nat :: i < RoadCount && RoadLine(i) == t) <==> 0 <= t < MapWidth && t % 5 == 3
  {
    if 0 <= t < MapWidth && t % 5 == 3 {
      var i: nat := t / 5;
      assert RoadLine(i) == t;
    }
  }

  /** A road sprite: its origin, size in pixels and angle in degrees. */
  datatype RoadTile = RoadTile(x: int, y: int, width: int, height: int, angle: int)

  function HorizontalRoad(row: int): RoadTile
  {
    RoadTile(0, row * TileSize, MapWidth * TileSize, TileSize, 90)
  }

  function VerticalRoad(column: int): RoadTile
  {
    RoadTile(column * TileSize, 0, MapHeight * TileSize, TileSize, 0)
  }

  /** The sixteen road sprites of `createRoadGrid`, rows first. */
  function RoadTiles(): (r: seq<RoadTile>)
    ensures |r| == 2 * RoadCount
    ensures forall i | 0 <= i < RoadCount :: r[i] == HorizontalRoad(RoadLine(i))
    ensures forall i | 0 <= i < RoadCount :: r[RoadCount + i] == VerticalRoad(RoadLine(i))
  {
    seq(RoadCount, i requires 0 <= i => HorizontalRoad(RoadLine(i)))
      + seq(RoadCount, i requires 0 <= i => VerticalRoad(RoadLine(i)))
  }

  /** What one call of `Phaser.Math.Between` and `FloatBetween` give each
      building: type 1 to 3, scale 0.8 to 1.2, and 0 to 3 quarter turns. */
  datatype BuildingPick = BuildingPick(kind: int, scale: real, quarterTurns: int)

  predicate PickInRange(p: BuildingPick)
  {
    1 <= p.kind <= 3 && 0.8 <= p.scale <= 1.2 && 0 <= p.quarterTurns <= 3
  }

  /** A building sprite: the centre of its cell in pixels, its type, scale
      and angle in degrees. */
  datatype Building = Building(x: int, y: int, kind: int, scale: real, angle: int)

  /** The building placed on tile cell `cell` with the random choices of
      `p`. */
  function Place(cell: (int, int), p: BuildingPick): Building
  {
    Building(cell.0 * TileSize + TileSize / 2, cell.1 * TileSize + TileSize / 2, p.kind, p.scale, p.quarterTurns * 90)
  }

  /** The local offsets 0, 1, 2, 4 that a block fills: offset 3 is road. */
  function Offset(slot: int): int
  {
    if slot < 3 then slot else 4
  }

  const BlocksPerSide: nat := 8
  const CellsPerBlock: nat := 16
  const BuildingCount: nat := 1024

  /** The tile cell of the `n`-th building laid: blocks are visited column
      by column (8 per column, each 5 tiles on a side), and so are the
      16 cells inside each block. */
  function CellOf(n: nat): (int, int)
  {
    var block, slot := n / CellsPerBlock, n % CellsPerBlock;
    (BlockSize * (block / BlocksPerSide) + Offset(slot / 4), BlockSize * (block % BlocksPerSide) + Offset(slot % 4))
  }

  /** The index of the building on offset slots `(sx, sy)` of the block in
      block column `bc` and block row `br`. */
  lemma CellOfIndex(bc: nat, br: nat, sx: nat, sy: nat)
    requires bc < BlocksPerSide && br < BlocksPerSide && sx < 4 && sy < 4
    ensures CellOf(CellsPerBlock * (BlocksPerSide * bc + br) + 4 * sx + sy)
      == (BlockSize * bc + Offset(sx), BlockSize * br + Offset(sy))
  {
    var block := BlocksPerSide * bc + br;
    var n := CellsPerBlock * block + 4 * sx + sy;
    assert n / CellsPerBlock == block;
    assert n % CellsPerBlock == 4 * sx + sy;
    assert block / BlocksPerSide == bc;
    assert block % BlocksPerSide == br;
  }

  /** Every building stands on the map and off the roads: neither of its
      tile indices leaves remainder 3 when divided by 5. */
  lemma BuildingsAvoidRoads(n: nat)
    requires n < BuildingCount
    ensures var c := CellOf(n);
      && 0 <= c.0 < MapWidth && 0 <= c.1 < MapHeight
      && c.0 % 5 != 3 && c.1 % 5 != 3
  {
    var bc, br, sx, sy := Decompose(n);
    BlockRemainder(bc, Offset(sx));
    BlockRemainder(br, Offset(sy));
  }

  /** A tile `k` tiles into block `b` leaves remainder `k` modulo 5. */
  lemma BlockRemainder(b: nat, k: int)
    requires 0 <= k < BlockSize
    ensures (BlockSize * b + k) % 5 == k
  {
  }

  /** The block column, block row and offset slots of the `n`-th
      building, and the cell they give. */
  lemma Decompose(n: nat) returns (bc: nat, br: nat, sx: nat, sy: nat)
    requires n < BuildingCount
    ensures bc < BlocksPerSide && br < BlocksPerSide && sx < 4 && sy < 4
    ensures n == CellsPerBlock * (BlocksPerSide * bc + br) + 4 * sx + sy
    ensures CellOf(n) == (BlockSize * bc + Offset(sx), BlockSize * br + Offset(sy))
  {
    var block, slot := n / CellsPerBlock, n % CellsPerBlock;
    bc, br, sx, sy := block / BlocksPerSide, block % BlocksPerSide, slot / 4, slot % 4;
  }

  /** A tile index within the block grid fixes its block and its slot. */
  lemma OffsetsDetermine(b: nat, s: nat, b': nat, s': nat)
    requires s < 4 && s' < 4
    ensures BlockSize * b + Offset(s) == BlockSize * b' + Offset(s') ==> b == b' && s == s'
  {
  }

  /** No two buildings share a cell. */
  lemma CellsDistinct(m: nat, n: nat)
    requires m < BuildingCount && n < BuildingCount
    ensures CellOf(m) == CellOf(n) ==> m == n
  {
    var bc, br, sx, sy := Decompose(m);
    var bc', br', sx', sy' := Decompose(n);
    OffsetsDetermine(bc, sx, bc', sx');
    OffsetsDetermine(br, sy, br', sy');
  }

  /** Every building is a whole number of quarter turns. */
  lemma BuildingAngles(cell: (int, int), p: BuildingPick)
    requires PickInRange(p)
    ensures Place(cell, p).angle in {0, 90, 180, 270}
  {
  }

  class CityMap {
    var roadTiles: seq<RoadTile>
    var buildings: seq<Building>

    /** `createMap`: the road grid, then the buildings, one pick each. */
    constructor (picks: seq<BuildingPick>)
      requires |picks| == BuildingCount
      ensures roadTiles == RoadTiles()
      ensures |buildings| == BuildingCount
      ensures forall n | 0 <= n < BuildingCount :: buildings[n] == Place(CellOf(n), picks[n])
    {
      roadTiles := [];
      buildings := [];
      new;
      CreateRoadGrid();
      AddBuildings(picks);
    }

    method CreateRoadGrid()
      requires roadTiles == []
      modifies this`roadTiles
      ensures roadTiles == RoadTiles()
    {
      var y := 3;
      while y < MapHeight
        invariant y == RoadLine(|roadTiles|) && |roadTiles| <= RoadCount
        invariant forall i | 0 <= i < |roadTiles| :: roadTiles[i] == HorizontalRoad(RoadLine(i))
      {
        roadTiles := roadTiles + [HorizontalRoad(y)];
        y := y + 5;
      }
      var x := 3;
      while x < MapWidth
        invariant RoadCount <= |roadTiles| <= 2 * RoadCount && x == RoadLine(|roadTiles| - RoadCount)
        invariant forall i | 0 <= i < RoadCount :: roadTiles[i] == HorizontalRoad(RoadLine(i))
        invariant forall i | RoadCount <= i < |roadTiles| :: roadTiles[i] == VerticalRoad(RoadLine(i - RoadCount))
      {
        roadTiles := roadTiles + [VerticalRoad(x)];
        x := x + 5;
      }
    }

    /** `addBuildings`: one block for each block origin, column by column. */
    method AddBuildings(picks: seq<BuildingPick>)
      requires |picks| == BuildingCount && buildings == []
      modifies this`buildings
      ensures |buildings| == BuildingCount
      ensures forall n | 0 <= n < BuildingCount :: buildings[n] == Place(CellOf(n), picks[n])
    {
      var x := 0;
      while x < MapWidth
        invariant x % BlockSize == 0 && 0 <= x <= MapWidth
        invariant |buildings| == CellsPerBlock * BlocksPerSide * (x / BlockSize)
        invariant forall n | 0 <= n < |buildings| :: buildings[n] == Place(CellOf(n), picks[n])
      {
        var y := 0;
        while y < MapHeight
          invariant y % BlockSize == 0 && 0 <= y <= MapHeight
          invariant |buildings| == CellsPerBlock * (BlocksPerSide * (x / BlockSize) + y / BlockSize)
          invariant forall n | 0 <= n < |buildings| :: buildings[n] == Place(CellOf(n), picks[n])
        {
          if x % 5 == 3 || y % 5 == 3 {
            // Never taken: block origins are multiples of 5.
          } else {
            CreateBuildingBlock(x, y, picks);
          }
          y := y + BlockSize;
        }
        x := x + BlockSize;
      }
    }

    /** `createBuildingBlock`: the 16 cells of the 5 by 5 block at
        `(startX, startY)` that are not on its road row or column. */
    method CreateBuildingBlock(startX: int, startY: int, picks: seq<BuildingPick>)
      requires |picks| == BuildingCount
      requires 0 <= startX < MapWidth && 0 <= startY < MapHeight
      requires startX % BlockSize == 0 && startY % BlockSize == 0
      requires |buildings| == CellsPerBlock * (BlocksPerSide * (startX / BlockSize) + startY / BlockSize)
      requires forall n | 0 <= n < |buildings| :: buildings[n] == Place(CellOf(n), picks[n])
      modifies this`buildings
      ensures |buildings| == old(|buildings|) + CellsPerBlock
      ensures forall n | 0 <= n < |buildings| :: buildings[n] == Place(CellOf(n), picks[n])
    {
      ghost var base := |buildings|;
      ghost var bc, br := startX / BlockSize, startY / BlockSize;
      assert startX == BlockSize * bc && startY == BlockSize * br;
      assert bc < BlocksPerSide && br < BlocksPerSide;
      assert base + CellsPerBlock <= |picks|;
      var x := 0;
      while x < BlockSize
        invariant 0 <= x <= BlockSize && Slot(x) <= 4
        invariant |buildings| == base + 4 * Slot(x)
        invariant forall n | 0 <= n < |buildings| :: buildings[n] == Place(CellOf(n), picks[n])
      {
        var y := 0;
        while y < BlockSize
          invariant 0 <= y <= BlockSize && Slot(y) <= 4
          invariant |buildings| == base + 4 * Slot(x) + (if x == 3 then 0 else Slot(y))
          invariant |buildings| <= base + CellsPerBlock
          invariant forall n | 0 <= n < |buildings| :: buildings[n] == Place(CellOf(n), picks[n])
        {
          if x == 3 || y == 3 {
            // A road cell of the block.
          } else {
            CellInBlock(|buildings|, bc, br, x, y);
            PlaceNext(buildings, picks, (startX + x, startY + y));
            buildings := buildings + [Place((startX + x, startY + y), picks[|buildings|])];
          }
          y := y + 1;
        }
        x := x + 1;
      }
    }
  }

  /** Appending the building for the next index keeps every building on
      the cell its index gives. */
  lemma PlaceNext(bs: seq<Building>, picks: seq<BuildingPick>, cell: (int, int))
    requires |bs| < |picks| && CellOf(|bs|) == cell
    requires forall n | 0 <= n < |bs| :: bs[n] == Place(CellOf(n), picks[n])
    ensures forall n | 0 <= n < |bs| + 1 :: (bs + [Place(cell, picks[|bs|])])[n] == Place(CellOf(n), picks[n])
  {
  }

  /** The building index a block has reached at its offsets `(x, y)` lies on
      that cell of the block. */
  lemma CellInBlock(n: nat, bc: nat, br: nat, x: int, y: int)
    requires bc < BlocksPerSide && br < BlocksPerSide
    requires 0 <= x < BlockSize && 0 <= y < BlockSize && x != 3 && y != 3
    requires n == CellsPerBlock * (BlocksPerSide * bc + br) + 4 * Slot(x) + Slot(y)
    ensures CellOf(n) == (BlockSize * bc + x, BlockSize * br + y)
  {
    CellOfIndex(bc, br, Slot(x), Slot(y));
  }

  /** How many of the offsets below `x` a block fills. */
  function Slot(x: int): nat
    requires 0 <= x <= BlockSize
    ensures x != 3 && x < BlockSize ==> Offset(Slot(x)) == x
  {
    if x <= 3 then x else x - 1
  }
}
