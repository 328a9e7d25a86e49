/** The saved player profile of types/game-types.ts and its defaults in
    game/utils/player-data.ts, and the table of collectible kinds of
    game/objects/collectibles-system.ts. Reading and writing the profile
    through localStorage is not modelled: scenes receive and return the
    record. */
module PlayerProfile {
  import opened JsMath

  /** Upgrade levels. The game only ever writes whole, nonnegative levels. */
  datatype Upgrades = Upgrades(engine: nat, tires: nat, handling: nat)

  datatype UpgradeKind = Engine | Tires | Handling

  /** `upgrades[upgradeType]`. */
  function Level(u: Upgrades, kind: UpgradeKind): nat
  {
    match kind
    case Engine => u.engine
    case Tires => u.tires
    case Handling => u.handling
  }

  /** Setting one upgrade's level leaves the other two as they were. */
  function WithLevel(u: Upgrades, kind: UpgradeKind, n: nat): (r: Upgrades)
    ensures Level(r, kind) == n
    ensures forall k: UpgradeKind | k != kind :: Level(r, k) == Level(u, k)
  {
    match kind
    case Engine => u.(engine := n)
    case Tires => u.(tires := n)
    case Handling => u.(handling := n)
  }

  datatype PlayerData = PlayerData(money: int, highScore: real, upgrades: Upgrades, carColor: string)

  /** The profile a new player starts with: no money, no upgrades, a red car. */
  function DefaultPlayerData(): (p: PlayerData)
    ensures p.money == 0 && p.highScore == 0.0
    ensures forall k: UpgradeKind :: Level(p.upgrades, k) == 0
  {
    PlayerData(0, 0.0, Upgrades(0, 0, 0), "ff0000")
  }

  datatype CollectibleKind = Coin | BoostPickup | MultiplierPickup

  /** A collectible's kind, value and optional duration in milliseconds. */
  datatype Collectible = Collectible(kind: CollectibleKind, value: real, duration: Option<real>)

  /** The three collectible kinds the spawner picks from. */
  function CollectibleTypes(): (t: seq<Collectible>)
    ensures |t| == 3
    ensures forall i | 0 <= i < |t| :: t[i].value > 0.0
    ensures forall i | 0 <= i < |t| :: t[i].kind == Coin <==> t[i].duration.None?
  {
    [Collectible(Coin, 100.0, None),
     Collectible(BoostPickup, 1.5, Some(3000.0)),
     Collectible(MultiplierPickup, 2.0, Some(5000.0))]
  }
}
