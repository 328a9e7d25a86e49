/** The upgrade shop of game/scenes/shop-scene.ts: the price of the next
    level of an upgrade, the purchase rule, the state of each upgrade button,
    and the car colour picker. Drawing the scene and restarting it after a
    purchase are not modelled; saving the profile is the profile the scene
    holds afterwards. */
module Shop {
  import opened PlayerProfile
  import TimeFormat

  /** The highest level an upgrade can be bought to. */
  const MaxLevel: nat := 5

  /** A price: a whole number of dollars, or `Number.POSITIVE_INFINITY`,
      which no amount of money reaches. */
  datatype Cost = Finite(amount: nat) | Infinite

  function Pow2(n: nat): (r: nat)
    ensures r >= 1
  {
    if n == 0 then 1 else 2 * Pow2(n - 1)
  }

  /** `getUpgradeCost`: 500 doubled once per level already bought, and
      infinite once the upgrade is maxed. */
  function UpgradeCost(level: nat): (c: Cost)
    ensures c.Infinite? <==> level >= MaxLevel
    ensures c.Finite? ==> c.amount >= 500
  {
    if level >= MaxLevel then Infinite else Finite(500 * Pow2(level))
  }

  /** `cost <= money`. */
  predicate Affordable(c: Cost, money: int)
  {
    c.Finite? && c.amount <= money
  }

  /** Each level costs twice the one before, from 500 for the first. */
  lemma CostDoubles(level: nat)
    requires level + 1 < MaxLevel
    ensures UpgradeCost(0) == Finite(500)
    ensures UpgradeCost(level + 1) == Finite(2 * UpgradeCost(level).amount)
  {
  }

  /** `purchaseUpgrade`: when the price is affordable, pay it and raise that
      upgrade by one level; otherwise nothing happens. */
  function Purchase(p: PlayerData, kind: UpgradeKind): PlayerData
  {
    var level := Level(p.upgrades, kind);
    var cost := UpgradeCost(level);
    if Affordable(cost, p.money) then
      p.(money := p.money - cost.amount, upgrades := WithLevel(p.upgrades, kind, level + 1))
    else
      p
  }

  /** A purchase either changes nothing, or lowers the money by exactly the
      price, which it never pushes below zero, and raises the chosen level by
      exactly one; the other upgrades, the colour and the high score are
      untouched either way. */
  lemma PurchaseFacts(p: PlayerData, kind: UpgradeKind)
    ensures var r := Purchase(p, kind);
      var level := Level(p.upgrades, kind);
      var cost := UpgradeCost(level);
      && (Affordable(cost, p.money) ==>
            r.money == p.money - cost.amount && r.money >= 0 && Level(r.upgrades, kind) == level + 1)
      && (!Affordable(cost, p.money) ==> r == p)
      && r.carColor == p.carColor && r.highScore == p.highScore
      && (forall k: UpgradeKind | k != kind :: Level(r.upgrades, k) == Level(p.upgrades, k))
  {
  }

  /** Buying never takes a level past 5, and never leaves money negative
      when there was none owed. */
  lemma PurchaseKeepsProfileSound(p: PlayerData, kind: UpgradeKind)
    requires p.money >= 0
    requires forall k: UpgradeKind :: Level(p.upgrades, k) <= MaxLevel
    ensures var r := Purchase(p, kind);
      && r.money >= 0 && r.money <= p.money
      && (forall k: UpgradeKind :: Level(r.upgrades, k) <= MaxLevel)
  {
    PurchaseFacts(p, kind);
  }

  /** `kind` bought `n` times in a row. */
  function PurchaseRepeatedly(p: PlayerData, kind: UpgradeKind, n: nat): PlayerData
    decreases n
  {
    if n == 0 then p else PurchaseRepeatedly(Purchase(p, kind), kind, n - 1)
  }

  /** Taking an upgrade from level 0 to the maximum costs 500 + 1000 + 2000
      + 4000 + 8000 = 15500 in all, and a further purchase does nothing. */
  lemma {:induction false} MaxingOutCosts15500(p: PlayerData, kind: UpgradeKind)
    requires Level(p.upgrades, kind) == 0 && p.money >= 15500
    ensures var r := PurchaseRepeatedly(p, kind, MaxLevel);
      && r.money == p.money - 15500
      && Level(r.upgrades, kind) == MaxLevel
      && Purchase(r, kind) == r
  {
    var p1 := Purchase(p, kind);
    var p2 := Purchase(p1, kind);
    var p3 := Purchase(p2, kind);
    var p4 := Purchase(p3, kind);
    var p5 := Purchase(p4, kind);
    PurchaseFacts(p, kind);
    PurchaseFacts(p1, kind);
    PurchaseFacts(p2, kind);
    PurchaseFacts(p3, kind);
    PurchaseFacts(p4, kind);
    assert PurchaseRepeatedly(p4, kind, 1) == p5 by {
      assert PurchaseRepeatedly(p5, kind, 0) == p5;
    }
    assert PurchaseRepeatedly(p, kind, 5) == p5 by {
      assert PurchaseRepeatedly(p3, kind, 2) == PurchaseRepeatedly(p4, kind, 1);
      assert PurchaseRepeatedly(p2, kind, 3) == PurchaseRepeatedly(p3, kind, 2);
      assert PurchaseRepeatedly(p1, kind, 4) == PurchaseRepeatedly(p2, kind, 3);
    }
  }

  /** An upgrade button: its caption, background colour, and whether it
      reacts to clicks. */
  datatype UpgradeButton = UpgradeButton(text: string, color: string, interactive: bool)

  /** The button `createUpgradeSection` draws for an upgrade at `level`. */
  function ButtonFor(level: nat, money: int): (b: UpgradeButton)
    ensures b.text == "MAXED" <==> level >= MaxLevel
    ensures b.color == "#666666" <==> level >= MaxLevel
  {
    var cost := UpgradeCost(level);
    var text := if level >= MaxLevel then "MAXED" else "UPGRADE ($" + TimeFormat.IntToString(cost.amount) + ")";
    var color := if level >= MaxLevel then "#666666" else if Affordable(cost, money) then "#00cc00" else "#cc0000";
    UpgradeButton(text, color, level < MaxLevel && Affordable(cost, money))
  }

  /** A button can be clicked exactly when clicking it would buy something:
      a green, clickable button always completes its purchase, and every
      other button would be refused. */
  lemma ClickableIffPurchaseSucceeds(p: PlayerData, kind: UpgradeKind)
    ensures ButtonFor(Level(p.upgrades, kind), p.money).interactive <==> Purchase(p, kind) != p
    ensures ButtonFor(Level(p.upgrades, kind), p.money).interactive <==>
            ButtonFor(Level(p.upgrades, kind), p.money).color == "#00cc00"
  {
    PurchaseFacts(p, kind);
  }

  /** The five colours on offer, by name and six-digit hex value (the
      `toString(16).padStart(6, "0")` of each colour number). */
  function ColorOptions(): (c: seq<(string, string)>)
    ensures |c| == 5
    ensures forall i, j | 0 <= i < j < |c| :: c[i].1 != c[j].1
  {
    [("RED", "ff0000"), ("BLUE", "0000ff"), ("GREEN", "00ff00"), ("YELLOW", "ffff00"), ("PURPLE", "800080")]
  }

  /** The colour buttons drawn with a white outline: those whose hex is the
      car's colour. */
  function Highlighted(carColor: string): (s: set<nat>)
    ensures forall i :: i in s ==> i < |ColorOptions()| && ColorOptions()[i].1 == carColor
  {
    set i: nat | i < |ColorOptions()| && ColorOptions()[i].1 == carColor
  }

  /** Choosing a colour from the picker outlines that button and no other. */
  lemma PickingHighlightsOnlyThatColor(j: nat)
    requires j < |ColorOptions()|
    ensures Highlighted(ColorOptions()[j].1) == {j}
  {
    var s := Highlighted(ColorOptions()[j].1);
    assert j in s;
  }

  class ShopScene {
    /** The profile loaded in `create`, updated by the scene's buttons. */
    var playerData: PlayerData

    constructor (saved: PlayerData)
      ensures playerData == saved
    {
      playerData := saved;
    }

    /** The button currently drawn for `kind`. */
    function Button(kind: UpgradeKind): UpgradeButton
      reads this
    {
      ButtonFor(Level(playerData.upgrades, kind), playerData.money)
    }

    /** A click on an upgrade's button: the purchase rule, which changes the
        profile exactly when the button drawn for it was clickable. */
    method PurchaseUpgrade(kind: UpgradeKind)
      modifies this
      ensures playerData == Purchase(old(playerData), kind)
      ensures old(Button(kind).interactive) <==> playerData != old(playerData)
    {
      ClickableIffPurchaseSucceeds(playerData, kind);
      var cost := UpgradeCost(Level(playerData.upgrades, kind));
      if cost.Finite? && cost.amount <= playerData.money {
        playerData := playerData.(money := playerData.money - cost.amount);
        var level := Level(playerData.upgrades, kind);
        playerData := playerData.(upgrades := WithLevel(playerData.upgrades, kind, level + 1));
      }
    }

    /** The colour is replaced; money, upgrades and the high score stay. */
    method SelectCarColor(colorHex: string)
      modifies this
      ensures playerData == old(playerData).(carColor := colorHex)
    {
      playerData := playerData.(carColor := colorHex);
    }
  }
}
