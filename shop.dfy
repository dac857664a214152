/**
 * The shop: a fixed stock of weapons, armor and accessories; the buy menu
 * lists what the player's level and class allow, and buying or selling moves
 * gold and items between the player and the shop.
 */
module Shop {
  import opened Basics
  import opened Characters

  /** The stock by category, in the order the buy menu lists the categories. */
  datatype Catalogue = Catalogue(weapons: seq<Item>, armor: seq<Item>, accessories: seq<Item>)

  /** Every item of the stock, weapons first, then armor, then accessories. */
  function AllItems(c: Catalogue): seq<Item> {
    c.weapons + c.armor + c.accessories
  }

  /** The shop's stock; stats the data leaves out are zero. */
  const Stock: Catalogue := Catalogue(
    [ Item("Iron Sword", "weapon", 100, StatBlock(0, 0, 5, 0, 0, 0), Requirement(1, Some([Warrior, Rogue]))),
      Item("Wooden Staff", "weapon", 100, StatBlock(0, 0, 0, 0, 5, 0), Requirement(1, Some([Mage]))),
      Item("Steel Dagger", "weapon", 100, StatBlock(0, 0, 0, 5, 0, 0), Requirement(1, Some([Rogue]))),
      Item("Steel Sword", "weapon", 250, StatBlock(0, 0, 10, 0, 0, 0), Requirement(5, Some([Warrior, Rogue]))),
      Item("Crystal Staff", "weapon", 250, StatBlock(0, 20, 0, 0, 10, 0), Requirement(5, Some([Mage]))) ],
    [ Item("Leather Armor", "armor", 80, StatBlock(10, 0, 0, 0, 0, 3), Requirement(1, None)),
      Item("Chain Mail", "armor", 200, StatBlock(25, 0, 0, 0, 0, 8), Requirement(5, None)) ],
    [ Item("Ring of Health", "accessory", 150, StatBlock(20, 0, 0, 0, 0, 0), Requirement(1, None)),
      Item("Magic Amulet", "accessory", 150, StatBlock(0, 20, 0, 0, 0, 0), Requirement(1, None)) ])

  /**
   * An item is offered when the player's level reaches its requirement and it
   * either names no classes or names the player's class.
   */
  predicate Eligible(item: Item, level: int, c: CharClass) {
    item.requirement.level <= level
    && (item.requirement.classes.None? || c in item.requirement.classes.value)
  }

  /** The buy menu: the eligible items, in stock order. */
  function Available(items: seq<Item>, level: int, c: CharClass): (offered: seq<Item>)
    ensures forall x :: x in offered <==> x in items && Eligible(x, level, c)
    ensures |offered| <= |items|
  {
    if items == [] then []
    else (if Eligible(items[0], level, c) then [items[0]] else []) + Available(items[1..], level, c)
  }

  /** Filtering a concatenation filters each part and keeps the parts in order. */
  lemma {:induction false} AvailableConcat(a: seq<Item>, b: seq<Item>, level: int, c: CharClass)
    ensures Available(a + b, level, c) == Available(a, level, c) + Available(b, level, c)
  {
    if a != [] {
      var head := if Eligible(a[0], level, c) then [a[0]] else [];
      assert (a + b)[0] == a[0];
      assert (a + b)[1..] == a[1..] + b;
      AvailableConcat(a[1..], b, level, c);
      assert Available(a + b, level, c) == head + (Available(a[1..], level, c) + Available(b, level, c));
      assert Available(a, level, c) == head + Available(a[1..], level, c);
    } else {
      assert a + b == b;
    }
  }

  /** The menu lists the eligible weapons, then the eligible armor, then the eligible accessories. */
  lemma MenuOrder(cat: Catalogue, level: int, c: CharClass)
    ensures Available(AllItems(cat), level, c)
      == Available(cat.weapons, level, c) + Available(cat.armor, level, c) + Available(cat.accessories, level, c)
  {
    AvailableConcat(cat.weapons + cat.armor, cat.accessories, level, c);
    AvailableConcat(cat.weapons, cat.armor, level, c);
  }

  /** Levelling up never takes an item off the menu. */
  lemma MenuGrowsWithLevel(items: seq<Item>, l1: int, l2: int, c: CharClass)
    requires l1 <= l2
    ensures forall x :: x in Available(items, l1, c) ==> x in Available(items, l2, c)
  {
  }

  /** Every stocked item names one of the three equipment slots, so equipping it succeeds. */
  lemma StockIsEquippable()
    ensures forall x :: x in AllItems(Stock) ==> SlotOf(x.itemType).Some?
    ensures forall x :: x in AllItems(Stock) ==> x.cost > 0 && x.requirement.level >= 1
  {
    assert forall x :: x in Stock.weapons ==> x.itemType == "weapon";
    assert forall x :: x in Stock.armor ==> x.itemType == "armor";
    assert forall x :: x in Stock.accessories ==> x.itemType == "accessory";
  }

  /**
   * Scenario: a level-1 mage is offered the wooden staff but not the iron
   * sword; a warrior first sees the steel sword at level 5; the leather armor
   * names no class and is offered to everyone from level 1.
   */
  lemma MenuScenarios(c: CharClass)
    ensures Stock.weapons[1] in Available(AllItems(Stock), 1, Mage)
    ensures Stock.weapons[0] !in Available(AllItems(Stock), 1, Mage)
    ensures Stock.weapons[3] !in Available(AllItems(Stock), 4, Warrior)
    ensures Stock.weapons[3] in Available(AllItems(Stock), 5, Warrior)
    ensures Stock.armor[0] in Available(AllItems(Stock), 1, c)
  {
    assert Stock.weapons[1] in AllItems(Stock) && Stock.weapons[3] in AllItems(Stock);
    assert Stock.armor[0] in AllItems(Stock);
  }

  /** `splice(i, 1)`: the sequence without its `i`-th element. */
  function RemoveAt<T>(s: seq<T>, i: int): (r: seq<T>)
    requires 0 <= i < |s|
    ensures |r| == |s| - 1
    ensures forall j :: 0 <= j < i ==> r[j] == s[j]
    ensures forall j :: i <= j < |r| ==> r[j] == s[j + 1]
    ensures multiset(r) + multiset{s[i]} == multiset(s)
  {
    assert s == s[..i] + [s[i]] + s[i + 1..];
    s[..i] + s[i + 1..]
  }

  /** What selling an item pays: half its cost, rounded down. */
  function SellPrice(item: Item): (price: int)
    ensures item.cost >= 0 ==> 0 <= price <= item.cost
  {
    ScaleShrinks(if item.cost >= 0 then item.cost else 0, 0.5);
    Scale(item.cost, 0.5)
  }

  /** Buying an item and selling it straight back restores the inventory and loses the other half of the cost. */
  lemma BuySellRoundTrip(inventory: seq<Item>, item: Item)
    ensures RemoveAt(inventory + [item], |inventory|) == inventory
    ensures item.cost >= 0 ==> item.cost - SellPrice(item) == item.cost - item.cost / 2 >= 0
  {
    assert (inventory + [item])[..|inventory|] == inventory;
  }

  datatype BuyOutcome = BuyCancelled | NotEnoughGold(item: Item) | Bought(item: Item)

  datatype SellOutcome = InventoryEmpty | SellCancelled | Sold(item: Item, price: int)

  class ShopSystem {
    const inventory: Catalogue

    constructor ()
      ensures inventory == Stock
    {
      inventory := Stock;
    }

    /**
     * The player's choice from the buy menu is an index into it, or -1 for
     * cancel. Too little gold changes nothing; otherwise the price is paid and
     * the item goes to the end of the player's inventory.
     */
    method BuyItem(player: Character, itemIndex: int) returns (outcome: BuyOutcome)
      requires itemIndex == -1 || 0 <= itemIndex < |Available(AllItems(inventory), player.level, player.className)|
      modifies player`gold, player`inventory
      ensures var offered := Available(AllItems(inventory), player.level, player.className);
        if itemIndex == -1 then
          outcome == BuyCancelled && player.gold == old(player.gold) && player.inventory == old(player.inventory)
        else if old(player.gold) < offered[itemIndex].cost then
          outcome == NotEnoughGold(offered[itemIndex])
          && player.gold == old(player.gold) && player.inventory == old(player.inventory)
        else
          && outcome == Bought(offered[itemIndex])
          && player.gold == old(player.gold) - offered[itemIndex].cost >= 0
          && player.inventory == old(player.inventory) + [offered[itemIndex]]
    {
      var offered := Available(AllItems(inventory), player.level, player.className);
      if itemIndex == -1 {
        return BuyCancelled;
      }
      var item := offered[itemIndex];
      if player.gold < item.cost {
        return NotEnoughGold(item);
      }
      player.gold := player.gold - item.cost;
      player.inventory := player.inventory + [item];
      outcome := Bought(item);
    }

    /**
     * With an empty inventory nothing happens; otherwise the choice is an
     * index into the inventory, or -1 for cancel. A sale pays half the cost,
     * rounded down, and removes exactly that item, keeping the others in order.
     */
    method SellItem(player: Character, itemIndex: int) returns (outcome: SellOutcome)
      requires |player.inventory| == 0 || itemIndex == -1 || 0 <= itemIndex < |player.inventory|
      modifies player`gold, player`inventory
      ensures |old(player.inventory)| == 0 ==>
        outcome == InventoryEmpty && player.gold == old(player.gold) && player.inventory == old(player.inventory)
      ensures |old(player.inventory)| > 0 && itemIndex == -1 ==>
        outcome == SellCancelled && player.gold == old(player.gold) && player.inventory == old(player.inventory)
      ensures |old(player.inventory)| > 0 && itemIndex != -1 ==>
        var item := old(player.inventory)[itemIndex];
        && outcome == Sold(item, SellPrice(item))
        && player.gold == old(player.gold) + SellPrice(item)
        && player.inventory == RemoveAt(old(player.inventory), itemIndex)
    {
      if |player.inventory| == 0 {
        return InventoryEmpty;
      }
      if itemIndex == -1 {
        return SellCancelled;
      }
      var item := player.inventory[itemIndex];
      var price := SellPrice(item);
      player.gold := player.gold + price;
      player.inventory := RemoveAt(player.inventory, itemIndex);
      outcome := Sold(item, price);
    }
  }
}
