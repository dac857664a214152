/**
 * The player character: class-dependent base stats and skills, skill use
 * against an enemy, equipment bookkeeping, the experience curve, levelling,
 * resting and respawning after a defeat.
 */
module Characters {
  import opened Basics
  import Enemies

  datatype CharClass = Warrior | Mage | Rogue

  datatype StatName = Hp | Mp | Str | Dex | Int | Def

  /** The six combat stats; `intel` is the stat the game calls `int`. */
  datatype StatBlock = StatBlock(hp: int, mp: int, str: int, dex: int, intel: int, def: int)
  {
    function Get(k: StatName): int {
      match k
      case Hp => hp
      case Mp => mp
      case Str => str
      case Dex => dex
      case Int => intel
      case Def => def
    }

    /** `stats[k] += v` */
    function Add(k: StatName, v: int): (r: StatBlock)
      ensures r.Get(k) == Get(k) + v
      ensures forall j :: j != k ==> r.Get(j) == Get(j)
    {
      match k
      case Hp => this.(hp := hp + v)
      case Mp => this.(mp := mp + v)
      case Str => this.(str := str + v)
      case Dex => this.(dex := dex + v)
      case Int => this.(intel := intel + v)
      case Def => this.(def := def + v)
    }

    function Plus(o: StatBlock): StatBlock {
      StatBlock(hp + o.hp, mp + o.mp, str + o.str, dex + o.dex, intel + o.intel, def + o.def)
    }

    function Minus(o: StatBlock): StatBlock {
      StatBlock(hp - o.hp, mp - o.mp, str - o.str, dex - o.dex, intel - o.intel, def - o.def)
    }
  }

  const Zero := StatBlock(0, 0, 0, 0, 0, 0)

  /** One entry of an item's (or a level gain's) stat object. */
  datatype Bonus = Bonus(stat: StatName, value: int)

  /** What a list of entries adds up to, stat by stat. */
  function Total(bonuses: seq<Bonus>): StatBlock
  {
    if bonuses == [] then Zero
    else
      var last := bonuses[|bonuses| - 1];
      Total(bonuses[..|bonuses| - 1]).Add(last.stat, last.value)
  }

  // The regrouping steps the bookkeeping proofs use; the solver does not find them on its own.

  lemma AddAfterPlus(x: StatBlock, y: StatBlock, k: StatName, v: int)
    ensures x.Plus(y).Add(k, v) == x.Plus(y.Add(k, v))
    ensures x.Minus(y).Add(k, -v) == x.Minus(y.Add(k, v))
  {
  }

  lemma ZeroNeutral(x: StatBlock)
    ensures x.Plus(Zero) == x && x.Minus(Zero) == x
  {
  }

  datatype Requirement = Requirement(level: int, classes: Option<seq<CharClass>>)

  /**
   * An item: its slot is named by the string `itemType`, as in the game's data;
   * `stats` is its stat object, with 0 for every stat the object does not list.
   */
  datatype Item = Item(name: string, itemType: string, cost: int, stats: StatBlock, requirement: Requirement)

  datatype Slot = WeaponSlot | ArmorSlot | AccessorySlot

  /** The equipment object has exactly the keys "weapon", "armor" and "accessory". */
  function SlotOf(key: string): (s: Option<Slot>)
    ensures s.Some? <==> key in {"weapon", "armor", "accessory"}
  {
    if key == "weapon" then Some(WeaponSlot)
    else if key == "armor" then Some(ArmorSlot)
    else if key == "accessory" then Some(AccessorySlot)
    else None
  }

  datatype Equipment = Equipment(weapon: Option<Item>, armor: Option<Item>, accessory: Option<Item>)
  {
    function Get(s: Slot): Option<Item> {
      match s
      case WeaponSlot => weapon
      case ArmorSlot => armor
      case AccessorySlot => accessory
    }

    function Set(s: Slot, x: Option<Item>): (e: Equipment)
      ensures e.Get(s) == x
      ensures forall t :: t != s ==> e.Get(t) == Get(t)
    {
      match s
      case WeaponSlot => this.(weapon := x)
      case ArmorSlot => this.(armor := x)
      case AccessorySlot => this.(accessory := x)
    }
  }

  const NoEquipment := Equipment(None, None, None)

  function ItemBonus(x: Option<Item>): StatBlock {
    if x.Some? then x.value.stats else Zero
  }

  /** The stats after putting on what a slot holds; an empty slot leaves them as they are. */
  function Wear(s: StatBlock, x: Option<Item>): StatBlock {
    if x.Some? then s.Plus(x.value.stats) else s
  }

  /** The stats `s` with everything in `e` worn. */
  function WearAll(s: StatBlock, e: Equipment): StatBlock {
    Wear(Wear(Wear(s, e.weapon), e.armor), e.accessory)
  }

  lemma WearAllIsSum(s: StatBlock, e: Equipment)
    ensures WearAll(s, e) == s.Plus(ItemBonus(e.weapon)).Plus(ItemBonus(e.armor)).Plus(ItemBonus(e.accessory))
  {
    var w := Wear(s, e.weapon);
    assert w == s.Plus(ItemBonus(e.weapon));
    var a := Wear(w, e.armor);
    assert a == w.Plus(ItemBonus(e.armor));
  }

  // Regrouping steps on abstract stat blocks, one per slot.

  lemma ReplaceFirst(s: StatBlock, w: StatBlock, a: StatBlock, c: StatBlock, n: StatBlock)
    ensures s.Plus(n).Plus(a).Plus(c) == s.Plus(w).Plus(a).Plus(c).Minus(w).Plus(n)
  {
  }

  lemma ReplaceSecond(s: StatBlock, w: StatBlock, a: StatBlock, c: StatBlock, n: StatBlock)
    ensures s.Plus(w).Plus(n).Plus(c) == s.Plus(w).Plus(a).Plus(c).Minus(a).Plus(n)
  {
  }

  lemma ReplaceThird(s: StatBlock, w: StatBlock, a: StatBlock, c: StatBlock, n: StatBlock)
    ensures s.Plus(w).Plus(a).Plus(n) == s.Plus(w).Plus(a).Plus(c).Minus(c).Plus(n)
  {
  }

  lemma MoveLast(s: StatBlock, g: StatBlock, w: StatBlock, a: StatBlock, c: StatBlock)
    ensures s.Plus(g).Plus(w).Plus(a).Plus(c) == s.Plus(w).Plus(a).Plus(c).Plus(g)
  {
  }

  /** Replacing the content of one slot changes the worn stats by the difference of the two contents. */
  lemma WearAllSet(s: StatBlock, e: Equipment, slot: Slot, x: Option<Item>)
    ensures WearAll(s, e.Set(slot, x)) == WearAll(s, e).Minus(ItemBonus(e.Get(slot))).Plus(ItemBonus(x))
  {
    WearAllIsSum(s, e);
    WearAllIsSum(s, e.Set(slot, x));
    var w, a, c, n := ItemBonus(e.weapon), ItemBonus(e.armor), ItemBonus(e.accessory), ItemBonus(x);
    match slot
    case WeaponSlot => ReplaceFirst(s, w, a, c, n);
    case ArmorSlot => ReplaceSecond(s, w, a, c, n);
    case AccessorySlot => ReplaceThird(s, w, a, c, n);
  }

  /** Wearing equipment commutes with adding a stat block. */
  lemma WearAllPlus(s: StatBlock, g: StatBlock, e: Equipment)
    ensures WearAll(s.Plus(g), e) == WearAll(s, e).Plus(g)
  {
    WearAllIsSum(s, e);
    WearAllIsSum(s.Plus(g), e);
    MoveLast(s, g, ItemBonus(e.weapon), ItemBonus(e.armor), ItemBonus(e.accessory));
  }

  function BaseStats(c: CharClass): StatBlock {
    match c
    case Warrior => StatBlock(100, 50, 15, 10, 5, 12)
    case Mage => StatBlock(70, 100, 5, 10, 15, 8)
    case Rogue => StatBlock(85, 70, 10, 15, 8, 10)
  }

  /** The per-level gain of each class. */
  function Gains(c: CharClass): StatBlock {
    match c
    case Warrior => StatBlock(15, 5, 3, 2, 1, 2)
    case Mage => StatBlock(8, 15, 1, 2, 3, 1)
    case Rogue => StatBlock(10, 8, 2, 3, 1, 1)
  }

  /** A full stat object as the list of entries `hp, mp, str, dex, int, def` that a loop walks through. */
  function Entries(g: StatBlock): seq<Bonus> {
    [Bonus(Hp, g.hp), Bonus(Mp, g.mp), Bonus(Str, g.str), Bonus(Dex, g.dex), Bonus(Int, g.intel), Bonus(Def, g.def)]
  }

  lemma TotalOfEntries(g: StatBlock)
    ensures Total(Entries(g)) == g
  {
    var es := Entries(g);
    assert es[..0] == [];
    assert Total(es[..1]) == Zero.Add(Hp, g.hp) by { assert es[..1][..0] == es[..0]; }
    assert Total(es[..2]) == Zero.Add(Hp, g.hp).Add(Mp, g.mp) by { assert es[..2][..1] == es[..1]; }
    assert Total(es[..3]) == StatBlock(g.hp, g.mp, g.str, 0, 0, 0) by { assert es[..3][..2] == es[..2]; }
    assert Total(es[..4]) == StatBlock(g.hp, g.mp, g.str, g.dex, 0, 0) by { assert es[..4][..3] == es[..3]; }
    assert Total(es[..5]) == StatBlock(g.hp, g.mp, g.str, g.dex, g.intel, 0) by { assert es[..5][..4] == es[..4]; }
    assert es[..6] == es;
    assert es[..6][..5] == es[..5];
  }

  /** Every class gains a positive amount of every stat per level. */
  lemma GainsPositive(c: CharClass, k: StatName)
    ensures Gains(c).Get(k) > 0
  {
  }

  /** The stats of class `c` after `n` level-ups, before equipment. */
  function LevelStats(c: CharClass, n: nat): StatBlock {
    if n == 0 then BaseStats(c) else LevelStats(c, n - 1).Plus(Gains(c))
  }

  /** Each stat grows linearly: its base value plus `n` times the class's gain. */
  lemma {:induction false} LevelStatsClosedForm(c: CharClass, n: nat, k: StatName)
    ensures LevelStats(c, n).Get(k) == BaseStats(c).Get(k) + n * Gains(c).Get(k)
  {
    if n > 0 {
      LevelStatsClosedForm(c, n - 1, k);
      var g := Gains(c).Get(k);
      assert (n - 1) * g + g == n * g;
    }
  }

  /** The stats a character of class `c` at `level` wearing `e` must have. */
  function ExpectedStats(c: CharClass, level: int, e: Equipment): StatBlock
    requires level >= 1
  {
    WearAll(LevelStats(c, level - 1), e)
  }

  // Skills

  /** A skill either deals damage or produces an effect magnitude, scaled from one stat. */
  datatype SkillEffect = DamageSkill(stat: StatName, multiplier: real) | EffectSkill(stat: StatName, multiplier: real)

  datatype Skill = Skill(name: string, mpCost: int, effect: SkillEffect)

  function SkillSet(c: CharClass): (s: seq<Skill>)
    ensures |s| == 2 && s[0].effect.DamageSkill? && s[1].effect.EffectSkill?
  {
    match c
    case Warrior => [Skill("Power Strike", 10, DamageSkill(Str, 1.5)), Skill("Shield Block", 15, EffectSkill(Def, 2.0))]
    case Mage => [Skill("Fireball", 20, DamageSkill(Int, 2.0)), Skill("Ice Shield", 25, EffectSkill(Int, 0.5))]
    case Rogue => [Skill("Backstab", 15, DamageSkill(Dex, 1.8)), Skill("Dodge", 20, EffectSkill(Dex, 0.8))]
  }

  /** The skill's number, computed from the stats at the moment of use. */
  function SkillAmount(e: SkillEffect, stats: StatBlock): int {
    Scale(stats.Get(e.stat), e.multiplier)
  }

  /** Every skill multiplier is positive, so a skill used with non-negative stats yields a non-negative number. */
  lemma SkillAmountNonNegative(c: CharClass, i: nat, stats: StatBlock)
    requires i < 2 && stats.Get(SkillSet(c)[i].effect.stat) >= 0
    ensures SkillAmount(SkillSet(c)[i].effect, stats) >= 0
  {
    var e := SkillSet(c)[i].effect;
    ScaleMonotoneInAmount(0, stats.Get(e.stat), e.multiplier);
  }

  datatype SkillOutcome = NotEnoughMp | Damaged(damage: int) | Effected(effect: int)

  // Experience

  function Pow(b: real, n: nat): real {
    if n == 0 then 1.0 else b * Pow(b, n - 1)
  }

  lemma {:induction false} PowAtLeastOne(b: real, n: nat)
    requires b >= 1.0
    ensures Pow(b, n) >= 1.0
  {
    if n > 0 {
      PowAtLeastOne(b, n - 1);
      assert b * Pow(b, n - 1) - Pow(b, n - 1) == (b - 1.0) * Pow(b, n - 1);
    }
  }

  /** The experience a character of `level` needs to level up. */
  function NextLevelExp(level: int): int
    requires level >= 1
  {
    Scale(100, Pow(1.5, level - 1))
  }

  /** The threshold starts at 100 and grows by at least 50 per level, so it is strictly increasing. */
  lemma NextLevelExpIncreasing(level: int)
    requires level >= 1
    ensures NextLevelExp(level) >= 100
    ensures NextLevelExp(level + 1) >= NextLevelExp(level) + 50
  {
    var p := Pow(1.5, level - 1);
    PowAtLeastOne(1.5, level - 1);
    assert Pow(1.5, level) == 1.5 * p;
    assert 100.0 * (1.5 * p) == 100.0 * p + 50.0 * p;
  }

  lemma {:induction false} NextLevelExpStrictlyMonotone(l1: int, l2: int)
    requires 1 <= l1 < l2
    ensures NextLevelExp(l1) < NextLevelExp(l2)
    decreases l2 - l1
  {
    NextLevelExpIncreasing(l2 - 1);
    if l1 < l2 - 1 {
      NextLevelExpStrictlyMonotone(l1, l2 - 1);
    }
  }

  /** Experience is boosted by half while the level is at most 10. */
  function ExpGain(level: int, amount: int): (r: int)
    ensures amount >= 0 ==> r >= amount
    ensures level > 10 ==> r == amount
  {
    ScaleMonotoneInFactor(if amount >= 0 then amount else 0, 1.0, 1.5);
    if level <= 10 then Scale(amount, 1.5) else amount
  }

  /** The 10% loss on respawn, rounded down. */
  function Penalty(x: int): (r: int)
    ensures x >= 0 ==> 0 <= r <= x
    ensures x >= 1 ==> r < x
    ensures x < 0 ==> x <= r <= 0
  {
    ScaleShrinks(if x >= 0 then x else 0, 0.9);
    Scale(x, 0.9)
  }

  class Character {
    const name: string
    const className: CharClass
    const skills: seq<Skill>
    var level: int
    var experience: int
    var gold: int
    var inventory: seq<Item>
    var equipment: Equipment
    var stats: StatBlock
    var currentHp: int
    var currentMp: int

    /** Stats are always base stats plus level gains plus worn bonuses. */
    ghost predicate Consistent()
      reads this`level, this`stats, this`equipment
    {
      level >= 1 && stats == ExpectedStats(className, level, equipment)
    }

    /** Between operations the character has also levelled up as far as its experience allows. */
    ghost predicate Valid()
      reads this`level, this`stats, this`equipment, this`experience
    {
      Consistent() && experience < NextLevelExp(level)
    }

    constructor (name: string, className: CharClass)
      ensures Valid()
      ensures this.name == name && this.className == className
      ensures level == 1 && experience == 0 && gold == 100
      ensures inventory == [] && equipment == NoEquipment
      ensures stats == BaseStats(className) && currentHp == stats.hp && currentMp == stats.mp
      ensures skills == SkillSet(className)
    {
      this.name := name;
      this.className := className;
      level := 1;
      experience := 0;
      gold := 100;
      inventory := [];
      equipment := NoEquipment;
      stats := BaseStats(className);
      currentHp := BaseStats(className).hp;
      currentMp := BaseStats(className).mp;
      skills := SkillSet(className);
      new;
      NextLevelExpIncreasing(1);
    }

    /**
     * Fails without any change when there is no skill at `skillIndex` or too
     * little mp; otherwise pays the cost and either damages `target` or
     * reports an effect magnitude.
     */
    method UseSkill(skillIndex: int, target: Enemies.Enemy) returns (r: SkillOutcome)
      modifies this`currentMp, target`currentHp
      ensures var ok := 0 <= skillIndex < |skills| && old(currentMp) >= skills[skillIndex].mpCost;
        && (!ok ==> r == NotEnoughMp && currentMp == old(currentMp) && target.currentHp == old(target.currentHp))
        && (ok ==> currentMp == old(currentMp) - skills[skillIndex].mpCost)
        && (ok && skills[skillIndex].effect.DamageSkill? ==>
              var d := SkillAmount(skills[skillIndex].effect, stats);
              r == Damaged(d) && target.currentHp == (if old(target.currentHp) - d > 0 then old(target.currentHp) - d else 0))
        && (ok && skills[skillIndex].effect.EffectSkill? ==>
              r == Effected(SkillAmount(skills[skillIndex].effect, stats)) && target.currentHp == old(target.currentHp))
    {
      if !(0 <= skillIndex < |skills|) || currentMp < skills[skillIndex].mpCost {
        return NotEnoughMp;
      }
      var skill := skills[skillIndex];
      currentMp := currentMp - skill.mpCost;
      match skill.effect
      case DamageSkill(_, _) =>
        var damage := SkillAmount(skill.effect, stats);
        var _ := target.TakeDamage(damage);
        r := Damaged(damage);
      case EffectSkill(_, _) =>
        r := Effected(SkillAmount(skill.effect, stats));
    }

    /**
     * Walks the entries of the stat object `delta` and adds (or, when `negate`,
     * subtracts) each one to the matching stat.
     */
    method AddStats(delta: StatBlock, negate: bool)
      modifies this`stats
      ensures stats == if negate then old(stats).Minus(delta) else old(stats).Plus(delta)
    {
      var entries := Entries(delta);
      ghost var s0 := stats;
      var i := 0;
      ZeroNeutral(s0);
      while i < |entries|
        invariant 0 <= i <= |entries|
        invariant stats == if negate then s0.Minus(Total(entries[..i])) else s0.Plus(Total(entries[..i]))
      {
        var b := entries[i];
        assert entries[..i + 1][..i] == entries[..i];
        assert Total(entries[..i + 1]) == Total(entries[..i]).Add(b.stat, b.value);
        AddAfterPlus(s0, Total(entries[..i]), b.stat, b.value);
        stats := stats.Add(b.stat, if negate then -b.value else b.value);
        i := i + 1;
      }
      assert entries[..i] == entries;
      TotalOfEntries(delta);
    }

    /**
     * Puts `item` into the slot its type names, first taking off the bonuses
     * of whatever that slot held; fails without change for an unknown type.
     */
    method EquipItem(item: Item) returns (ok: bool)
      requires Consistent()
      modifies this`stats, this`equipment
      ensures Consistent()
      ensures ok <==> SlotOf(item.itemType).Some?
      ensures !ok ==> stats == old(stats) && equipment == old(equipment)
      ensures ok ==> var s := SlotOf(item.itemType).value;
        && equipment == old(equipment).Set(s, Some(item))
        && stats == old(stats).Minus(ItemBonus(old(equipment).Get(s))).Plus(item.stats)
    {
      var slot := SlotOf(item.itemType);
      if slot.None? {
        return false;
      }
      var s := slot.value;
      ghost var worn := stats.Minus(ItemBonus(equipment.Get(s))).Plus(item.stats);
      WearAllSet(LevelStats(className, level - 1), equipment, s, Some(item));
      assert worn == ExpectedStats(className, level, equipment.Set(s, Some(item)));
      ZeroNeutral(stats);
      if equipment.Get(s).Some? {
        AddStats(equipment.Get(s).value.stats, true);
      }
      AddStats(item.stats, false);
      assert stats == worn;
      equipment := equipment.Set(s, Some(item));
      ok := true;
    }

    /** Empties the slot named `slotName` and takes off its bonuses; fails without change when it is empty. */
    method UnequipItem(slotName: string) returns (ok: bool)
      requires Consistent()
      modifies this`stats, this`equipment
      ensures Consistent()
      ensures ok <==> SlotOf(slotName).Some? && old(equipment).Get(SlotOf(slotName).value).Some?
      ensures !ok ==> stats == old(stats) && equipment == old(equipment)
      ensures ok ==> var s := SlotOf(slotName).value;
        && equipment == old(equipment).Set(s, None)
        && stats == old(stats).Minus(ItemBonus(old(equipment).Get(s)))
    {
      var slot := SlotOf(slotName);
      if slot.None? || equipment.Get(slot.value).None? {
        return false;
      }
      var s := slot.value;
      WearAllSet(LevelStats(className, level - 1), equipment, s, None);
      ZeroNeutral(stats.Minus(ItemBonus(equipment.Get(s))));
      AddStats(equipment.Get(s).value.stats, true);
      equipment := equipment.Set(s, None);
      ok := true;
    }

    /** One level up: the class's gains are added and hp and mp are refilled to the new maxima. */
    method LevelUp()
      requires Consistent()
      modifies this`level, this`stats, this`currentHp, this`currentMp
      ensures Consistent()
      ensures level == old(level) + 1
      ensures stats == old(stats).Plus(Gains(className))
      ensures currentHp == stats.hp && currentMp == stats.mp
    {
      WearAllPlus(LevelStats(className, level - 1), Gains(className), equipment);
      level := level + 1;
      AddStats(Gains(className), false);
      currentHp := stats.hp;
      currentMp := stats.mp;
    }

    /**
     * Adds the (possibly boosted) amount to experience, then levels up for as
     * long as experience reaches the threshold of the current level.
     */
    method GainExperience(amount: int)
      requires Valid()
      modifies this`level, this`experience, this`stats, this`currentHp, this`currentMp
      ensures Valid()
      ensures experience == old(experience) + ExpGain(old(level), amount)
      ensures level >= old(level)
      ensures forall l :: old(level) <= l < level ==> NextLevelExp(l) <= experience
      ensures level > old(level) ==> currentHp == stats.hp && currentMp == stats.mp
      ensures level == old(level) ==> currentHp == old(currentHp) && currentMp == old(currentMp)
    {
      experience := experience + ExpGain(level, amount);
      while experience >= NextLevelExp(level)
        invariant Consistent()
        invariant experience == old(experience) + ExpGain(old(level), amount)
        invariant level >= old(level)
        invariant forall l :: old(level) <= l < level ==> NextLevelExp(l) <= experience
        invariant level > old(level) ==> currentHp == stats.hp && currentMp == stats.mp
        invariant level == old(level) ==> currentHp == old(currentHp) && currentMp == old(currentMp)
        decreases experience - NextLevelExp(level)
      {
        NextLevelExpIncreasing(level);
        LevelUp();
      }
    }

    method Rest() returns (done: bool)
      modifies this`currentHp, this`currentMp
      ensures currentHp == stats.hp && currentMp == stats.mp && done
    {
      currentHp := stats.hp;
      currentMp := stats.mp;
      done := true;
    }

    /** Refills hp and mp but costs a tenth of experience and gold. */
    method Respawn() returns (done: bool)
      requires Valid()
      modifies this`currentHp, this`currentMp, this`experience, this`gold
      ensures Valid()
      ensures currentHp == stats.hp && currentMp == stats.mp && done
      ensures experience == Penalty(old(experience)) && gold == Penalty(old(gold))
    {
      currentHp := stats.hp;
      currentMp := stats.mp;
      NextLevelExpIncreasing(level);
      experience := Penalty(experience);
      gold := Penalty(gold);
      done := true;
    }
  }

  /** Equipping into an empty slot and taking the item off again restores the stats exactly. */
  method EquipUnequipRoundTrip(c: Character, item: Item)
    requires c.Consistent() && SlotOf(item.itemType).Some?
    requires c.equipment.Get(SlotOf(item.itemType).value).None?
    modifies c`stats, c`equipment
    ensures c.Consistent() && c.stats == old(c.stats) && c.equipment == old(c.equipment)
  {
    var equipped := c.EquipItem(item);
    var removed := c.UnequipItem(item.itemType);
    assert removed;
  }

  /** A fresh mage casting Fireball at a fresh level-1 slime deals 30 damage for 20 mp and kills it. */
  method FireballScenario() returns (r: SkillOutcome, slimeHp: int, mpLeft: int)
    ensures r == Damaged(30) && slimeHp == 0 && mpLeft == 80
  {
    var mage := new Character("Mage", Mage);
    var slime := new Enemies.Enemy(Enemies.Slime, 1);
    r := mage.UseSkill(0, slime);
    slimeHp := slime.currentHp;
    mpLeft := mage.currentMp;
  }
}
