/**
 * Enemies: the six fixed archetype templates, construction of one enemy from
 * an archetype and a level, its attack roll and the damage it takes.
 */
module Enemies {
  import opened Basics
  import opened Stats

  datatype Archetype = Slime | Goblin | Skeleton | Orc | DarkMage | Dragon

  datatype Ability =
    | Bounce | Split | Bite | Scratch | BoneCrush | UndeadStrike
    | Rage | Cleave | DarkBolt | Curse | FireBreath | TailSwipe

  /** An archetype template: display name, the numbers the scaling reads, abilities, difficulty tier. */
  datatype EnemyTemplate = EnemyTemplate(name: string, scaling: Template, abilities: seq<Ability>, difficulty: int)

  function TemplateOf(a: Archetype): EnemyTemplate
  {
    match a
    case Slime => EnemyTemplate("Slime", Template(30, 5, 15, 8, Normal), [Bounce, Split], 1)
    case Goblin => EnemyTemplate("Goblin", Template(45, 7, 25, 12, Normal), [Bite, Scratch], 2)
    case Skeleton => EnemyTemplate("Skeleton", Template(60, 9, 35, 15, Undead), [BoneCrush, UndeadStrike], 3)
    case Orc => EnemyTemplate("Orc", Template(80, 11, 45, 20, Brute), [Rage, Cleave], 4)
    case DarkMage => EnemyTemplate("Dark Mage", Template(70, 13, 55, 25, Magic), [DarkBolt, Curse], 5)
    case Dragon => EnemyTemplate("Dragon", Template(150, 20, 100, 50, Boss), [FireBreath, TailSwipe], 6)
  }

  /** The damage factor of each ability, from a weak bounce to a strong fire breath. */
  function AbilityModifier(a: Ability): (m: real)
    ensures 0.6 <= m <= 1.5
  {
    match a
    case Bounce => 0.6
    case Split => 0.7
    case Bite => 0.8
    case Scratch => 0.9
    case BoneCrush => 1.2
    case UndeadStrike => 1.1
    case Rage => 1.3
    case Cleave => 1.1
    case DarkBolt => 1.2
    case Curse => 0.9
    case FireBreath => 1.5
    case TailSwipe => 1.2
  }

  /** `Math.floor(draw * n)`: a uniformly drawn index into a list of `n` elements. */
  function PickIndex(draw: Unit, n: nat): (i: nat)
    requires n > 0
    ensures i < n
  {
    assert 0.0 <= draw * n as real < n as real by {
      assert n as real - draw * n as real == (1.0 - draw) * n as real;
    }
    (draw * n as real).Floor
  }

  datatype AttackResult = AttackResult(damage: int, ability: Ability)

  class Enemy {
    const name: string
    const kind: EnemyType
    const level: int
    const difficulty: int
    const abilities: seq<Ability>
    const hp: int
    const damage: int
    const expValue: int
    const goldValue: int
    var currentHp: int

    /** Every enemy has at least one ability to choose from. */
    predicate Valid() {
      |abilities| > 0
    }

    constructor (archetype: Archetype, level: int)
      ensures Valid()
      ensures var t := TemplateOf(archetype);
        name == t.name && kind == t.scaling.kind && difficulty == t.difficulty && abilities == t.abilities
      ensures var s := CalculateStats(TemplateOf(archetype).scaling, level);
        hp == s.hp && damage == s.damage && expValue == s.expValue && goldValue == s.goldValue
      ensures this.level == level && currentHp == hp
    {
      var t := TemplateOf(archetype);
      var s := CalculateStats(t.scaling, level);
      name := t.name;
      kind := t.scaling.kind;
      this.level := level;
      difficulty := t.difficulty;
      abilities := t.abilities;
      hp := s.hp;
      damage := s.damage;
      expValue := s.expValue;
      goldValue := s.goldValue;
      currentHp := s.hp;
    }

    /**
     * One attack roll: the first draw picks an ability, the second scales the
     * damage into [80%, 100%); the ability's modifier is applied last.
     */
    function Attack(abilityDraw: Unit, factorDraw: Unit): (r: AttackResult)
      requires Valid()
      ensures r.ability in abilities
    {
      var ability := abilities[PickIndex(abilityDraw, |abilities|)];
      var baseDamage := Scale(damage, 0.8 + factorDraw * 0.2);
      AttackResult(Scale(baseDamage, AbilityModifier(ability)), ability)
    }

    /** An attack never heals and never exceeds the ability-scaled full damage. */
    lemma AttackBounds(abilityDraw: Unit, factorDraw: Unit)
      requires Valid() && damage >= 0
      ensures var r := Attack(abilityDraw, factorDraw);
        Scale(Scale(damage, 0.8), AbilityModifier(r.ability)) <= r.damage <= Scale(damage, AbilityModifier(r.ability))
      ensures 0 <= Attack(abilityDraw, factorDraw).damage
    {
      var r := Attack(abilityDraw, factorDraw);
      var f := 0.8 + factorDraw * 0.2;
      var baseDamage := Scale(damage, f);
      ScaleShrinks(damage, f);
      ScaleMonotoneInFactor(damage, 0.8, f);
      ScaleMonotoneInAmount(Scale(damage, 0.8), baseDamage, AbilityModifier(r.ability));
      ScaleMonotoneInAmount(baseDamage, damage, AbilityModifier(r.ability));
      ScaleMonotoneInAmount(0, baseDamage, AbilityModifier(r.ability));
    }

    /** Hp is clamped at zero; the result says whether the enemy is now at zero hp. */
    method TakeDamage(amount: int) returns (killed: bool)
      modifies this`currentHp
      ensures currentHp == if old(currentHp) - amount > 0 then old(currentHp) - amount else 0
      ensures killed <==> currentHp == 0
      ensures amount >= 0 && old(currentHp) >= 0 ==> 0 <= currentHp <= old(currentHp)
    {
      currentHp := if currentHp - amount > 0 then currentHp - amount else 0;
      killed := currentHp == 0;
    }
  }

  /** Difficulty tiers run 1 to 6 in archetype order, and each archetype has two abilities. */
  lemma TemplateTable(a: Archetype)
    ensures |TemplateOf(a).abilities| == 2
    ensures TemplateOf(a).scaling.NonNegative()
    ensures TemplateOf(a).difficulty == match a
      case Slime => 1 case Goblin => 2 case Skeleton => 3
      case Orc => 4 case DarkMage => 5 case Dragon => 6
  {
  }

  /** Scenario: a level-1 slime has 30 hp. */
  lemma LevelOneSlime()
    ensures CalculateStats(TemplateOf(Slime).scaling, 1).hp == 30
  {
  }

  /** Rewards are not monotone in the level: a slime's exp drops from 23 to 22 between levels 5 and 6. */
  lemma SlimeRewardDropsAtLevelSix()
    ensures CalculateStats(TemplateOf(Slime).scaling, 5).expValue == 23
    ensures CalculateStats(TemplateOf(Slime).scaling, 6).expValue == 22
  {
  }
}
