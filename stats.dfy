/**
 * Enemy stat scaling: from the numeric part of an archetype template and a
 * level to the concrete hp, damage and reward values of one enemy.
 */
module Stats {
  import opened Basics

  /** The type tag of an archetype; it selects a fixed multiplier. */
  datatype EnemyType = Normal | Undead | Brute | Magic | Boss

  /** The fields of an archetype template that the scaling reads. */
  datatype Template = Template(baseHp: int, baseDmg: int, expValue: int, goldValue: int, kind: EnemyType)
  {
    predicate NonNegative() {
      baseHp >= 0 && baseDmg >= 0 && expValue >= 0 && goldValue >= 0
    }
  }

  datatype ScaledStats = ScaledStats(hp: int, damage: int, expValue: int, goldValue: int)

  /** Piecewise-linear growth: gentle up to level 5, medium up to 10, steep beyond. */
  function LevelMultiplier(level: int): (m: real)
    ensures level >= 1 ==> m >= 1.0
  {
    if level <= 5 then 1.0 + (level - 1) as real * 0.08
    else if level <= 10 then 1.4 + (level - 5) as real * 0.1
    else 1.9 + (level - 10) as real * 0.12
  }

  function TypeMultiplier(kind: EnemyType): (m: real)
    ensures 1.0 <= m <= 1.5
  {
    match kind
    case Normal => 1.0
    case Undead => 1.1
    case Brute => 1.2
    case Magic => 1.15
    case Boss => 1.5
  }

  /** The combined multiplier applied to every scaled value. */
  function Multiplier(kind: EnemyType, level: int): (m: real)
    ensures level >= 1 ==> m >= 1.0
  {
    LevelMultiplier(level) * TypeMultiplier(kind)
  }

  /** Rewards get an extra 20% while the level is at most 5. */
  function RewardMultiplier(level: int): (m: real)
    ensures m == 1.2 || m == 1.0
  {
    if level <= 5 then 1.2 else 1.0
  }

  function CalculateReward(baseValue: int, kind: EnemyType, level: int): int
  {
    Scale(baseValue, Multiplier(kind, level) * RewardMultiplier(level))
  }

  function CalculateStats(t: Template, level: int): ScaledStats
  {
    var m := Multiplier(t.kind, level);
    ScaledStats(Scale(t.baseHp, m), Scale(t.baseDmg, m),
                CalculateReward(t.expValue, t.kind, level), CalculateReward(t.goldValue, t.kind, level))
  }

  /**
   * From level 1 on, every multiplier is at least 1, so each scaled value is at
   * least its template base; in particular none is negative.
   */
  lemma StatsAtLeastBase(t: Template, level: int)
    requires t.NonNegative() && level >= 1
    ensures var r := CalculateStats(t, level);
      r.hp >= t.baseHp >= 0 && r.damage >= t.baseDmg >= 0 &&
      r.expValue >= t.expValue >= 0 && r.goldValue >= t.goldValue >= 0
  {
    var m := Multiplier(t.kind, level);
    var f := RewardMultiplier(level);
    assert m * f >= 1.0 by {
      assert m * f - 1.0 == (m - 1.0) * f + (f - 1.0);
      assert (m - 1.0) * f >= 0.0;
    }
    ScaleMonotoneInFactor(t.baseHp, 1.0, m);
    ScaleMonotoneInFactor(t.baseDmg, 1.0, m);
    ScaleMonotoneInFactor(t.expValue, 1.0, m * f);
    ScaleMonotoneInFactor(t.goldValue, 1.0, m * f);
  }

  /** The level multiplier never decreases as the level grows, across both band boundaries. */
  lemma LevelMultiplierMonotone(l1: int, l2: int)
    requires l1 <= l2
    ensures LevelMultiplier(l1) <= LevelMultiplier(l2)
  {
  }

  /**
   * The multiplier starts at 1 and grows by 0.08 per level up to 5, jumps by
   * 0.18 from 5 to 6, then grows by 0.1 per level up to 10 and by 0.12 beyond.
   */
  lemma LevelMultiplierSteps(level: int)
    ensures LevelMultiplier(1) == 1.0
    ensures LevelMultiplier(level + 1) - LevelMultiplier(level)
      == if level < 5 then 0.08 else if level == 5 then 0.18 else if level < 10 then 0.1 else 0.12
  {
  }

  /** The combined multiplier strictly grows with the level. */
  lemma MultiplierIncreasing(kind: EnemyType, l1: int, l2: int)
    requires l1 < l2
    ensures Multiplier(kind, l1) < Multiplier(kind, l2)
  {
    var d := LevelMultiplier(l2) - LevelMultiplier(l1);
    assert d > 0.0;
    assert Multiplier(kind, l2) - Multiplier(kind, l1) == d * TypeMultiplier(kind);
  }

  /** Enemy hp and damage never decrease as the level grows. */
  lemma {:induction false} StatsMonotone(t: Template, l1: int, l2: int)
    requires t.baseHp >= 0 && t.baseDmg >= 0 && l1 <= l2
    ensures CalculateStats(t, l1).hp <= CalculateStats(t, l2).hp
    ensures CalculateStats(t, l1).damage <= CalculateStats(t, l2).damage
  {
    if l1 < l2 {
      MultiplierIncreasing(t.kind, l1, l2);
    }
    ScaleMonotoneInFactor(t.baseHp, Multiplier(t.kind, l1), Multiplier(t.kind, l2));
    ScaleMonotoneInFactor(t.baseDmg, Multiplier(t.kind, l1), Multiplier(t.kind, l2));
  }

  /** Rewards grow with the level inside the bonus band and inside the no-bonus band. */
  lemma RewardMonotoneWithinBand(baseValue: int, kind: EnemyType, l1: int, l2: int)
    requires baseValue >= 0 && l1 <= l2 && (l2 <= 5 || 5 < l1)
    ensures CalculateReward(baseValue, kind, l1) <= CalculateReward(baseValue, kind, l2)
  {
    if l1 < l2 {
      MultiplierIncreasing(kind, l1, l2);
    }
    var f := RewardMultiplier(l1);
    assert f == RewardMultiplier(l2);
    assert Multiplier(kind, l1) * f <= Multiplier(kind, l2) * f;
    ScaleMonotoneInFactor(baseValue, Multiplier(kind, l1) * f, Multiplier(kind, l2) * f);
  }
}
