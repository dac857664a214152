/**
 * One round of combat between the player and a list of enemies: the player
 * hits the front enemy, a dead enemy leaves the list and raises the streak,
 * an empty list is a victory; otherwise every remaining enemy attacks in
 * order, and the first blow that takes the player to zero hp or below is a
 * defeat. Rewards depend on the level gap and on the streak.
 */
module Combat {
  import opened Basics
  import opened Enemies
  import opened Characters

  /** The two draws one enemy attack consumes: which ability, and the damage factor. */
  datatype Roll = Roll(ability: Unit, factor: Unit)

  /** The constructor accepts a single enemy or an array of them. */
  datatype Party = One(enemy: Enemy) | Many(members: seq<Enemy>)

  function Members(p: Party): (es: seq<Enemy>)
    ensures p.One? ==> es == [p.enemy]
    ensures p.Many? ==> es == p.members
  {
    match p
    case One(e) => [e]
    case Many(es) => es
  }

  /** A combat log entry; only the facts it reports are kept, not its text or colour. */
  datatype LogEntry =
    | PlayerHit(target: string, damage: int)
    | EnemyHit(attacker: string, ability: Ability, damage: int)
    | Defeated(enemy: string)
    | StreakBonusEntry(streak: int)
    | VictoryEntry(exp: int, gold: int)
    | DefeatEntry
    | RespawnEntry

  // Pure rules

  /** Early-game leniency: a level 1 to 3 player takes 20% less from tier 1 and 2 enemies. */
  function AdjustEnemyDamage(damage: int, playerLevel: int, difficulty: int): (r: int)
    ensures damage >= 0 ==> 0 <= r <= damage
    ensures (playerLevel > 3 || difficulty > 2) ==> r == damage
  {
    ScaleShrinks(if damage >= 0 then damage else 0, 0.8);
    if playerLevel <= 3 && difficulty <= 2 then Scale(damage, 0.8) else damage
  }

  /** The leniency takes off at least one point of any positive blow, and only then applies. */
  lemma LeniencyReduces(damage: int, playerLevel: int, difficulty: int)
    requires damage >= 1
    ensures AdjustEnemyDamage(damage, playerLevel, difficulty) < damage <==> playerLevel <= 3 && difficulty <= 2
  {
    if playerLevel <= 3 && difficulty <= 2 {
      assert damage as real * 0.8 < damage as real;
    }
  }

  /** The player's blow: the base scaled by a factor drawn from [0.85, 1.15), rounded down. */
  function CalculateDamage(base: int, draw: Unit): (r: int)
    ensures base >= 0 ==> Scale(base, 0.85) <= r <= Scale(base, 1.15)
  {
    var f := 0.85 + draw * 0.3;
    assert base >= 0 ==> Scale(base, 0.85) <= Scale(base, f) <= Scale(base, 1.15) by {
      if base >= 0 {
        ScaleMonotoneInFactor(base, 0.85, f);
        ScaleMonotoneInFactor(base, f, 1.15);
      }
    }
    Scale(base, f)
  }

  /** The experience one enemy is worth to a player of `playerLevel`, by level gap. */
  function ExpReward(enemyLevel: int, expValue: int, playerLevel: int): int
  {
    if enemyLevel > playerLevel then Scale(expValue, 1.0 + (enemyLevel - playerLevel) as real * 0.15)
    else if enemyLevel < playerLevel - 4 then Scale(expValue, 0.5)
    else if enemyLevel < playerLevel then Scale(expValue, 1.0 - (playerLevel - enemyLevel) as real * 0.1)
    else if playerLevel <= 5 then Scale(expValue, 1.2)
    else expValue
  }

  /**
   * A stronger enemy is worth at least its base value, a weaker one at most
   * that; far weaker ones are worth half; no reward is negative.
   */
  lemma ExpRewardBounds(enemyLevel: int, expValue: int, playerLevel: int)
    requires expValue >= 0
    ensures var r := ExpReward(enemyLevel, expValue, playerLevel);
      && 0 <= r
      && (enemyLevel >= playerLevel ==> expValue <= r)
      && (enemyLevel < playerLevel ==> Scale(expValue, 0.5) <= r <= expValue)
      && (enemyLevel < playerLevel - 4 ==> r == Scale(expValue, 0.5))
  {
    var gap := enemyLevel - playerLevel;
    if gap > 0 {
      ScaleMonotoneInFactor(expValue, 1.0, 1.0 + gap as real * 0.15);
    } else if gap < -4 {
      ScaleShrinks(expValue, 0.5);
    } else if gap < 0 {
      var f := 1.0 + gap as real * 0.1;
      ScaleMonotoneInFactor(expValue, 0.5, f);
      ScaleShrinks(expValue, f);
      ScaleShrinks(expValue, 0.5);
    } else if playerLevel <= 5 {
      ScaleMonotoneInFactor(expValue, 1.0, 1.2);
    }
  }

  /** From level 6 on, the reward grows with the enemy's level across every band. */
  lemma ExpRewardMonotone(l1: int, l2: int, expValue: int, playerLevel: int)
    requires expValue >= 0 && playerLevel > 5 && l1 <= l2
    ensures ExpReward(l1, expValue, playerLevel) <= ExpReward(l2, expValue, playerLevel)
  {
    ExpRewardViaFactor(l1, expValue, playerLevel);
    ExpRewardViaFactor(l2, expValue, playerLevel);
    RewardFactorMonotone(l1 - playerLevel, l2 - playerLevel);
    ScaleMonotoneInFactor(expValue, RewardFactor(l1 - playerLevel), RewardFactor(l2 - playerLevel));
  }

  /**
   * The factor `ExpReward` applies from level 6 on, as a function of the gap
   * between enemy and player level: a bonus for stronger enemies, a discount
   * of at most half for weaker ones.
   */
  function RewardFactor(gap: int): (f: real)
    ensures gap >= 0 ==> f >= 1.0
    ensures gap < 0 ==> 0.5 <= f < 1.0
  {
    if gap > 0 then 1.0 + gap as real * 0.15
    else if gap < -4 then 0.5
    else 1.0 + gap as real * 0.1
  }

  /** From level 6 on, the reward is the base value scaled by the factor of the level gap. */
  lemma ExpRewardViaFactor(enemyLevel: int, expValue: int, playerLevel: int)
    requires playerLevel > 5
    ensures ExpReward(enemyLevel, expValue, playerLevel) == Scale(expValue, RewardFactor(enemyLevel - playerLevel))
  {
    var gap := enemyLevel - playerLevel;
    if -4 <= gap < 0 {
      assert 1.0 - (playerLevel - enemyLevel) as real * 0.1 == 1.0 + gap as real * 0.1;
    } else if gap == 0 {
      assert expValue as real * 1.0 == expValue as real;
    }
  }

  /** The factor never decreases as the gap grows, across the half-reward cut-off and the bonus side. */
  lemma RewardFactorMonotone(g1: int, g2: int)
    requires g1 <= g2
    ensures RewardFactor(g1) <= RewardFactor(g2)
  {
  }

  /** Up to level 5 the same-level bonus breaks monotonicity: a level-3 enemy can pay more than a level-4 one. */
  lemma ExpRewardNotMonotoneEarly()
    ensures ExpReward(3, 100, 3) == 120
    ensures ExpReward(4, 100, 3) == 115
    ensures ExpReward(4, 100, 3) < ExpReward(3, 100, 3)
  {
  }

  /** `calculateTotalExpReward`: the level-adjusted rewards of every enemy still in the list. */
  function TotalExpReward(es: seq<Enemy>, playerLevel: int): (total: int)
    ensures (forall e :: e in es ==> e.expValue >= 0) ==> total >= 0
    decreases |es|
  {
    if es == [] then 0
    else
      var last := es[|es| - 1];
      assert forall e :: e in es[..|es| - 1] ==> e in es;
      assert last.expValue >= 0 ==> ExpReward(last.level, last.expValue, playerLevel) >= 0 by {
        if last.expValue >= 0 {
          ExpRewardBounds(last.level, last.expValue, playerLevel);
        }
      }
      TotalExpReward(es[..|es| - 1], playerLevel) + ExpReward(last.level, last.expValue, playerLevel)
  }

  /** The gold of every enemy still in the list, with no level adjustment. */
  function TotalGold(es: seq<Enemy>): (total: int)
    ensures (forall e :: e in es ==> e.goldValue >= 0) ==> total >= 0
    decreases |es|
  {
    if es == [] then 0
    else
      assert forall e :: e in es[..|es| - 1] ==> e in es;
      TotalGold(es[..|es| - 1]) + es[|es| - 1].goldValue
  }

  /** Both totals are plain sums: the total of two groups is the sum of their totals. */
  lemma {:induction false} TotalsAdd(a: seq<Enemy>, b: seq<Enemy>, playerLevel: int)
    ensures TotalGold(a + b) == TotalGold(a) + TotalGold(b)
    ensures TotalExpReward(a + b, playerLevel) == TotalExpReward(a, playerLevel) + TotalExpReward(b, playerLevel)
    decreases |b|
  {
    if b == [] {
      assert a + b == a;
    } else {
      var ab := a + b;
      assert ab[..|ab| - 1] == a + b[..|b| - 1];
      assert ab[|ab| - 1] == b[|b| - 1];
      TotalsAdd(a, b[..|b| - 1], playerLevel);
    }
  }

  /** A streak of `s` (more than one) multiplies rewards by 1 + 10% per extra win, capped at 1.5. */
  function StreakBonus(streak: int): (m: real)
    ensures streak > 1 ==> 1.0 < m <= 1.5
    ensures streak >= 6 ==> m == 1.5
  {
    var b := 1.0 + (streak - 1) as real * 0.1;
    if b < 1.5 then b else 1.5
  }

  /** A total after the streak bonus, which applies only for a streak above one. */
  function WithStreak(total: int, streak: int): (r: int)
    ensures total >= 0 ==> total <= r <= Scale(total, 1.5)
    ensures streak <= 1 ==> r == total
    ensures total == 0 ==> r == 0
  {
    var m := if streak > 1 then StreakBonus(streak) else 1.0;
    assert total >= 0 ==> total <= Scale(total, m) <= Scale(total, 1.5) by {
      if total >= 0 {
        ScaleMonotoneInFactor(total, 1.0, m);
        ScaleMonotoneInFactor(total, m, 1.5);
      }
    }
    if streak > 1 then Scale(total, StreakBonus(streak)) else total
  }

  /** The damage one enemy deals to a player of `playerLevel` with the draws `roll`. */
  function HitOf(e: Enemy, roll: Roll, playerLevel: int): int
    requires e.Valid()
  {
    AdjustEnemyDamage(e.Attack(roll.ability, roll.factor).damage, playerLevel, e.difficulty)
  }

  /** The draws of the `i`-th enemy attack of a turn; draws past the supplied ones read as zero. */
  function RollAt(rolls: seq<Roll>, i: nat): Roll {
    if i < |rolls| then rolls[i] else Roll(0.0, 0.0)
  }

  predicate AllValid(es: seq<Enemy>) {
    forall e :: e in es ==> e.Valid()
  }

  /** The blow of each enemy in order; enemy `i` uses the draws `RollAt(rolls, i)`. */
  function Hits(es: seq<Enemy>, rolls: seq<Roll>, playerLevel: int): (hits: seq<int>)
    requires AllValid(es)
    ensures |hits| == |es|
    ensures forall i :: 0 <= i < |es| ==> hits[i] == HitOf(es[i], RollAt(rolls, i), playerLevel)
  {
    seq(|es|, i requires 0 <= i < |es| => HitOf(es[i], RollAt(rolls, i), playerLevel))
  }

  /** Every blow is at least zero, since enemy damage is never negative. */
  lemma HitsNonNegative(es: seq<Enemy>, rolls: seq<Roll>, playerLevel: int)
    requires AllValid(es) && forall e :: e in es ==> e.damage >= 0
    ensures forall i :: 0 <= i < |es| ==> Hits(es, rolls, playerLevel)[i] >= 0
  {
    forall i | 0 <= i < |es|
      ensures Hits(es, rolls, playerLevel)[i] >= 0
    {
      assert es[i] in es;
      es[i].AttackBounds(RollAt(rolls, i).ability, RollAt(rolls, i).factor);
    }
  }

  /** The log entry of one enemy attack: who attacked, with which ability, for how much. */
  function AttackEntry(e: Enemy, roll: Roll, playerLevel: int): LogEntry
    requires e.Valid()
  {
    EnemyHit(e.name, e.Attack(roll.ability, roll.factor).ability, HitOf(e, roll, playerLevel))
  }

  /** The log entries of the first `n` enemy attacks. */
  function AttackLog(es: seq<Enemy>, rolls: seq<Roll>, playerLevel: int, n: nat): (log: seq<LogEntry>)
    requires AllValid(es) && n <= |es|
    ensures |log| == n
    ensures forall i :: 0 <= i < n ==>
      log[i] == AttackEntry(es[i], RollAt(rolls, i), playerLevel)
  {
    seq(n, i requires 0 <= i < n => AttackEntry(es[i], RollAt(rolls, i), playerLevel))
  }

  /** How many enemies get to attack: all of them, or up to and including the one with the fatal blow. */
  function Reached(hp: int, hits: seq<int>): (n: nat)
    ensures n <= |hits|
  {
    match FirstDown(hp, hits)
    case None => |hits|
    case Some(k) => k + 1
  }

  /**
   * The log of the enemies' half of a turn: every attack up to and including
   * the fatal one, then the defeat and respawn messages.
   */
  function PhaseLog(es: seq<Enemy>, rolls: seq<Roll>, playerLevel: int, hp: int): seq<LogEntry>
    requires AllValid(es)
  {
    match FirstDown(hp, Hits(es, rolls, playerLevel))
    case None => AttackLog(es, rolls, playerLevel, |es|)
    case Some(k) => AttackLog(es, rolls, playerLevel, k + 1) + [DefeatEntry, RespawnEntry]
  }

  lemma AttackLogStep(es: seq<Enemy>, rolls: seq<Roll>, playerLevel: int, i: nat)
    requires AllValid(es) && i < |es|
    ensures AttackLog(es, rolls, playerLevel, i + 1) == AttackLog(es, rolls, playerLevel, i)
      + [AttackEntry(es[i], RollAt(rolls, i), playerLevel)]
  {
  }

  /** A player who survives the first `k` blows and falls at blow `k` sees the attacks up to `k`, then defeat and respawn. */
  lemma PhaseLogDefeat(es: seq<Enemy>, rolls: seq<Roll>, playerLevel: int, hp: int, k: nat)
    requires AllValid(es) && k < |es|
    requires Survives(hp, Hits(es, rolls, playerLevel), k) && HpAfter(hp, Hits(es, rolls, playerLevel), k) <= 0
    ensures FirstDown(hp, Hits(es, rolls, playerLevel)) == Some(k)
    ensures PhaseLog(es, rolls, playerLevel, hp) == AttackLog(es, rolls, playerLevel, k + 1) + [DefeatEntry, RespawnEntry]
  {
    FirstDownAt(hp, Hits(es, rolls, playerLevel), k);
  }

  /** A player who survives every blow sees every attack, and nothing else. */
  lemma PhaseLogSurvive(es: seq<Enemy>, rolls: seq<Roll>, playerLevel: int, hp: int)
    requires AllValid(es) && Survives(hp, Hits(es, rolls, playerLevel), |es|)
    ensures FirstDown(hp, Hits(es, rolls, playerLevel)) == None
    ensures PhaseLog(es, rolls, playerLevel, hp) == AttackLog(es, rolls, playerLevel, |es|)
  {
  }

  function Sum(s: seq<int>): int {
    if s == [] then 0 else Sum(s[..|s| - 1]) + s[|s| - 1]
  }

  lemma SumStep(s: seq<int>, i: int)
    requires 0 <= i < |s|
    ensures Sum(s[..i + 1]) == Sum(s[..i]) + s[i]
  {
    assert s[..i + 1][..i] == s[..i];
  }

  lemma {:induction false} SumNonNegative(s: seq<int>)
    requires forall i :: 0 <= i < |s| ==> s[i] >= 0
    ensures Sum(s) >= 0
  {
    if s != [] {
      SumNonNegative(s[..|s| - 1]);
    }
  }

  /** Enemy attacks never heal: a player who survives them ends with at most the hp they started with. */
  lemma AttacksNeverHeal(es: seq<Enemy>, rolls: seq<Roll>, playerLevel: int)
    requires AllValid(es) && forall e :: e in es ==> e.damage >= 0
    ensures Sum(Hits(es, rolls, playerLevel)) >= 0
  {
    HitsNonNegative(es, rolls, playerLevel);
    SumNonNegative(Hits(es, rolls, playerLevel));
  }

  /** The player's hp after the first `j + 1` blows, starting from `hp`. */
  function HpAfter(hp: int, hits: seq<int>, j: int): int
    requires 0 <= j < |hits|
  {
    hp - Sum(hits[..j + 1])
  }

  /** The player, starting at `hp`, is still above zero after each of the first `n` blows. */
  predicate Survives(hp: int, hits: seq<int>, n: int)
    requires n <= |hits|
  {
    forall j :: 0 <= j < n ==> HpAfter(hp, hits, j) > 0
  }

  lemma SurvivesStep(hp: int, hits: seq<int>, i: int)
    requires 0 <= i < |hits| && Survives(hp, hits, i) && HpAfter(hp, hits, i) > 0
    ensures Survives(hp, hits, i + 1)
  {
  }

  /** The index of the first blow after which the player is at zero or below, searching from `i`. */
  function FirstDownFrom(hp: int, hits: seq<int>, i: nat): (r: Option<nat>)
    requires i <= |hits| && Survives(hp, hits, i)
    ensures r.None? <==> Survives(hp, hits, |hits|)
    ensures r.Some? ==> i <= r.value < |hits| && Survives(hp, hits, r.value) && HpAfter(hp, hits, r.value) <= 0
    decreases |hits| - i
  {
    if i == |hits| then None
    else if HpAfter(hp, hits, i) <= 0 then Some(i)
    else FirstDownFrom(hp, hits, i + 1)
  }

  /** The first blow that takes the player to zero or below, if any. */
  function FirstDown(hp: int, hits: seq<int>): (r: Option<nat>)
    ensures r.None? <==> Survives(hp, hits, |hits|)
    ensures r.Some? ==> r.value < |hits| && Survives(hp, hits, r.value) && HpAfter(hp, hits, r.value) <= 0
  {
    FirstDownFrom(hp, hits, 0)
  }

  lemma {:induction false} FirstDownFromAt(hp: int, hits: seq<int>, i: nat, k: nat)
    requires i <= k < |hits| && Survives(hp, hits, k) && HpAfter(hp, hits, k) <= 0
    ensures FirstDownFrom(hp, hits, i) == Some(k)
    decreases k - i
  {
    if i < k {
      assert HpAfter(hp, hits, i) > 0;
      FirstDownFromAt(hp, hits, i + 1, k);
    }
  }

  /** The first fatal blow is unique: whoever survives the first `k` blows and falls at blow `k` fell there first. */
  lemma FirstDownAt(hp: int, hits: seq<int>, k: nat)
    requires k < |hits| && Survives(hp, hits, k) && HpAfter(hp, hits, k) <= 0
    ensures FirstDown(hp, hits) == Some(k)
  {
    FirstDownFromAt(hp, hits, 0, k);
  }

  class CombatSystem {
    const player: Character
    var enemies: seq<Enemy>
    var log: seq<LogEntry>
    var combatStreak: int

    constructor (player: Character, party: Party)
      ensures this.player == player && enemies == Members(party)
      ensures log == [] && combatStreak == 0
    {
      this.player := player;
      enemies := Members(party);
      log := [];
      combatStreak := 0;
    }

    method AddToLog(entry: LogEntry)
      modifies this`log
      ensures log == old(log) + [entry]
    {
      log := log + [entry];
    }

    method HandleEnemyDeath(enemy: Enemy)
      modifies this`combatStreak, this`log
      ensures combatStreak == old(combatStreak) + 1
      ensures log == old(log) + [Defeated(enemy.name)]
    {
      combatStreak := combatStreak + 1;
      AddToLog(Defeated(enemy.name));
    }

    /** The rewards for the enemies still in the list; a streak above one adds a log entry. */
    method CalculateRewards() returns (exp: int, gold: int)
      modifies this`log
      ensures exp == WithStreak(TotalExpReward(enemies, player.level), combatStreak)
      ensures gold == WithStreak(TotalGold(enemies), combatStreak)
      ensures log == old(log) + if combatStreak > 1 then [StreakBonusEntry(combatStreak)] else []
    {
      exp := TotalExpReward(enemies, player.level);
      gold := TotalGold(enemies);
      if combatStreak > 1 {
        var bonus := StreakBonus(combatStreak);
        exp := Scale(exp, bonus);
        gold := Scale(gold, bonus);
        AddToLog(StreakBonusEntry(combatStreak));
      }
    }

    method HandleVictory() returns (ended: bool)
      requires player.Valid()
      modifies this`log, player`level, player`experience, player`stats, player`currentHp, player`currentMp, player`gold
      ensures ended && player.Valid()
      ensures var exp := WithStreak(TotalExpReward(enemies, old(player.level)), combatStreak);
        var gold := WithStreak(TotalGold(enemies), combatStreak);
        && player.experience == old(player.experience) + ExpGain(old(player.level), exp)
        && player.gold == old(player.gold) + gold
        && player.level >= old(player.level)
        && (forall l :: old(player.level) <= l < player.level ==> NextLevelExp(l) <= player.experience)
        && (player.level > old(player.level) ==> player.currentHp == player.stats.hp && player.currentMp == player.stats.mp)
        && (player.level == old(player.level) ==>
              player.currentHp == old(player.currentHp) && player.currentMp == old(player.currentMp))
        && log == old(log) + (if combatStreak > 1 then [StreakBonusEntry(combatStreak)] else []) + [VictoryEntry(exp, gold)]
      ensures enemies == [] ==>
        && player.level == old(player.level) && player.experience == old(player.experience)
        && player.gold == old(player.gold) && player.stats == old(player.stats)
        && player.currentHp == old(player.currentHp) && player.currentMp == old(player.currentMp)
    {
      var exp, gold := CalculateRewards();
      player.GainExperience(exp);
      player.gold := player.gold + gold;
      AddToLog(VictoryEntry(exp, gold));
      ended := true;
    }

    method HandleDefeat() returns (ended: bool)
      requires player.Valid()
      modifies this`combatStreak, this`log, player`currentHp, player`currentMp, player`experience, player`gold
      ensures ended && player.Valid() && combatStreak == 0
      ensures player.currentHp == player.stats.hp && player.currentMp == player.stats.mp
      ensures player.experience == Penalty(old(player.experience)) && player.gold == Penalty(old(player.gold))
      ensures log == old(log) + [DefeatEntry, RespawnEntry]
    {
      combatStreak := 0;
      AddToLog(DefeatEntry);
      var _ := player.Respawn();
      AddToLog(RespawnEntry);
      ended := true;
    }

    /** One enemy attacks the player: the adjusted blow comes off the player's hp and is logged. */
    method Strike(enemy: Enemy, roll: Roll)
      requires enemy.Valid()
      modifies this`log, player`currentHp
      ensures player.currentHp == old(player.currentHp) - HitOf(enemy, roll, player.level)
      ensures log == old(log) + [AttackEntry(enemy, roll, player.level)]
    {
      var attack := enemy.Attack(roll.ability, roll.factor);
      var adjusted := AdjustEnemyDamage(attack.damage, player.level, enemy.difficulty);
      player.currentHp := player.currentHp - adjusted;
      AddToLog(EnemyHit(enemy.name, attack.ability, adjusted));
    }

    /** Enemy `i` strikes: the running hp and log extend from the first `i` blows to the first `i + 1`. */
    method StrikeNext(es: seq<Enemy>, rolls: seq<Roll>, level: int, i: nat, ghost hp0: int, ghost log0: seq<LogEntry>)
      requires AllValid(es) && i < |es| && player.level == level
      requires player.currentHp == hp0 - Sum(Hits(es, rolls, level)[..i])
      requires log == log0 + AttackLog(es, rolls, level, i)
      modifies this`log, player`currentHp
      ensures player.currentHp == hp0 - Sum(Hits(es, rolls, level)[..i + 1])
      ensures log == log0 + AttackLog(es, rolls, level, i + 1)
    {
      assert es[i] in es;
      Strike(es[i], RollAt(rolls, i));
      SumStep(Hits(es, rolls, level), i);
      AttackLogStep(es, rolls, level, i);
    }

    /**
     * The enemies attack in order; the first blow that takes the player to
     * zero hp or below stops the attacks, and the enemies after it do not act.
     */
    method EnemyAttacks(rolls: seq<Roll>) returns (down: bool)
      requires AllValid(enemies)
      modifies this`log, player`currentHp
      ensures var hits := Hits(enemies, rolls, player.level);
        var n := Reached(old(player.currentHp), hits);
        && (down <==> FirstDown(old(player.currentHp), hits).Some?)
        && player.currentHp == old(player.currentHp) - Sum(hits[..n])
        && log == old(log) + AttackLog(enemies, rolls, player.level, n)
    {
      var es, level := enemies, player.level;
      ghost var hits := Hits(es, rolls, level);
      ghost var hp0 := player.currentHp;
      ghost var log0 := log;
      var i := 0;
      while i < |es|
        invariant 0 <= i <= |es|
        invariant Survives(hp0, hits, i)
        invariant player.currentHp == hp0 - Sum(hits[..i])
        invariant log == log0 + AttackLog(es, rolls, level, i)
      {
        StrikeNext(es, rolls, level, i, hp0, log0);
        if player.currentHp <= 0 {
          FirstDownAt(hp0, hits, i);
          assert Reached(hp0, hits) == i + 1;
          assert enemies == es && player.level == level;
          return true;
        }
        SurvivesStep(hp0, hits, i);
        i := i + 1;
      }
      assert Reached(hp0, hits) == |es|;
      assert enemies == es && player.level == level;
      down := false;
    }

    /**
     * The enemies' half of a turn: the attacks, then, if one of them was
     * fatal, the defeat.
     */
    method EnemyPhase(rolls: seq<Roll>) returns (ended: bool)
      requires player.Valid() && AllValid(enemies)
      modifies this`log, this`combatStreak, player`currentHp, player`currentMp, player`experience, player`gold
      ensures player.Valid()
      ensures var down := FirstDown(old(player.currentHp), Hits(enemies, rolls, player.level));
        && (ended <==> down.Some?)
        && log == old(log) + PhaseLog(enemies, rolls, player.level, old(player.currentHp))
        && (down.None? ==>
          && combatStreak == old(combatStreak)
          && player.currentHp == old(player.currentHp) - Sum(Hits(enemies, rolls, player.level))
          && player.currentMp == old(player.currentMp)
          && player.experience == old(player.experience) && player.gold == old(player.gold))
        && (down.Some? ==>
          && combatStreak == 0
          && player.currentHp == player.stats.hp && player.currentMp == player.stats.mp
          && player.experience == Penalty(old(player.experience)) && player.gold == Penalty(old(player.gold)))
    {
      ghost var es, level := enemies, player.level;
      ghost var hits := Hits(es, rolls, level);
      ghost var log0 := log;
      var down := EnemyAttacks(rolls);
      if down {
        ghost var attacked := log[|log0|..];
        ended := HandleDefeat();
        assert log == log0 + (attacked + [DefeatEntry, RespawnEntry]);
      } else {
        assert hits[..|hits|] == hits;
        ended := false;
      }
      assert enemies == es && player.level == level;
    }

    /**
     * One turn: the player hits the front enemy; a kill removes it and raises
     * the streak, and killing the last one is a victory. Otherwise the
     * remaining enemies attack. The victory rewards are computed after the
     * last enemy has already left the list, so they are always zero.
     */
    method ExecuteTurn(playerDraw: Unit, rolls: seq<Roll>) returns (ended: bool)
      requires |enemies| > 0 && AllValid(enemies) && player.Valid()
      modifies this`enemies, this`log, this`combatStreak, (enemies[0] as Enemy)`currentHp
      modifies player`level, player`experience, player`stats, player`currentHp, player`currentMp, player`gold
      ensures player.Valid() && AllValid(enemies)
      ensures var target := old(enemies[0]);
        var hit := CalculateDamage(old(player.stats.str), playerDraw);
        var killed := old(target.currentHp) - hit <= 0;
        && target.currentHp == (if killed then 0 else old(target.currentHp) - hit)
        && enemies == (if killed then old(enemies)[1..] else old(enemies))
      ensures player.level == old(player.level) && player.stats == old(player.stats)
      ensures var target := old(enemies[0]);
        var hit := CalculateDamage(old(player.stats.str), playerDraw);
        var killed := old(target.currentHp) - hit <= 0;
        var streak := old(combatStreak) + if killed then 1 else 0;
        var opening := old(log) + [PlayerHit(target.name, hit)] + if killed then [Defeated(target.name)] else [];
        var won := killed && |old(enemies)| == 1;
        var down := FirstDown(old(player.currentHp), Hits(enemies, rolls, old(player.level)));
        && (ended <==> won || down.Some?)
        && (won ==>
          && combatStreak == streak
          && player.experience == old(player.experience) && player.gold == old(player.gold)
          && player.currentHp == old(player.currentHp) && player.currentMp == old(player.currentMp)
          && log == opening + (if streak > 1 then [StreakBonusEntry(streak)] else []) + [VictoryEntry(0, 0)])
        && (!won ==> log == opening + PhaseLog(enemies, rolls, old(player.level), old(player.currentHp)))
        && (!won && down.None? ==>
          && combatStreak == streak
          && player.currentHp == old(player.currentHp) - Sum(Hits(enemies, rolls, old(player.level)))
          && player.currentMp == old(player.currentMp)
          && player.experience == old(player.experience) && player.gold == old(player.gold))
        && (!won && down.Some? ==>
          && combatStreak == 0
          && player.currentHp == player.stats.hp && player.currentMp == player.stats.mp
          && player.experience == Penalty(old(player.experience)) && player.gold == Penalty(old(player.gold)))
    {
      var target := enemies[0];
      var hit := CalculateDamage(player.stats.str, playerDraw);
      var killed := target.TakeDamage(hit);
      AddToLog(PlayerHit(target.name, hit));
      if killed {
        enemies := enemies[1..];
        HandleEnemyDeath(target);
        if |enemies| == 0 {
          ended := HandleVictory();
          return;
        }
      }
      ended := EnemyPhase(rolls);
    }
  }
}
