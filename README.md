# RPG rules engine, modelled in Dafny

This project models the rules engine of a small terminal turn-based RPG. The original is written in JavaScript. The model covers:

- **Enemy stat scaling.** An archetype template and a level give an enemy's hp, damage, experience value and gold value. The level multiplier is piecewise linear, each enemy type has a fixed multiplier, and rewards get a bonus up to level 5.
- **Enemies.** Six fixed archetypes, an attack roll that picks an ability and scales the damage, and `takeDamage`, which clamps hp at zero and reports a kill.
- **The player character.** Class base stats and skills, skill use with an mp check, and equip/unequip bookkeeping that adds and subtracts item bonuses. Also the experience curve `floor(100·1.5^(level−1))`, the level-up loop, resting, and respawning with a 10% penalty.
- **Combat.** One turn:
  - the player hits the front enemy; a killed enemy leaves the list and raises the win streak;
  - an empty list is a victory;
  - otherwise every remaining enemy attacks in order, with early-game leniency;
  - the first blow that takes the player to zero hp or below is a defeat, which resets the streak and respawns the player.

  Rewards depend on the level gap and on the streak.
- **The day clock.** Four phases in a cycle, each with an enemy pool and a difficulty multiplier.
- **The shop.** The catalogue, the buy menu filter, the gold check, the sell price, and the inventory push/splice.

Modules:

| module | file | source |
|---|---|---|
| `Basics` | `basics.dfy` | `Option`, the unit interval of a random draw, and the floor-of-a-product step |
| `Stats` | `stats.dfy` | `src/utils/statCalculator.js` |
| `Enemies` | `enemies.dfy` | `src/models/Enemy.js` |
| `Characters` | `characters.dfy` | `src/models/Character.js` |
| `Combat` | `combat.dfy` | `src/systems/Combat.js` |
| `Clock` | `clock.dfy` | `src/systems/TimeSystem.js` |
| `Shop` | `shop.dfy` | `src/systems/Shop.js` |

Modelling choices:

- **Floating point.** Every JavaScript float factor (0.08, 1.15, 0.8, 1.5^k, …) is an exact Dafny `real`. `Math.floor(x * f)` is `Basics.Scale(x, f)`.
- **Random draws.** Each `Math.random()` draw is a parameter of type `Basics.Unit`, a rational in [0, 1).
- **Mutable objects.** `Character`, `Enemy`, `CombatSystem`, `TimeSystem` and `ShopSystem` are classes. Fields the game never reassigns are `const`. Every `modifies` clause names the individual fields the method writes. `Combat.CombatSystem.ExecuteTurn`, for example, may change only the front enemy's `currentHp`. Every state-changing method's `ensures` pins down each field it may write. Most fields are given outright. The level after `Characters.Character.GainExperience` and `Combat.CombatSystem.HandleVictory` is fixed by two facts: every threshold it passed was reached, and the invariant keeps experience below the current threshold.
- **Character invariant.** `Character.Valid()` holds after the constructor and after every method. It says:
  - the stats equal the class base stats, plus the per-level gains, plus the bonuses of the worn items;
  - experience is below the current level's threshold.
- **The combat log.** It is a sequence of structured entries (`Combat.LogEntry`) that keep the facts each message reports. The message text and its colours are not modelled.
- **The enemy loop.** The enemies' half of a turn is specified by pure functions:
  - `Combat.Hits` gives each enemy's blow;
  - `Combat.FirstDown` gives the first fatal blow, if any;
  - `Combat.PhaseLog` gives the resulting log.

  The loop in `Combat.CombatSystem.EnemyAttacks` is proved against these functions.
- **Victory rewards.** The victory path awards 0 experience and 0 gold. The last enemy has already been shifted off the list when `calculateRewards` sums over it. `Combat.CombatSystem.ExecuteTurn` states this outright: the log ends in `VictoryEntry(0, 0)`, and experience and gold are unchanged.

## Model

| member | source | states |
|---|---|---|
| Basics.Scale | src/utils/statCalculator.js:23 | `Math.floor(x·f)` on exact rationals. The result is the unique integer `r` with `r ≤ x·f < r+1`. |
| Stats.CalculateStats | src/utils/statCalculator.js:1-31 | A definition with no contract of its own. Hp and damage are `floor(base·m)` and the rewards are `CalculateReward`. Its properties are stated by `Stats.StatsAtLeastBase`, `Stats.StatsMonotone`, `Enemies.LevelOneSlime` and `Enemies.SlimeRewardDropsAtLevelSix`. |
| Stats.CalculateReward | src/utils/statCalculator.js:21-24 | A definition with no contract of its own: `floor(base·m·bonus)`. Its properties are stated by `Stats.RewardMonotoneWithinBand`, `Stats.StatsAtLeastBase` and `Enemies.SlimeRewardDropsAtLevelSix`. |
| Stats.LevelMultiplier | src/utils/statCalculator.js:3-7 | From level 1 on, the piecewise level multiplier is at least 1. |
| Stats.LevelMultiplierSteps | src/utils/statCalculator.js:3-7 | The level multiplier is 1 at level 1 and rises by 0.08 per level up to 5. It jumps by 0.18 from 5 to 6, rises by 0.1 per level up to 10, and by 0.12 per level beyond. |
| Stats.TypeMultiplier | src/utils/statCalculator.js:9-15 | Every type multiplier lies between 1 (normal) and 1.5 (boss). |
| Stats.Multiplier | src/utils/statCalculator.js:17-18 | The combined multiplier is at least 1 from level 1 on. |
| Stats.RewardMultiplier | src/utils/statCalculator.js:22 | The reward bonus is exactly 1.2 or 1. |
| Stats.StatsAtLeastBase | src/utils/statCalculator.js:3-31 | For level ≥ 1 and a non-negative template: hp, damage, exp and gold are each at least the template's base value, so none is negative. |
| Stats.LevelMultiplierMonotone | src/utils/statCalculator.js:3-7 | The level multiplier never decreases as the level grows, across the jumps at 5→6 and 10→11. |
| Stats.MultiplierIncreasing | src/utils/statCalculator.js:17-18 | The combined multiplier strictly increases with the level, for every type. |
| Stats.StatsMonotone | src/utils/statCalculator.js:26-28 | An enemy's hp and damage are non-decreasing in its level. |
| Stats.RewardMonotoneWithinBand | src/utils/statCalculator.js:21-24 | Rewards are non-decreasing in the level when both levels are ≤ 5 or both are > 5. |
| Enemies.AbilityModifier | src/models/Enemy.js:87-100 | Every ability modifier lies in [0.6, 1.5]. |
| Enemies.PickIndex | src/models/Enemy.js:84 | `floor(draw·n)` is a valid index into a list of `n > 0` abilities. |
| Enemies.Enemy.constructor | src/models/Enemy.js:68-80 | Name, type, difficulty and abilities come from the archetype template. Hp, damage, exp and gold equal `calculateStats(template, level)`. currentHp equals hp. |
| Enemies.Enemy.Attack | src/models/Enemy.js:83-106 | The attack's ability is one of the enemy's abilities. As a function, it changes no field. |
| Enemies.Enemy.AttackBounds | src/models/Enemy.js:85-103 | Attack damage is ≥ 0. It is at least `floor(floor(0.8·damage)·mod)` and at most `floor(damage·mod)` for the chosen ability's modifier. |
| Enemies.Enemy.TakeDamage | src/models/Enemy.js:108-111 | currentHp becomes `max(0, currentHp − amount)`. The result is true exactly when the new hp is 0, including an enemy already at 0. A non-negative amount never raises hp. No other field changes. |
| Enemies.TemplateOf | src/models/Enemy.js:5-66 | The six-row template table, with no contract of its own. Its properties are stated by `Enemies.TemplateTable`, `Enemies.LevelOneSlime` and `Clock.PoolsHarden`. |
| Enemies.TemplateTable | src/models/Enemy.js:5-66 | The difficulty tiers are Slime 1 to Dragon 6. Each archetype has exactly two abilities and non-negative base values. |
| Enemies.LevelOneSlime | src/utils/statCalculator.js:26-28 | A level-1 slime has 30 hp. |
| Enemies.SlimeRewardDropsAtLevelSix | src/utils/statCalculator.js:21-24 | A slime's exp value falls from 23 at level 5 to 22 at level 6, so rewards are not monotone in the level. |
| Characters.StatBlock.Add | src/models/Character.js:118-120 | `stats[k] += v` changes stat `k` by `v` and no other stat. |
| Characters.SlotOf | src/models/Character.js:106 | A type names an equipment slot exactly when it is "weapon", "armor" or "accessory". |
| Characters.Equipment.Set | src/models/Character.js:122 | Assigning a slot changes that slot and no other. |
| Characters.WearAllSet | src/models/Character.js:110-122 | Replacing what one slot holds changes the worn stats by the new bonuses minus the old ones. |
| Characters.BaseStats | src/models/Character.js:16-20 | The class base-stat table, with no contract of its own. `Characters.Character.constructor` states that a new character gets it, and `Characters.LevelStatsClosedForm` builds on it. |
| Characters.Gains | src/models/Character.js:155-159 | The per-level gain table, with no contract of its own. Its properties are stated by `Characters.GainsPositive`, `Characters.LevelStatsClosedForm` and `Characters.Character.LevelUp`. |
| Characters.GainsPositive | src/models/Character.js:155-159 | Every class gains a positive amount of every stat per level. |
| Characters.LevelStatsClosedForm | src/models/Character.js:152-164 | After `n` level-ups, each stat is its class base value plus `n` times the class gain. |
| Characters.SkillSet | src/models/Character.js:28-75 | Each class has two skills: a damage skill first, then an effect skill. |
| Characters.SkillAmountNonNegative | src/models/Character.js:34-68 | A skill used with a non-negative stat yields a non-negative number. |
| Characters.SkillAmount | src/models/Character.js:34-68 | `floor(stat·multiplier)` of the stat a skill reads, with no contract of its own. Its properties are stated by `Characters.SkillAmountNonNegative`, `Characters.Character.UseSkill` and `Characters.FireballScenario`. |
| Characters.NextLevelExp | src/models/Character.js:148-150 | The threshold `floor(100·1.5^(level−1))`, with no contract of its own. Its properties are stated by `Characters.NextLevelExpIncreasing`, `Characters.NextLevelExpStrictlyMonotone` and `Characters.Character.GainExperience`. |
| Characters.NextLevelExpIncreasing | src/models/Character.js:148-150 | The threshold is at least 100 and grows by at least 50 per level. |
| Characters.NextLevelExpStrictlyMonotone | src/models/Character.js:148-150 | The threshold strictly increases with the level, which is why the level-up loop ends. |
| Characters.ExpGain | src/models/Character.js:140-141 | The boosted gain is at least the amount for a non-negative amount. Above level 10 it is exactly the amount. |
| Characters.Penalty | src/models/Character.js:179-180 | `floor(0.9·x)` stays in [0, x] for x ≥ 0 and is strictly smaller than x for every x ≥ 1. |
| Characters.Character.constructor | src/models/Character.js:2-25 | A new character has level 1, 0 exp, 100 gold, an empty inventory and three empty slots. Its stats are the class row, hp and mp are full, the skills are the class's skill set, and the invariant holds. |
| Characters.Character.UseSkill | src/models/Character.js:77-103 | With no skill at the index or too little mp, the result is a failure and nothing changes. Otherwise exactly the mp cost is paid. A damage skill deals `floor(stat·mult)` through the target's clamped hp. An effect skill returns its magnitude and leaves the target untouched. |
| Characters.Character.AddStats | src/models/Character.js:118-120 | The entry loop adds (or subtracts) the whole stat object, stat by stat. |
| Characters.Character.EquipItem | src/models/Character.js:105-124 | For an unknown type: false and no change. Otherwise the slot holds the item and the stats become the old stats minus the old item's bonuses plus the new item's. The invariant is kept. |
| Characters.Character.UnequipItem | src/models/Character.js:126-137 | For an unknown or empty slot: false and no change. Otherwise the slot is emptied and its item's bonuses are taken off. The invariant is kept. |
| Characters.Character.LevelUp | src/models/Character.js:152-168 | The level goes up by one and the stats by the class gains. Hp and mp are refilled to the new maxima. |
| Characters.Character.GainExperience | src/models/Character.js:139-146 | Experience grows by the boosted amount and is not consumed by level-ups. The level never decreases. Every level passed had its threshold reached. The loop stops below the threshold. Hp and mp are full if a level was gained, or else unchanged. |
| Characters.Character.Rest | src/models/Character.js:170-174 | Hp and mp are refilled. Experience and gold are outside the frame, so they are unchanged. The result is true. |
| Characters.Character.Respawn | src/models/Character.js:176-182 | Hp and mp are refilled. Experience and gold become `floor(0.9·x)`. The invariant is kept. |
| Characters.EquipUnequipRoundTrip | src/models/Character.js:105-137 | Equipping into an empty slot and then unequipping that slot restores the stats and the equipment exactly. |
| Characters.FireballScenario | src/models/Character.js:44-50 | A new mage casting Fireball at a new level-1 slime deals 30 damage, spends 20 mp and kills it. |
| Combat.Members | src/systems/Combat.js:6 | A single enemy becomes a one-element list, and a list is kept as is. |
| Combat.AdjustEnemyDamage | src/systems/Combat.js:44-50 | The leniency never raises a non-negative blow or makes it negative. Above level 3, or against tier 3 and up, the blow is unchanged. |
| Combat.LeniencyReduces | src/systems/Combat.js:44-50 | For every positive blow, the adjusted blow is smaller exactly when the player level is ≤ 3 and the enemy difficulty is ≤ 2. |
| Combat.CalculateDamage | src/systems/Combat.js:52-56 | The player's blow lies between `floor(0.85·b)` and `floor(1.15·b)`. |
| Combat.ExpReward | src/systems/Combat.js:97-111 | The per-enemy reward by level-gap band, with no contract of its own. Its properties are stated by `Combat.ExpRewardBounds`, `Combat.ExpRewardViaFactor`, `Combat.ExpRewardMonotone` and `Combat.ExpRewardNotMonotoneEarly`. |
| Combat.ExpRewardBounds | src/systems/Combat.js:95-113 | A per-enemy reward is never negative. A stronger or equal enemy pays at least its base value. A weaker one pays between half and all of it. An enemy 5 or more levels below pays exactly half. |
| Combat.ExpRewardMonotone | src/systems/Combat.js:98-111 | From player level 6 on, the reward is non-decreasing in the enemy's level across all bands. It is derived from `ExpRewardViaFactor` and `RewardFactorMonotone`. |
| Combat.RewardFactor | src/systems/Combat.js:98-103 | From level 6 on, a stronger or equal enemy's factor is at least 1. A weaker enemy's factor lies in [0.5, 1). |
| Combat.ExpRewardViaFactor | src/systems/Combat.js:97-111 | From player level 6 on, every band of the reward is the base value scaled by `RewardFactor` of the level gap. The same-level case is the factor 1. |
| Combat.RewardFactorMonotone | src/systems/Combat.js:98-103 | The gap factor never decreases as the gap grows, including across the half-reward cut-off at a gap of −5. |
| Combat.ExpRewardNotMonotoneEarly | src/systems/Combat.js:106-108 | At player level 3, a level-3 enemy worth 100 pays 120, more than a level-4 one, which pays 115. |
| Combat.TotalExpReward | src/systems/Combat.js:95-113 | The summed exp reward is non-negative when every enemy's exp value is. |
| Combat.TotalGold | src/systems/Combat.js:65 | The gold total is non-negative when every enemy's gold value is. |
| Combat.TotalsAdd | src/systems/Combat.js:63-65 | Both totals are additive over concatenated enemy lists: plain sums with no cross-enemy effect. |
| Combat.StreakBonus | src/systems/Combat.js:69 | For a streak above one the bonus lies in (1, 1.5]. It is capped at 1.5 from a streak of 6. |
| Combat.WithStreak | src/systems/Combat.js:68-73 | The bonus never lowers a total and at most multiplies it by 1.5. It does nothing for a streak ≤ 1 and keeps a zero total at zero. |
| Combat.HitOf | src/systems/Combat.js:29-30 | One enemy's leniency-adjusted attack with its own draws, with no contract of its own. Its properties are stated by `Combat.HitsNonNegative` and `Combat.CombatSystem.Strike`. |
| Combat.Hits | src/systems/Combat.js:28-31 | There is one blow per enemy, in list order: the leniency-adjusted attack of enemy `i` with its own draws. |
| Combat.HitsNonNegative | src/systems/Combat.js:29-31 | No enemy blow is negative. |
| Combat.AttacksNeverHeal | src/systems/Combat.js:31 | The enemies' total damage is never negative, so their attacks never heal the player. |
| Combat.AttackLog | src/systems/Combat.js:32-34 | The first `n` attack entries name the attacker, its ability and the adjusted blow, in order. |
| Combat.Reached | src/systems/Combat.js:28-39 | The number of enemies that act never exceeds the list length. |
| Combat.FirstDown | src/systems/Combat.js:36-38 | There is no fatal blow exactly when the player stays above 0 after every blow. Otherwise the result is the first blow at or below 0: the player survived all earlier ones. |
| Combat.FirstDownAt | src/systems/Combat.js:36-38 | Any blow that the player survives up to and falls at is the one `FirstDown` finds, so the fatal blow is unique. |
| Combat.PhaseLog | src/systems/Combat.js:28-41 | The enemy half's log, with no contract of its own. `Combat.PhaseLogDefeat` and `Combat.PhaseLogSurvive` state it for each outcome, and `Combat.CombatSystem.EnemyPhase` and `ExecuteTurn` are proved to produce it. |
| Combat.PhaseLogDefeat | src/systems/Combat.js:28-41 | When blow `k` is fatal, the turn logs the attacks up to and including `k`, then the defeat and respawn. |
| Combat.PhaseLogSurvive | src/systems/Combat.js:28-41 | When the player survives every blow, the turn logs every attack and nothing else. |
| Combat.CombatSystem.constructor | src/systems/Combat.js:4-9 | A new combat holds the player and the enemy list, with an empty log and a streak of 0. |
| Combat.CombatSystem.AddToLog | src/systems/Combat.js:115-117 | The entry is appended to the log. |
| Combat.CombatSystem.HandleEnemyDeath | src/systems/Combat.js:58-61 | The streak rises by exactly one and the defeat is logged. |
| Combat.CombatSystem.CalculateRewards | src/systems/Combat.js:63-76 | The result is the streak-bonused totals of the enemies still in the list. A streak above one logs a bonus entry. |
| Combat.CombatSystem.HandleVictory | src/systems/Combat.js:78-85 | The player gains the (boosted) exp reward and the gold, and then levels up through every threshold the new experience reaches. After a level-up, hp and mp are full. With no level-up, hp and mp are unchanged. The streak and victory entries are logged. With an empty list, the player's level, exp, gold, stats, hp and mp are all unchanged. |
| Combat.CombatSystem.HandleDefeat | src/systems/Combat.js:87-93 | The streak resets to 0 and the player respawns with the penalty. The defeat and respawn are logged. |
| Combat.CombatSystem.Strike | src/systems/Combat.js:29-34 | One enemy's adjusted blow comes off the player's hp and is logged. |
| Combat.CombatSystem.EnemyAttacks | src/systems/Combat.js:28-39 | The enemies attack in order and stop at the first fatal blow. The result says whether there was one. Hp drops by exactly the blows dealt, and the log gains exactly those attacks. |
| Combat.CombatSystem.EnemyPhase | src/systems/Combat.js:27-41 | The enemy half of a turn ends the fight exactly when a blow is fatal. Then the streak resets and the player respawns with the penalty. Otherwise the player loses the sum of all blows and nothing else changes. The log follows `PhaseLog`. |
| Combat.CombatSystem.ExecuteTurn | src/systems/Combat.js:11-42 | A full turn: the target's hp is clamped and a killed target is shifted off the list. Killing the last enemy ends the fight, logs a victory of 0 exp and 0 gold, and leaves exp, gold, hp and mp unchanged. Otherwise the fight ends exactly when an enemy blow is fatal, with the streak and respawn effects above. The player's level and stats never change during a turn. |
| Clock.PhaseIndex | src/systems/TimeSystem.js:3 | Each phase sits at its index in the phase list. |
| Clock.PhasesIndexed | src/systems/TimeSystem.js:3 | Indexing the phase list and taking a phase's index are inverse. |
| Clock.Next | src/systems/TimeSystem.js:12 | The next phase has index (index + 1) mod 4. |
| Clock.DayCycle | src/systems/TimeSystem.js:11-14 | Four steps return to the starting phase, and one, two or three never do. |
| Clock.EnemyPool | src/systems/TimeSystem.js:16-25 | Every phase has a non-empty pool. |
| Clock.PoolsHarden | src/systems/TimeSystem.js:18-23 | In a later phase, some archetype is harder than each archetype of an earlier phase, and none is easier than the earlier phase's weakest. |
| Clock.DifficultyMultiplier | src/systems/TimeSystem.js:27-36 | The multiplier lies in [1.0, 1.3]. |
| Clock.MultiplierOrdersPhases | src/systems/TimeSystem.js:29-34 | One phase's multiplier is smaller than another's exactly when it comes earlier in the day. |
| Clock.TimeSystem.constructor | src/systems/TimeSystem.js:2-5 | The clock starts at index 0, which is Morning. |
| Clock.TimeSystem.GetCurrentPhase | src/systems/TimeSystem.js:7-9 | The current phase is the one at the current index. |
| Clock.TimeSystem.Advance | src/systems/TimeSystem.js:11-14 | The index becomes (index + 1) mod 4 and stays in 0..3. The new phase, the successor of the old one, is returned. |
| Clock.TimeSystem.GetEnemiesForPhase | src/systems/TimeSystem.js:16-25 | The result is the current phase's pool. As a function, it changes nothing. |
| Clock.TimeSystem.GetDifficultyMultiplier | src/systems/TimeSystem.js:27-36 | The result is the current phase's multiplier. As a function, it changes nothing. |
| Clock.FullDay | src/systems/TimeSystem.js:11-14 | Four advances return the clock to its index. The fourth returns the starting phase, and the first three do not. |
| Shop.Eligible | src/systems/Shop.js:101-103 | The menu condition, a predicate with no contract of its own. `Shop.Available` states that the menu holds exactly the eligible items, and `Shop.MenuScenarios` applies it to the catalogue. |
| Shop.Available | src/systems/Shop.js:99-104 | An item is on the menu exactly when it is in stock, its level requirement is met, and it names no classes or names the player's class. |
| Shop.AvailableConcat | src/systems/Shop.js:99-101 | Filtering a concatenation is concatenating the filtered parts, order kept. |
| Shop.MenuOrder | src/systems/Shop.js:99-104 | The menu lists the eligible weapons, then the eligible armor, then the eligible accessories. |
| Shop.MenuGrowsWithLevel | src/systems/Shop.js:102 | A level-up never removes an item from the menu. |
| Shop.StockIsEquippable | src/systems/Shop.js:6-76 | Every stocked item's type names an equipment slot, so equipping it succeeds. Every stocked item costs more than 0 and requires a level of at least 1. |
| Shop.MenuScenarios | src/systems/Shop.js:99-104 | A level-1 mage sees the wooden staff but not the iron sword. A warrior first sees the steel sword at level 5. Leather armor is offered to every class from level 1. |
| Shop.RemoveAt | src/systems/Shop.js:159 | `splice(i, 1)` removes exactly the element at `i`. The others keep their relative order, and the multiset loses that one element. |
| Shop.SellPrice | src/systems/Shop.js:156 | The sell price `floor(cost·0.5)` lies in [0, cost]. |
| Shop.BuySellRoundTrip | src/systems/Shop.js:129-159 | Selling the item just bought restores the inventory exactly. The player is left short of the cost minus the sell price, which is never negative. |
| Shop.ShopSystem.constructor | src/systems/Shop.js:5-77 | The shop's stock is the fixed catalogue. |
| Shop.ShopSystem.BuyItem | src/systems/Shop.js:98-132 | Cancelling (-1) changes nothing. With too little gold, nothing changes. Otherwise the gold drops by exactly the cost and stays ≥ 0, and the item is appended to the inventory. The catalogue is `const`. |
| Shop.ShopSystem.SellItem | src/systems/Shop.js:134-161 | With an empty inventory, or on cancel, nothing changes. Otherwise the gold rises by the sell price and exactly the chosen item is removed, the rest in order. |

## Left out

- `src/game.js` is not part of this model: its menu loop, console output, the random enemy count and level, its duplicate skill-attack path, and the inventory↔slot glue.
- `src/utils/saveManager.js` is not part of this model. It is filesystem and JSON I/O.
- `openShop` and the menu prompts are left out. `Shop.ShopSystem.BuyItem` and `Shop.ShopSystem.SellItem` take the chosen index as a parameter. Their `requires` admits exactly the values the prompt can return: `-1` or an index of a listed item.
- Console messages, `chalk` colouring and message text are not modelled. The combat log keeps structured entries instead of strings. The shop's console messages are dropped.
- `Math.random()` is not modelled as randomness. Each draw is a parameter. The enemies' draws in a turn come as a sequence, one `Combat.Roll` per enemy, and any draw past its end reads as zero.
- IEEE-754 doubles are modelled as exact rationals. JavaScript's floating-point products can round differently by one when a product lands on an integer, so bit-exactness is not claimed.
- `executeTurn` awaits nothing, so it is modelled as synchronous.
- Combat.CalculateDamage: the fallback `stats?.str || attacker.damage` is not modelled. It applies only when str is 0, and a character's str is always positive: class base values and gains are positive and no item lowers str. The model always uses str.
- Combat.CombatSystem.ExecuteTurn requires a non-empty enemy list. The original would throw on the missing target there.
- Combat.CombatSystem.constructor copies a given enemy array into a sequence. In the original, `shift` also mutates the caller's array, and that aliasing is not modelled.
- Characters.Character.UnequipItem accepts only the three slot names. In the original, a name of an inherited object property such as `"toString"` throws instead of returning false.
- Item stat objects are full six-stat blocks with 0 for every stat an item does not list. Adding or subtracting 0 gives the same stats, but the order and set of keys `Object.entries` walks is not kept.
- Skill damage and effect closures are functions of the stats at the moment of use (`Characters.SkillAmount`). The skill list is a `const`, fixed by the constructor.
- Characters.Character.GainExperience, `EquipItem`, `UnequipItem`, `LevelUp` and `Respawn` require the character invariant. Every constructor and method keeps it. A state that breaks it, such as edited save data, is not covered.
- The day's difficulty multiplier and enemy pool are modelled as tables. What `src/game.js` does with them is not part of this model. Phases and archetypes are datatypes rather than strings.
