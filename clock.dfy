/**
 * The day cycle: four phases in a fixed order, each with its own pool of
 * enemy archetypes and its own difficulty multiplier, later phases harder.
 */
module Clock {
  import opened Enemies

  datatype Phase = Morning | Afternoon | Evening | Night

  /** The phases in the order the day runs through them. */
  const Phases: seq<Phase> := [Morning, Afternoon, Evening, Night]

  /** The position of a phase in `Phases`. */
  function PhaseIndex(p: Phase): (i: nat)
    ensures i < |Phases| && Phases[i] == p
  {
    match p
    case Morning => 0
    case Afternoon => 1
    case Evening => 2
    case Night => 3
  }

  /** Each position holds the phase whose index it is, so `PhaseIndex` and indexing are inverse. */
  lemma PhasesIndexed(i: int)
    requires 0 <= i < |Phases|
    ensures PhaseIndex(Phases[i]) == i
  {
  }

  /** The phase after `p`, wrapping from night to morning. */
  function Next(p: Phase): (q: Phase)
    ensures PhaseIndex(q) == (PhaseIndex(p) + 1) % |Phases|
  {
    Phases[(PhaseIndex(p) + 1) % |Phases|]
  }

  /** A day has four phases: four steps return to the start and fewer never do. */
  lemma DayCycle(p: Phase)
    ensures Next(Next(Next(Next(p)))) == p
    ensures Next(p) != p && Next(Next(p)) != p && Next(Next(Next(p))) != p
  {
  }

  /** The archetypes that can appear in each phase. */
  function EnemyPool(p: Phase): (pool: seq<Archetype>)
    ensures |pool| > 0
  {
    match p
    case Morning => [Slime, Goblin]
    case Afternoon => [Goblin, Skeleton]
    case Evening => [Skeleton, Orc, DarkMage]
    case Night => [DarkMage, Dragon]
  }

  function Tier(a: Archetype): int {
    TemplateOf(a).difficulty
  }

  /**
   * Difficulty rises through the day: in a later phase both the weakest and
   * the strongest archetype of the pool are at least as hard as in an
   * earlier one, and the strongest is strictly harder.
   */
  lemma PoolsHarden(p: Phase, q: Phase)
    requires PhaseIndex(p) < PhaseIndex(q)
    ensures forall a :: a in EnemyPool(p) ==> exists b :: b in EnemyPool(q) && Tier(a) < Tier(b)
    ensures forall b :: b in EnemyPool(q) ==> exists a :: a in EnemyPool(p) && Tier(a) <= Tier(b)
  {
    forall a | a in EnemyPool(p)
      ensures exists b :: b in EnemyPool(q) && Tier(a) < Tier(b)
    {
      var top := EnemyPool(q)[|EnemyPool(q)| - 1];
      assert top in EnemyPool(q);
      assert Tier(a) < Tier(top);
    }
    forall b | b in EnemyPool(q)
      ensures exists a :: a in EnemyPool(p) && Tier(a) <= Tier(b)
    {
      var bottom := EnemyPool(p)[0];
      assert bottom in EnemyPool(p);
      assert Tier(bottom) <= Tier(b);
    }
  }

  /** The factor that later phases apply to the challenge. */
  function DifficultyMultiplier(p: Phase): (m: real)
    ensures 1.0 <= m <= 1.3
  {
    match p
    case Morning => 1.0
    case Afternoon => 1.1
    case Evening => 1.2
    case Night => 1.3
  }

  /** The multiplier strictly increases through the day, and only a later phase has a larger one. */
  lemma MultiplierOrdersPhases(p: Phase, q: Phase)
    ensures DifficultyMultiplier(p) < DifficultyMultiplier(q) <==> PhaseIndex(p) < PhaseIndex(q)
  {
  }

  /** The game clock: an index into `Phases` that only moves forward, one phase at a time. */
  class TimeSystem {
    var currentPhaseIndex: int

    predicate Valid()
      reads this`currentPhaseIndex
    {
      0 <= currentPhaseIndex < |Phases|
    }

    /** A new day starts in the morning. */
    constructor ()
      ensures Valid() && currentPhaseIndex == 0
      ensures GetCurrentPhase() == Morning
    {
      currentPhaseIndex := 0;
    }

    function GetCurrentPhase(): (p: Phase)
      requires Valid()
      reads this`currentPhaseIndex
      ensures PhaseIndex(p) == currentPhaseIndex
    {
      Phases[currentPhaseIndex]
    }

    /** Moves on to the next phase, wrapping after the night, and returns the new phase. */
    method Advance() returns (p: Phase)
      requires Valid()
      modifies this`currentPhaseIndex
      ensures Valid()
      ensures currentPhaseIndex == (old(currentPhaseIndex) + 1) % |Phases|
      ensures p == GetCurrentPhase() && p == Next(old(GetCurrentPhase()))
    {
      currentPhaseIndex := (currentPhaseIndex + 1) % |Phases|;
      p := GetCurrentPhase();
    }

    /** The pool of the current phase; reading it changes nothing. */
    function GetEnemiesForPhase(): (pool: seq<Archetype>)
      requires Valid()
      reads this`currentPhaseIndex
      ensures pool == EnemyPool(Phases[currentPhaseIndex])
    {
      EnemyPool(GetCurrentPhase())
    }

    /** The multiplier of the current phase; reading it changes nothing. */
    function GetDifficultyMultiplier(): (m: real)
      requires Valid()
      reads this`currentPhaseIndex
      ensures m == DifficultyMultiplier(Phases[currentPhaseIndex])
    {
      DifficultyMultiplier(GetCurrentPhase())
    }
  }

  /** Four advances bring the clock back to the phase it started in. */
  method FullDay(clock: TimeSystem) returns (phases: seq<Phase>)
    requires clock.Valid()
    modifies clock`currentPhaseIndex
    ensures clock.Valid() && clock.currentPhaseIndex == old(clock.currentPhaseIndex)
    ensures |phases| == 4 && phases[3] == old(clock.GetCurrentPhase())
    ensures forall i :: 0 <= i < 3 ==> phases[i] != old(clock.GetCurrentPhase())
  {
    ghost var start := clock.GetCurrentPhase();
    var a := clock.Advance();
    var b := clock.Advance();
    var c := clock.Advance();
    var d := clock.Advance();
    DayCycle(start);
    phases := [a, b, c, d];
  }
}
