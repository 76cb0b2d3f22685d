/** The inner-environment panel (components/Environment.tsx): the energy counter
    selects one of five growth stages. */
module Environment {

  datatype Stage = Seed | Sapling | Garden | Island | City

  /** Position of a stage in the growth order. */
  function Rank(st: Stage): nat
  {
    match st
    case Seed => 0
    case Sapling => 1
    case Garden => 2
    case Island => 3
    case City => 4
  }

  /** The least energy at which a stage is shown (Seed is the catch-all). */
  function Threshold(st: Stage): int
  {
    match st
    case Seed => 0
    case Sapling => 10
    case Garden => 25
    case Island => 50
    case City => 100
  }

  /** The stage for an energy value: the highest stage whose threshold the
      energy reaches, Seed when it reaches none. */
  function StageOf(energy: int): (st: Stage)
    ensures st == Seed || Threshold(st) <= energy
    ensures forall other: Stage :: Rank(other) > Rank(st) ==> energy < Threshold(other)
  {
    if energy >= 100 then City
    else if energy >= 50 then Island
    else if energy >= 25 then Garden
    else if energy >= 10 then Sapling
    else Seed
  }

  /** More energy never shows an earlier stage. */
  lemma StageMonotone(lower: int, higher: int)
    requires lower <= higher
    ensures Rank(StageOf(lower)) <= Rank(StageOf(higher))
  {
  }

  /** The bands of the threshold chain, one stage per energy value. */
  lemma StageBands(energy: int)
    ensures StageOf(energy) == City <==> energy >= 100
    ensures StageOf(energy) == Island <==> 50 <= energy < 100
    ensures StageOf(energy) == Garden <==> 25 <= energy < 50
    ensures StageOf(energy) == Sapling <==> 10 <= energy < 25
    ensures StageOf(energy) == Seed <==> energy < 10
  {
  }
}
