/** The cosmetic rank title shown beside the player's level. */
module Ranks {

  /** The rank titles, lowest first. */
  const RankTitles: seq<string> := [
    "Gotham Citizen",
    "GCPD Rookie",
    "Detective",
    "Vigilante",
    "Caped Crusader",
    "Dark Knight",
    "Legend"
  ]

  /** One rank per five levels, clamped to the last title. JavaScript's
      Math.floor(level / 5) is Dafny's division by a positive divisor. */
  function RankIndex(level: int): (r: int)
    ensures r <= |RankTitles| - 1
    ensures (r == |RankTitles| - 1 && 5 * r <= level) || 5 * r <= level < 5 * r + 5
    ensures level >= 0 ==> 0 <= r
  {
    var steps := level / 5;
    if steps < |RankTitles| - 1 then steps else |RankTitles| - 1
  }

  /** The title displayed for a level; every non-negative level has one. */
  function RankTitle(level: int): (t: string)
    requires level >= 0
    ensures t in RankTitles
  {
    RankTitles[RankIndex(level)]
  }

  /** A higher level never shows a lower rank. */
  lemma RankIndexMonotone(a: int, b: int)
    requires a <= b
    ensures RankIndex(a) <= RankIndex(b)
  {
  }

  /** Levels one to four are the first rank. */
  lemma FirstLevelsAreCitizens(level: int)
    requires 1 <= level <= 4
    ensures RankIndex(level) == 0
    ensures RankTitle(level) == "Gotham Citizen"
  {
  }

  /** Every level from thirty on is the last rank. */
  lemma LateLevelsAreLegends(level: int)
    requires level >= 30
    ensures RankIndex(level) == |RankTitles| - 1 == 6
    ensures RankTitle(level) == "Legend"
  {
  }
}
