/** TownConfig: the tunables every step reads. */
module Config {
  import opened Random

  /** Local row at which a plateau edge turns toward the next acre's boundary. */
  const CLIFF_CONNECTION_POINT_OFFSET: int := 12
  /** Local row at which the river bends from the entry column to the exit column. */
  const RIVER_CONNECTION_POINT_OFFSET: int := 3

  /** The source's fields, with highPlateauChance as an exact fraction. maxPondSize and
      pondSpreadChance are read by the pond step but are absent from the TownConfig revision at
      hand, so they are fields here. cliffSmoothness is read by no step and is left out. */
  datatype TownConfig = TownConfig(
    minPlateauRow: int,
    maxPlateauRow: int,
    minHighPlateauRowOffset: int,
    maxHighPlateauRowOffset: int,
    highPlateauChance: Probability,
    riverWidth: int,
    riverMeanderChance: int,
    riverHorizontalChance: int,
    minPondRadius: int,
    maxPondRadius: int,
    maxPondSize: int,
    pondSpreadChance: int)

  /** The compiled-in defaults (0.75 as 3/4). The pond size fields have no default in the
      source; the values here are placeholders a caller overrides. */
  function Default(): (c: TownConfig)
    ensures ValidProbability(c.highPlateauChance)
  {
    TownConfig(1, 4, 1, 2, Probability(3, 4), 3, 50, 50, 2, 3, 0, 0)
  }
}
