/** GenerationPipeline and Town::Generate: an ordered list of steps run over one town with one
    random stream seeded once. */
module Pipeline {
  import opened Grid
  import opened Random
  import opened Config
  import opened TownModel
  import opened GenUtils
  import Cliffs
  import Rivers
  import Ponds
  import Ocean
  import Ramps

  /** The generation steps a pipeline can hold (the source stores them as callables). */
  datatype Step = CliffStep | RiverStep | PondStep | OceanStep | RampStep

  /** The floating-point results the steps consume, given as functions: the teardrop row shape
      and the beach wave. */
  datatype FloatInputs = FloatInputs(shape: RowShape, wave: Ocean.BeachWave)

  /** What the steps' contracts need of the configuration. */
  predicate ConfigOk(steps: seq<Step>, config: TownConfig)
  {
    CliffStep in steps ==> Cliffs.CliffConfigOk(config)
  }

  /** How many draws a step takes from the shared stream. */
  predicate DrawBudget(step: Step, config: TownConfig, used: int)
  {
    match step
    case CliffStep => used == 1 + WIDTH || used == 1 + 2 * WIDTH
    case RiverStep => HEIGHT <= used <= 1 + 4 * (HEIGHT - 1)
    case PondStep => 2 <= used <= 2 + 4 * Max(0, config.maxPondSize)
    case OceanStep => used == 7
    case RampStep => 0 <= used <= 4
  }

  /** The terrain as the cliff step lays it out: tiers 0 to 2, never rising southward within a
      column. */
  predicate Terraced(town: Town)
    requires town.Valid()
    reads town.tiles
  {
    town.ElevationsIn(0, 2)
    && forall x, z1, z2 :: 0 <= x < WORLD_W && 0 <= z1 <= z2 < WORLD_H ==>
         town.tiles[x, z2].elevation <= town.tiles[x, z1].elevation
  }

  // ── What each step does, on snapshots of the grid ──────────────────────────

  /** In grid g, (nx, nz) is on the map and lower than (x, z). */
  predicate LowerIn(g: Snapshot, x: int, z: int, nx: int, nz: int)
    requires IsGrid(g) && IsInBounds(x, z)
  {
    IsInBounds(nx, nz) && g[nx][nz].elevation < g[x][z].elevation
  }

  /** Cliffs.IsCliffFace on a snapshot: raised, with a strictly lower on-map 4-neighbour. */
  predicate FaceIn(g: Snapshot, x: int, z: int)
    requires IsGrid(g) && IsInBounds(x, z)
  {
    g[x][z].elevation > 0
    && (LowerIn(g, x, z, x + 1, z) || LowerIn(g, x, z, x - 1, z) || LowerIn(g, x, z, x, z + 1) || LowerIn(g, x, z, x, z - 1))
  }

  /** The tier count the cliff step draws at stream position p0. */
  function ThreeTiers(config: TownConfig, raw: nat -> nat, p0: nat): bool
    requires ValidProbability(config.highPlateauChance)
  {
    Bernoulli(raw(p0), config.highPlateauChance)
  }

  /** The draw bounds the cliff step needs, for the tier count it drew. */
  predicate CliffDrawsOk(config: TownConfig, raw: nat -> nat, p0: nat)
  {
    ValidProbability(config.highPlateauChance)
    && var three := ThreeTiers(config, raw, p0);
       var lo := config.minPlateauRow + (if three then 2 else 0);
       lo <= config.maxPlateauRow
       && (three ==> 1 <= lo && config.minHighPlateauRowOffset <= config.maxHighPlateauRowOffset)
  }

  /** The mid targets the cliff step draws from p0 on. */
  function PlateauMid(config: TownConfig, raw: nat -> nat, p0: nat): (mid: seq<int>)
    requires CliffDrawsOk(config, raw, p0)
    ensures |mid| == WIDTH
  {
    Cliffs.MidTargets(raw, p0 + 1, config.minPlateauRow + (if ThreeTiers(config, raw, p0) then 2 else 0), config.maxPlateauRow)
  }

  /** The high boundary the cliff step draws from p0 on (all zero with two tiers). */
  function PlateauHigh(config: TownConfig, raw: nat -> nat, p0: nat): (high: seq<int>)
    requires CliffDrawsOk(config, raw, p0)
    ensures |high| == WORLD_W
  {
    var mid := PlateauMid(config, raw, p0);
    var lo := config.minPlateauRow + (if ThreeTiers(config, raw, p0) then 2 else 0);
    assert forall ax :: 0 <= ax < WIDTH ==> mid[ax] == (Uniform(raw(p0 + 1 + ax), lo, config.maxPlateauRow) + 1) * SIZE;
    if ThreeTiers(config, raw, p0)
    then Cliffs.SafetyClamped(Cliffs.BuildSteppedBoundary(
                                Cliffs.HighTargets(raw, p0 + 1 + WIDTH, mid, config.minHighPlateauRowOffset,
                                                   config.maxHighPlateauRowOffset),
                                CLIFF_CONNECTION_POINT_OFFSET), mid)
    else seq(WORLD_W, x => 0)
  }

  /** Tile (x, z) of g1 is at the tier the boundaries mid and high give it, and is tagged
      CLIFF exactly when it is a face, keeping g0's kind otherwise. */
  predicate TerraceAt(g0: Snapshot, g1: Snapshot, mid: seq<int>, high: seq<int>, three: bool, x: int, z: int)
    requires IsGrid(g0) && IsGrid(g1) && |mid| == WIDTH && |high| == WORLD_W && IsInBounds(x, z)
  {
    g1[x][z].elevation == Cliffs.ElevationAt(Cliffs.BuildSteppedBoundary(mid, CLIFF_CONNECTION_POINT_OFFSET), high, three, x, z)
    && g1[x][z].kind == (if FaceIn(g1, x, z) then CLIFF else g0[x][z].kind)
  }

  /** g1 is g0 terraced by the boundaries mid and high, with exactly its cliff faces tagged. */
  predicate Terraces(g0: Snapshot, g1: Snapshot, mid: seq<int>, high: seq<int>, three: bool)
    requires IsGrid(g0) && IsGrid(g1) && |mid| == WIDTH && |high| == WORLD_W
  {
    forall x, z :: 0 <= x < WORLD_W && 0 <= z < WORLD_H ==> TerraceAt(g0, g1, mid, high, three, x, z)
  }

  /** A grid whose elevations are the terraces of mid and high and whose kinds are g0's with
      the cliff faces tagged is Terraces of g0. */
  lemma TerracedTown(town: Town, g0: Snapshot, mid: seq<int>, high: seq<int>, three: bool)
    requires town.Valid() && IsGrid(g0) && |mid| == WIDTH && |high| == WORLD_W
    requires forall x, z :: 0 <= x < WORLD_W && 0 <= z < WORLD_H ==>
               town.tiles[x, z].elevation
               == Cliffs.ElevationAt(Cliffs.BuildSteppedBoundary(mid, CLIFF_CONNECTION_POINT_OFFSET), high, three, x, z)
               && town.tiles[x, z].kind == (if Cliffs.IsCliffFace(town, x, z) then CLIFF else g0[x][z].kind)
    ensures Terraces(g0, Tiles(town), mid, high, three)
  {
    var g1 := Tiles(town);
    forall x, z | 0 <= x < WORLD_W && 0 <= z < WORLD_H
      ensures TerraceAt(g0, g1, mid, high, three, x, z)
    {
      assert FaceIn(g1, x, z) == Cliffs.IsCliffFace(town, x, z);
    }
  }

  /** The cliff step ran from stream position p0 to p1 and took g0 to g1: the tier count and
      the plateau boundaries are the draws from p0 on, every elevation is the tier those
      boundaries give, and exactly the cliff faces of the result are tagged CLIFF. */
  predicate CliffsRan(config: TownConfig, raw: nat -> nat, p0: nat, p1: nat, g0: Snapshot, g1: Snapshot)
  {
    IsGrid(g0) && IsGrid(g1) && CliffDrawsOk(config, raw, p0)
    && p1 == p0 + 1 + WIDTH + (if ThreeTiers(config, raw, p0) then WIDTH else 0)
    && Terraces(g0, g1, PlateauMid(config, raw, p0), PlateauHigh(config, raw, p0), ThreeTiers(config, raw, p0))
  }

  /** Tile (x, z) changed from g0 to g1 only as the river step changes tiles. */
  predicate RiverChangeAt(g0: Snapshot, g1: Snapshot, x: int, z: int)
    requires IsGrid(g0) && IsGrid(g1) && IsInBounds(x, z)
  {
    Rivers.RiverStepChange(g0[x][z], g1[x][z])
  }

  /** The river step ran: its draws fit its budget and every tile keeps its elevation and
      either its kind or becomes river, river mouth or grass. */
  predicate RiversRan(config: TownConfig, p0: nat, p1: nat, g0: Snapshot, g1: Snapshot)
  {
    IsGrid(g0) && IsGrid(g1) && DrawBudget(RiverStep, config, p1 - p0)
    && forall x, z :: 0 <= x < WORLD_W && 0 <= z < WORLD_H ==> RiverChangeAt(g0, g1, x, z)
  }

  /** Tile (x, z) of g1 is g0's, or water at g0's elevation. */
  predicate KeptOrFloodedAt(g0: Snapshot, g1: Snapshot, x: int, z: int)
    requires IsGrid(g0) && IsGrid(g1) && IsInBounds(x, z)
  {
    g1[x][z] == g0[x][z] || g1[x][z] == Tile(WATER, g0[x][z].elevation)
  }

  /** The pond step ran: the start is the first two draws, every tile is kept or flooded at its
      elevation, the start is flooded when the size allows one tile and it was dry, and the
      flooded cells and the stream position are those of the flood fill's queue run. */
  ghost predicate PondsRan(config: TownConfig, raw: nat -> nat, p0: nat, p1: nat, g0: Snapshot, g1: Snapshot)
  {
    var sx := Uniform(raw(p0), Ponds.POND_MARGIN, WORLD_W - 1 - Ponds.POND_MARGIN);
    var sz := Uniform(raw(p0 + 1), Ponds.POND_MARGIN, WORLD_H - 1 - Ponds.POND_MARGIN);
    IsGrid(g0) && IsGrid(g1) && p0 + 2 <= p1 <= p0 + 2 + 4 * Max(0, config.maxPondSize)
    && IsInBounds(sx, sz)
    && (forall x, z :: 0 <= x < WORLD_W && 0 <= z < WORLD_H ==> KeptOrFloodedAt(g0, g1, x, z))
    && (config.maxPondSize > 0 && g0[sx][sz].kind != WATER ==> g1[sx][sz] == Tile(WATER, g0[sx][sz].elevation))
    && var run := Ponds.PondRun(raw, p0 + 2, [Coord(sx, sz)], [], config.maxPondSize, Ponds.WaterCells(g0),
                                config.pondSpreadChance);
       p1 == run.1 && forall x, z :: 0 <= x < WORLD_W && 0 <= z < WORLD_H ==> FloodedAt(g0, g1, run.0, x, z)
  }

  /** Tile (x, z) of g1 is g0's with the cells of carved flooded. */
  predicate FloodedAt(g0: Snapshot, g1: Snapshot, carved: seq<Coord>, x: int, z: int)
    requires IsGrid(g0) && IsGrid(g1) && IsInBounds(x, z)
  {
    g1[x][z] == Ponds.Flooded(carved, x, z, g0[x][z])
  }

  /** Tile (x, z) of g1 is g0's beached by the sand line drawn at p0, with the inlet drawn
      there painted over it. */
  predicate ShoreAt(floats: FloatInputs, raw: nat -> nat, p0: nat, g0: Snapshot, g1: Snapshot, x: int, z: int)
    requires IsGrid(g0) && IsGrid(g1) && IsInBounds(x, z)
  {
    g1[x][z] == Painted(floats.shape, Ocean.DrawnInlet(floats.wave, raw, p0), x, z,
                        Ocean.BeachFilled(Ocean.DrawnSand(floats.wave, raw, p0), x, z, g0[x][z]))
  }

  /** The ocean step ran: seven draws, and every tile is the beach of the drawn sand line with
      the drawn inlet painted over it. */
  predicate OceanRan(floats: FloatInputs, raw: nat -> nat, p0: nat, p1: nat, g0: Snapshot, g1: Snapshot)
  {
    IsGrid(g0) && IsGrid(g1) && p1 == p0 + 7
    && forall x, z :: 0 <= x < WORLD_W && 0 <= z < WORLD_H ==> ShoreAt(floats, raw, p0, g0, g1, x, z)
  }

  /** Tile (x, z) went from g0 to g1 by a ramp edit towards tiers 1 to top. */
  predicate RampEditAt(g0: Snapshot, g1: Snapshot, x: int, z: int, top: int)
    requires IsGrid(g0) && IsGrid(g1) && IsInBounds(x, z)
  {
    Ramps.RampEdit(g0[x][z], g1[x][z], 1, top)
  }

  /** Tile (x, z) of g is at tier e or below. */
  predicate AtMost(g: Snapshot, x: int, z: int, e: int)
    requires IsGrid(g) && IsInBounds(x, z)
  {
    g[x][z].elevation <= e
  }

  /** No tile of g is above tier e. */
  predicate NoneAbove(g: Snapshot, e: int)
    requires IsGrid(g)
  {
    forall x, z :: 0 <= x < WORLD_W && 0 <= z < WORLD_H ==> AtMost(g, x, z, e)
  }

  /** A peak elevation m found in a grid with no tile above tier e is zero or at most e. */
  lemma PeakAtMost(g: Snapshot, m: int, e: int)
    requires IsGrid(g) && NoneAbove(g, e)
    requires m == 0 || exists x, z :: 0 <= x < WORLD_W && 0 <= z < WORLD_H && g[x][z].elevation == m
    ensures m == 0 || m <= e
  {
    if m != 0 {
      var x, z :| 0 <= x < WORLD_W && 0 <= z < WORLD_H && g[x][z].elevation == m;
      assert AtMost(g, x, z, e);
    }
  }

  /** The ramp step ran: at most four draws; every tile is a ramp edit towards tiers 1 to 2;
      a map with no raised tile is left as it was without a draw, and one with no tier-2 tile
      gets ramp edits towards tier 1 only. */
  predicate RampsRan(p0: nat, p1: nat, g0: Snapshot, g1: Snapshot)
  {
    IsGrid(g0) && IsGrid(g1) && p0 <= p1 <= p0 + 4
    && (forall x, z :: 0 <= x < WORLD_W && 0 <= z < WORLD_H ==> RampEditAt(g0, g1, x, z, 2))
    && (NoneAbove(g0, 0) ==> g1 == g0 && p1 == p0)
    && (NoneAbove(g0, 1) ==> forall x, z :: 0 <= x < WORLD_W && 0 <= z < WORLD_H ==> RampEditAt(g0, g1, x, z, 1))
  }

  /** Step step ran from stream position p0 to p1 (raw the stream) and took grid g0 to g1. */
  ghost predicate StepRan(step: Step, config: TownConfig, floats: FloatInputs, raw: nat -> nat, p0: nat, p1: nat,
                    g0: Snapshot, g1: Snapshot)
  {
    match step
    case CliffStep => CliffsRan(config, raw, p0, p1, g0, g1)
    case RiverStep => RiversRan(config, p0, p1, g0, g1)
    case PondStep => PondsRan(config, raw, p0, p1, g0, g1)
    case OceanStep => OceanRan(floats, raw, p0, p1, g0, g1)
    case RampStep => RampsRan(p0, p1, g0, g1)
  }

  // ── Running the steps ────────────────────────────────────────────────────────

  /** The cliff entry of a pipeline. */
  method RunCliffs(town: Town, rng: Rng, config: TownConfig)
    requires town.Valid() && Cliffs.CliffConfigOk(config)
    modifies town.tiles, rng
    ensures CliffsRan(config, rng.raw, old(rng.pos), rng.pos, old(Tiles(town)), Tiles(town))
    ensures Terraced(town)
  {
    ghost var g0: Snapshot := Tiles(town);
    ghost var p0 := rng.pos;
    var three, mid, high := Cliffs.Execute(town, rng, config);
    assert CliffDrawsOk(config, rng.raw, p0);
    assert mid == PlateauMid(config, rng.raw, p0);
    if !three {
      assert high == seq(WORLD_W, x => 0);
    }
    assert high == PlateauHigh(config, rng.raw, p0);
    TerracedTown(town, g0, mid, high, three);
  }

  /** The river entry of a pipeline. */
  method RunRivers(town: Town, rng: Rng, config: TownConfig, floats: FloatInputs)
    requires town.Valid()
    modifies town.tiles, rng
    ensures RiversRan(config, old(rng.pos), rng.pos, old(Tiles(town)), Tiles(town))
    ensures old(Terraced(town)) ==> Terraced(town)
  {
    var _, _, _, _, _, _, _ := Rivers.Execute(town, rng, config, floats.shape);
  }

  /** The pond entry of a pipeline. */
  method RunPonds(town: Town, rng: Rng, config: TownConfig)
    requires town.Valid()
    modifies town.tiles, rng
    ensures PondsRan(config, rng.raw, old(rng.pos), rng.pos, old(Tiles(town)), Tiles(town))
    ensures old(Terraced(town)) ==> Terraced(town)
  {
    var start, carved := Ponds.Execute(town, rng, config);
  }

  /** The ocean entry of a pipeline. */
  method RunOcean(town: Town, rng: Rng, floats: FloatInputs)
    requires town.Valid()
    modifies town.tiles, rng
    ensures OceanRan(floats, rng.raw, old(rng.pos), rng.pos, old(Tiles(town)), Tiles(town))
    ensures old(Terraced(town)) ==> Terraced(town)
  {
    ghost var sand, inlet := Ocean.Execute(town, rng, floats.wave, floats.shape);
    assert sand == Ocean.DrawnSand(floats.wave, rng.raw, old(rng.pos));
    assert inlet == Ocean.DrawnInlet(floats.wave, rng.raw, old(rng.pos));
    if old(Terraced(town)) {
      forall x, z | 0 <= x < WORLD_W && 0 <= z < WORLD_H
        ensures 0 <= town.tiles[x, z].elevation <= old(town.tiles[x, z]).elevation
      {
        var t := old(town.tiles[x, z]);
        Ocean.BandKeepsTerraces(sand, x, z, z, t, t);
        PaintedFacts(floats.shape, inlet, x, z, Ocean.BeachFilled(sand, x, z, t));
      }
      forall x, z1, z2 | 0 <= x < WORLD_W && 0 <= z1 <= z2 < WORLD_H
        ensures town.tiles[x, z2].elevation <= town.tiles[x, z1].elevation
      {
        var t1 := old(town.tiles[x, z1]);
        var t2 := old(town.tiles[x, z2]);
        Ocean.BandKeepsTerraces(sand, x, z1, z2, t1, t2);
        PaintedFacts(floats.shape, inlet, x, z1, Ocean.BeachFilled(sand, x, z1, t1));
        PaintedFacts(floats.shape, inlet, x, z2, Ocean.BeachFilled(sand, x, z2, t2));
      }
    }
  }

  /** The ramp entry of a pipeline. */
  method RunRamps(town: Town, rng: Rng)
    requires town.Valid()
    modifies town.tiles, rng
    ensures RampsRan(old(rng.pos), rng.pos, old(Tiles(town)), Tiles(town))
  {
    ghost var g0: Snapshot := Tiles(town);
    var m, _, _, _ := Ramps.Execute(town, rng);
    ghost var g1: Snapshot := Tiles(town);
    assert forall x, z :: 0 <= x < WORLD_W && 0 <= z < WORLD_H ==> RampEditAt(g0, g1, x, z, 2);
    assert m < 2 ==> forall x, z :: 0 <= x < WORLD_W && 0 <= z < WORLD_H ==> RampEditAt(g0, g1, x, z, 1);
    assert m < 1 ==> forall x, z :: 0 <= x < WORLD_W && 0 <= z < WORLD_H ==> g1[x][z] == g0[x][z];
    assert m == 0 || exists x, z :: 0 <= x < WORLD_W && 0 <= z < WORLD_H && g0[x][z].elevation == m;
    RampsRanFromPeak(old(rng.pos), rng.pos, g0, g1, m);
  }

  /** The ramp step's facts, stated with the peak m it found, make RampsRan. */
  lemma RampsRanFromPeak(p0: nat, p1: nat, g0: Snapshot, g1: Snapshot, m: int)
    requires IsGrid(g0) && IsGrid(g1) && p0 <= p1 <= p0 + 4
    requires forall x, z :: 0 <= x < WORLD_W && 0 <= z < WORLD_H ==> RampEditAt(g0, g1, x, z, 2)
    requires m < 2 ==> forall x, z :: 0 <= x < WORLD_W && 0 <= z < WORLD_H ==> RampEditAt(g0, g1, x, z, 1)
    requires m < 1 ==> p1 == p0 && forall x, z :: 0 <= x < WORLD_W && 0 <= z < WORLD_H ==> g1[x][z] == g0[x][z]
    requires m == 0 || exists x, z :: 0 <= x < WORLD_W && 0 <= z < WORLD_H && g0[x][z].elevation == m
    ensures RampsRan(p0, p1, g0, g1)
  {
    if NoneAbove(g0, 0) {
      PeakAtMost(g0, m, 0);
      assert m < 1;
      forall x | 0 <= x < WORLD_W
        ensures g1[x] == g0[x]
      {
        assert forall z :: 0 <= z < WORLD_H ==> g1[x][z] == g0[x][z];
      }
    }
    if NoneAbove(g0, 1) {
      PeakAtMost(g0, m, 1);
      assert m < 2;
    }
  }

  /** One pipeline entry: `step(m_town, rng, config)`. It does what that step does, from where
      the stream stands. */
  method RunStep(town: Town, rng: Rng, config: TownConfig, floats: FloatInputs, step: Step)
    requires town.Valid()
    requires step == CliffStep ==> Cliffs.CliffConfigOk(config)
    modifies town.tiles, rng
    ensures StepRan(step, config, floats, rng.raw, old(rng.pos), rng.pos, old(Tiles(town)), Tiles(town))
    ensures DrawBudget(step, config, rng.pos - old(rng.pos))
    ensures step != RampStep && (step == CliffStep || old(Terraced(town))) ==> Terraced(town)
  {
    match step
    case CliffStep => RunCliffs(town, rng, config);
    case RiverStep => RunRivers(town, rng, config, floats);
    case PondStep => RunPonds(town, rng, config);
    case OceanStep => RunOcean(town, rng, floats);
    case RampStep => RunRamps(town, rng);
  }

  /** The first n steps ran one after another: step k from stream position starts[k] to
      starts[k + 1], taking snaps[k] to snaps[k + 1]. */
  ghost predicate RanInOrder(steps: seq<Step>, config: TownConfig, floats: FloatInputs, raw: nat -> nat,
                       starts: seq<nat>, snaps: seq<Snapshot>, n: nat)
    requires n < |starts| && n < |snaps| && n <= |steps|
    decreases n
  {
    n == 0
    || (RanInOrder(steps, config, floats, raw, starts, snaps, n - 1)
        && StepRan(steps[n - 1], config, floats, raw, starts[n - 1], starts[n], snaps[n - 1], snaps[n])
        && DrawBudget(steps[n - 1], config, starts[n] as int - starts[n - 1]))
  }

  /** A longer record of the same run still ran its first n steps in order. */
  lemma {:induction false} RanInOrderPrefix(steps: seq<Step>, config: TownConfig, floats: FloatInputs, raw: nat -> nat,
                                            starts: seq<nat>, snaps: seq<Snapshot>, starts': seq<nat>, snaps': seq<Snapshot>, n: nat)
    requires n < |starts| <= |starts'| && n < |snaps| <= |snaps'| && n <= |steps|
    requires starts == starts'[..|starts|] && snaps == snaps'[..|snaps|]
    requires RanInOrder(steps, config, floats, raw, starts, snaps, n)
    ensures RanInOrder(steps, config, floats, raw, starts', snaps', n)
    decreases n
  {
    if n > 0 {
      RanInOrderPrefix(steps, config, floats, raw, starts, snaps, starts', snaps', n - 1);
      assert starts[n - 1] == starts'[n - 1] && starts[n] == starts'[n];
      assert snaps[n - 1] == snaps'[n - 1] && snaps[n] == snaps'[n];
    }
  }

  /** The pipeline has run its first i steps: the stream stands where step i - 1 stopped, the
      grid is the last one recorded, and every step ran from where the previous one stopped. */
  ghost predicate Progress(town: Town, rng: Rng, config: TownConfig, floats: FloatInputs, steps: seq<Step>,
                     starts: seq<nat>, snaps: seq<Snapshot>, i: nat)
    requires town.Valid()
    reads town.tiles, rng
  {
    i <= |steps| && |starts| == i + 1 && starts[i] == rng.pos && |snaps| == i + 1 && snaps[i] == Tiles(town)
    && RanInOrder(steps, config, floats, rng.raw, starts, snaps, i)
  }

  /** One turn of the pipeline's loop: run step i where step i - 1 stopped, and record where it
      stopped and the grid it left. */
  method RunNext(town: Town, rng: Rng, config: TownConfig, floats: FloatInputs, steps: seq<Step>, i: nat,
                 ghost starts: seq<nat>, ghost snaps: seq<Snapshot>)
    returns (ghost starts': seq<nat>, ghost snaps': seq<Snapshot>)
    requires town.Valid() && ConfigOk(steps, config) && i < |steps|
    requires Progress(town, rng, config, floats, steps, starts, snaps, i)
    modifies town.tiles, rng
    ensures Progress(town, rng, config, floats, steps, starts', snaps', i + 1)
    ensures starts'[..i + 1] == starts && snaps'[..i + 1] == snaps
    ensures steps[i] != RampStep && (steps[i] == CliffStep || old(Terraced(town))) ==> Terraced(town)
  {
    RunStep(town, rng, config, floats, steps[i]);
    starts' := starts + [rng.pos];
    snaps' := snaps + [Tiles(town)];
    RanInOrderPrefix(steps, config, floats, rng.raw, starts, snaps, starts', snaps', i);
    assert starts'[..i + 1] == starts && snaps'[..i + 1] == snaps;
  }

  /** GenerationPipeline: the town it works on and its steps in the order they were added. */
  class GenerationPipeline {
    const town: Town
    var steps: seq<Step>

    constructor(target: Town)
      ensures town == target && steps == []
    {
      town := target;
      steps := [];
    }

    /** AddStep appends and keeps the earlier steps. */
    method AddStep(step: Step)
      modifies this
      ensures steps == old(steps) + [step]
    {
      steps := steps + [step];
    }

    /** Execute: seed one stream, then run every step once, in order, each continuing the stream
        where the previous one stopped. starts[i] is the stream position at which step i began
        and snaps[i] the grid it found; step i took snaps[i] to snaps[i + 1]. */
    method Execute(seed: nat, engine: Engine, config: TownConfig, floats: FloatInputs)
      returns (ghost rng: Rng, ghost starts: seq<nat>, ghost snaps: seq<Snapshot>)
      requires town.Valid() && ConfigOk(steps, config)
      modifies town.tiles
      ensures fresh(rng) && forall i: nat :: rng.raw(i) == engine(seed, i)
      ensures |starts| == |steps| + 1 && starts[0] == 0 && starts[|steps|] == rng.pos
      ensures |snaps| == |steps| + 1 && snaps[0] == old(Tiles(town)) && snaps[|steps|] == Tiles(town)
      ensures RanInOrder(steps, config, floats, rng.raw, starts, snaps, |steps|)
      ensures |steps| == 0 ==> Tiles(town) == old(Tiles(town))
      ensures CliffStep in steps && RampStep !in steps ==> Terraced(town)
    {
      var todo := steps;
      var stream := new Rng(seed, engine);
      rng := stream;
      starts := [0];
      snaps := [Tiles(town)];
      var i := 0;
      while i < |todo|
        invariant Progress(town, stream, config, floats, todo, starts, snaps, i)
        invariant starts[0] == 0 && snaps[0] == old(Tiles(town))
        invariant forall j: nat :: stream.raw(j) == engine(seed, j)
        invariant CliffStep in todo[..i] && RampStep !in todo ==> Terraced(town)
      {
        starts, snaps := RunNext(town, stream, config, floats, todo, i, starts, snaps);
        assert todo[..i + 1] == todo[..i] + [todo[i]];
        i := i + 1;
      }
      assert todo[..|todo|] == todo;
    }
  }

  /** Town::Generate: reset every tile to grass at tier 0, then run the cliff, river and pond
      steps, in that order, through one pipeline; nothing else runs. */
  method Generate(town: Town, seed: nat, engine: Engine, config: TownConfig, floats: FloatInputs)
    returns (ghost rng: Rng, ghost starts: seq<nat>, ghost snaps: seq<Snapshot>)
    requires town.Valid() && Cliffs.CliffConfigOk(config)
    modifies town.tiles
    ensures fresh(rng) && forall i: nat :: rng.raw(i) == engine(seed, i)
    ensures |starts| == 4 && starts[0] == 0 && starts[3] == rng.pos
    ensures |snaps| == 4 && snaps[3] == Tiles(town)
    ensures IsGrid(snaps[0]) && forall x, z :: 0 <= x < WORLD_W && 0 <= z < WORLD_H ==> snaps[0][x][z] == Tile(GRASS, 0)
    ensures CliffsRan(config, rng.raw, 0, starts[1], snaps[0], snaps[1])
    ensures RiversRan(config, starts[1], starts[2], snaps[1], snaps[2])
    ensures PondsRan(config, rng.raw, starts[2], starts[3], snaps[2], snaps[3])
    ensures DrawBudget(CliffStep, config, starts[1] - starts[0])
    ensures DrawBudget(RiverStep, config, starts[2] - starts[1])
    ensures DrawBudget(PondStep, config, starts[3] - starts[2])
    ensures Terraced(town)
  {
    town.ResetTiles();
    var pipeline := new GenerationPipeline(town);
    pipeline.AddStep(CliffStep);
    pipeline.AddStep(RiverStep);
    pipeline.AddStep(PondStep);
    assert pipeline.steps == [CliffStep, RiverStep, PondStep];
    rng, starts, snaps := pipeline.Execute(seed, engine, config, floats);
    assert RanInOrder(pipeline.steps, config, floats, rng.raw, starts, snaps, 2);
    assert RanInOrder(pipeline.steps, config, floats, rng.raw, starts, snaps, 1);
    assert StepRan(CliffStep, config, floats, rng.raw, starts[0], starts[1], snaps[0], snaps[1]);
    assert StepRan(RiverStep, config, floats, rng.raw, starts[1], starts[2], snaps[1], snaps[2]);
    assert StepRan(PondStep, config, floats, rng.raw, starts[2], starts[3], snaps[2], snaps[3]);
  }
}
