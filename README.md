# Cozy-acres terrain generator, modelled in Dafny

This project models the terrain generator of a small town-building game. The town is a fixed grid
of 5 x 7 acres of 16 x 16 tiles, 80 x 112 tiles in all. Each tile has a kind (grass, cliff, river,
sand, ocean, ...) and an elevation tier. `Town::Generate` resets every tile to grass at tier 0.
It then runs a `GenerationPipeline` of steps, which share one seeded random stream and rewrite the
grid in place.

The model covers:

- **The coordinate layer** (`grid.dfy`, `town.dfy`): `WorldToTile` (clamping), `GetTileCoords`
  (C++ truncating division), `IsInBounds`, the safe accessors `GetElevation`, `GetTileTypeSafe`
  and `GetTileSafe` with their off-map sentinels, `IsAnyWater`, and the 4- and 8-neighbourhoods.
  The town keeps its tiles in one `array2<Tile>` indexed by world `(x, z)`. The source keeps acres
  of 16 x 16 arrays; `Town.TileAt` maps one to the other, and the round-trip lemmas justify it.
- **The two auto-tiling classifiers** (`autotile.dfy`, `dualgrid.dfy`): the 256-entry blob table
  with its 8-neighbour mask, and the 16-entry dual-grid table with its 2 x 2 corner index, its
  water/cliff/beach/terrain classifiers and the blob-to-dual-grid bridge. The dual-grid table
  follows the literal array order.
- **The generation steps**, each an imperative method over the shared `array2`:
  - cliff tiering (`cliff.dfy`);
  - river path checking and column choice (`river_path.dfy`);
  - river carving (`river.dfy`);
  - mouth detection and sand cleanup (`river_mouth.dfy`);
  - ramp placement (`ramp.dfy`);
  - the ocean/beach band (`ocean.dfy`);
  - the pond flood fill (`pond.dfy`);
  - the shared grass teardrop painter (`genutils.dfy`).
- **The pipeline** (`pipeline.dfy`): `AddStep`, `Execute`, and `Town::Generate`, which wires cliffs,
  rivers and ponds. The ocean and ramp steps exist in the source but `Generate` does not add them.
  They are modelled as standalone steps that a pipeline may hold.
- **`LightManager`'s point-light list** (`light.dfy`): a list bounded at four entries, plus the
  directional light. Both light types are type parameters.

How the model represents the rest:

- **Randomness.** The random stream is a class `Rng` holding an arbitrary raw stream
  `raw: nat -> nat` and a position. Every distribution call consumes one raw value.
  - A uniform draw in `[lo, hi]` is `lo + raw % (hi - lo + 1)`, so every value in the range is
    reachable.
  - A Bernoulli draw takes an exact fraction.
- **Floating-point inputs.** Values the source computes in floating point are given as functions:
  - the beach sine wave;
  - each teardrop row's width and sideways offset.
- **Step contracts.** A step's `ensures` gives its new grid tile by tile.
  - The cliff, ocean and pond steps, the mouth teardrops and each ramp placement give every new
    tile as a function of the old tile and of the draws. For the pond step the flooded tiles are
    `PondRun`, a ghost function that replays the queue from the start on the old grid's water and
    the draws. For ramps, `TierRan` gives each tier's ranked lists, its drawn picks and where each
    ramp stopped.
  - River carving and the sand cleanup are stated as rules rather than closed forms. A carved
    square ends as river, mouth or grass, and a tile outside every square and teardrop is kept,
    or turns from river to river mouth, or from sand to grass. Sand turns to grass only when it
    has a river neighbour or is trapped between grass and the map edge.
  - Lemmas then state what those functions and rules guarantee: what a step may change, into
    what, and which invariants it keeps.

## Model

| member | source | states |
|---|---|---|
| Grid.Clamp | src/world/Town.cpp:23-24 | std::clamp's result lies in [lo, hi] |
| Grid.WorldToTile | src/world/Town.cpp:18-29 | for every input the acre index lies in [0,WIDTH)x[0,HEIGHT) and the local index in [0,SIZE)^2 |
| Grid.WorldToTileAddressesClamped | src/world/Town.cpp:20-28 | acre*SIZE+local rebuilds the clamped position: (x,z) itself on the map, the nearest edge tile off it |
| Grid.InBoundsIffUnclamped | src/world/Town.cpp:23-24 | a position is on the map exactly when the clamp leaves it unchanged |
| Grid.GetTileCoordsRoundTrip | src/world/generation/utils/WorldGenUtils.h:30-35 | with truncating division acre*SIZE+local == w for every w; the local part is in [0,SIZE) for w >= 0 and in (-SIZE,0] for w < 0 |
| Grid.ConversionsAgreeOnMap | src/world/generation/utils/WorldGenUtils.cpp:11-33 | on the map the clamping WorldToTile (used by the .cpp accessors) and GetTileCoords (used by the header ones) address the same tile, and its acre is in range |
| Grid.Neighbors4Exact | src/world/generation/utils/WorldGenUtils.cpp:35-38 | GetNeighbors4 holds 4 positions, and a position is among them iff it is at Manhattan distance 1 |
| Grid.Ring8Exact | src/world/generation/utils/WorldGenUtils.cpp:40-48 | the 8 neighbours are pairwise distinct, all at Chebyshev distance 1, include every such position, and never the centre |
| Grid.GetNeighbors8 | src/world/generation/utils/WorldGenUtils.cpp:40-48 | the push_back loop yields exactly that ring, in dz-major then dx order |
| TownModel.GetTileSafe | src/world/generation/utils/WorldGenUtils.h:47-53 | null exactly off the map; otherwise the tile at (wx,wz), which GetTileCoords' acre/local split addresses |
| TownModel.Town.constructor | src/world/data/Tile.h:20-24 | a new town's tiles all hold the Tile defaults, EMPTY at elevation 0 |
| TownModel.Town.GetElevation | src/world/Town.cpp:32-44 | -1 for every off-map position |
| TownModel.Town.ElevationLookup | src/world/Town.cpp:40-43 | on the map, the elevation of the tile WorldToTile addresses |
| TownModel.Town.SentinelOnlyOffMap | src/world/Town.cpp:34-38 | with elevations in 0..2, GetElevation is -1 iff the position is off the map, and in 0..2 on it |
| TownModel.Town.GetTileTypeSafe | src/world/generation/utils/WorldGenUtils.h:38-44 | EMPTY off the map, so an off-map position is never water under IsAnyWater |
| TownModel.Town.KindLookup | src/world/generation/utils/WorldGenUtils.h:42-43 | on the map, the kind of the tile GetTileCoords addresses |
| TownModel.Town.ResetTiles | src/world/Town.cpp:50-63 | afterwards every tile is GRASS at elevation 0 |
| Random.Uniform | src/world/generation/steps/RiverGenerationStep.cpp:251-253 | a uniform integer draw lies in [lo, hi] |
| Random.UniformReachesEveryValue | src/world/generation/steps/RiverGenerationStep.cpp:251-253 | every value in [lo, hi] is the outcome of some raw draw |
| Random.BernoulliExtremes | src/world/generation/steps/CliffGenerationStep.cpp:175-176 | probability 0 never succeeds, 1 always does, and any intermediate probability can go either way |
| Random.Rng.constructor | src/world/generation/GenerationPipeline.cpp:11 | the seeded stream yields engine(seed, i) at draw i and starts at draw 0 |
| Random.Rng.UniformInt | src/world/generation/steps/RiverGenerationStep.cpp:258 | consumes exactly one draw and returns its uniform value in [lo, hi] |
| Random.Rng.Chance | src/world/generation/steps/CliffGenerationStep.cpp:175-176 | consumes exactly one draw and returns its Bernoulli outcome |
| Random.Rng.NextRaw | src/world/generation/steps/OceanGenerationStep.cpp:30-31 | consumes exactly one draw and returns it raw (the float draws) |
| Config.Default | src/world/data/TownConfig.h:7-28 | the default highPlateauChance (0.75) is a valid probability |
| GenUtils.PaintedFacts | src/world/generation/utils/WorldGenUtils.cpp:74-94 | a teardrop writes only GRASS and never an elevation, and only changes on-map cells with column in [0,tw) and row in [row*SIZE+sz, row*SIZE+sz+d); with d <= 0 it changes nothing; painting twice equals painting once |
| GenUtils.CreateGrassTeardrop | src/world/generation/utils/WorldGenUtils.cpp:74-94 | the nested loops leave every tile as that one-cell painting of its old value |
| AutoTile.BlobMapEntry | src/world/generation/utils/AutoTileUtils.h:10-21 | BLOB_MAP is defined on exactly the 256 masks, and every entry lies in 0..46 |
| AutoTile.BlobMapCoversAllTiles | src/world/generation/utils/AutoTileUtils.h:10-18 | every tile index 0..46 occurs in the table |
| AutoTile.PackSamples | src/world/generation/utils/AutoTileUtils.h:26-43 | bit k of the packed mask is set iff sample k holds |
| AutoTile.Calculate8BitMask | src/world/generation/utils/AutoTileUtils.h:24-44 | bit k is set iff the predicate holds at the k-th neighbour in the order NW,N,NE,W,E,SW,S,SE |
| AutoTile.MaskIgnoresCentre | src/world/generation/utils/AutoTileUtils.h:24-44 | predicates that agree on the eight neighbours give the same mask, so the centre is never sampled |
| AutoTile.GetBlobIndex | src/world/generation/utils/AutoTileUtils.h:46-49 | every blob index lies in 0..46 |
| AutoTile.BlobExtremes | src/world/generation/utils/AutoTileUtils.h:24-49 | an all-false predicate gives mask 0 and index 0 (isolated); an all-true one gives mask 255 and index 46 (interior) |
| AutoTile.LoneCardinalLooksIsolated | src/world/generation/utils/AutoTileUtils.h:11 | a tile connected only to its north (mask 2) or only to its west (mask 8) gets index 0, like an isolated tile |
| AutoTile.PondMask | src/world/generation/utils/AutoTileUtils.h:51-58 | bit k is set iff the k-th neighbour holds WATER, and an off-map neighbour never sets a bit |
| AutoTile.CalculatePondBlobIndex | src/world/generation/utils/AutoTileUtils.h:51-59 | always in 0..46, and 0 when no neighbour is water |
| DualGrid.DualGridMapEntry | src/world/generation/utils/DualGridAutotiling.h:33-60 | DUAL_GRID_MAP in literal order: every rotation is 0, 90, 180 or 270; the entry is EMPTY iff the index is 0 and FULL iff it is 15 |
| DualGrid.TableEnds | src/world/generation/utils/DualGridAutotiling.h:35-60 | index 0 is (EMPTY, 0) and index 15 is (FULL, 0) |
| DualGrid.PackCorners | src/world/generation/utils/DualGridAutotiling.h:75 | the index is below 16 with bit3 = TL, bit2 = TR, bit1 = BL, bit0 = BR; it is 0 iff no corner is set and 15 iff all are |
| DualGrid.CalculateDualGridIndex | src/world/generation/utils/DualGridAutotiling.h:64-76 | below 16, with bit3 sampled at (x,z), bit2 at (x+1,z), bit1 at (x,z+1), bit0 at (x+1,z+1) |
| DualGrid.GetDualGridTile | src/world/generation/utils/DualGridAutotiling.h:79-82 | for any byte: a right-angle rotation, EMPTY iff the low nibble is 0, FULL iff it is 15 |
| DualGrid.LookupMasksIndex | src/world/generation/utils/DualGridAutotiling.h:79-82 | GetDualGridTile(i) == GetDualGridTile(i & 15), so the table is never over-indexed; below 16 it is the table entry |
| DualGrid.CalculateWaterDualGrid | src/world/generation/utils/DualGridAutotiling.h:89-97 | EMPTY iff none of the four samples is water, FULL iff all are; a vertex whose four samples are all off the map gives (EMPTY, 0) |
| DualGrid.CalculateCliffDualGrid | src/world/generation/utils/DualGridAutotiling.h:100-109 | EMPTY iff no sample is at or above the elevation, FULL iff all are; on a 0..2 map a level of -1 or below is FULL everywhere, off-map samples included |
| DualGrid.CalculateBeachDualGrid | src/world/generation/utils/DualGridAutotiling.h:112-121 | EMPTY iff no sample is SAND, FULL iff all are; all samples off the map gives (EMPTY, 0) |
| DualGrid.CalculateTerrainDualGrid | src/world/generation/utils/DualGridAutotiling.h:124-132 | EMPTY iff no sample has the target kind, FULL iff all do; with target EMPTY, all samples off the map gives (FULL, 0) |
| DualGrid.BlobDualIndex | src/world/generation/utils/DualGridAutotiling.h:141-160 | each corner bit is set iff both adjacent cardinal bits of the blob mask are set (N=2, W=8, E=16, S=64) |
| DualGrid.BlobMaskToDualGrid | src/world/generation/utils/DualGridAutotiling.h:141-162 | the bridged tile has a right-angle rotation |
| DualGrid.BlobMaskToDualGridFacts | src/world/generation/utils/DualGridAutotiling.h:141-162 | only the cardinal bits matter; no cardinal bit gives (EMPTY, 0), all four give (FULL, 0) |
| DualGrid.CalculatePondBlobIndex | src/world/generation/utils/DualGridAutotiling.h:169-175 | the wrapper returns the tile's enum ordinal in 0..5, which is 0 iff none of the four samples is water |
| DualGrid.LiteralIndexThreeIsACorner | src/world/generation/utils/DualGridAutotiling.h:38-44 | index 3 (0011, two bottom corners) calls for SIDE, but the literal table gives it CORNER |
| DualGrid.LiteralTableMisorders | src/world/generation/utils/DualGridAutotiling.h:33-60 | the literal table gives the shape an index's corner pattern calls for exactly at the indices other than 3, 6, 7, 8, 10 and 12 |
| DualGrid.IntendedTableClassifies | src/world/generation/utils/DualGridAutotiling.h:33-60 | the corrected table gives every index the shape its corner pattern calls for, with a right-angle rotation |
| DualGrid.IntendedTableIsReordering | src/world/generation/utils/DualGridAutotiling.h:33-60 | the corrected table holds the literal table's sixteen entries, each once, at new positions |
| DualGrid.IntendedWaterDualGrid | src/world/generation/utils/DualGridAutotiling.h:89-97 | water classification under the corrected table returns the shape the four samples call for |
| Cliffs.BuildSteppedBoundary | src/world/generation/steps/CliffGenerationStep.cpp:30-49 | WIDTH*SIZE entries: column x takes its own acre's target up to the connection offset and the next acre's target (the last acre's at the east edge) past it |
| Cliffs.BoundaryWithinTargets | src/world/generation/steps/CliffGenerationStep.cpp:30-49 | every boundary entry lies within the range of the acre targets |
| Cliffs.Level | src/world/generation/steps/CliffGenerationStep.cpp:51-85 | a snapped tier is 0, 1 or 2, and 2 only with a high plateau |
| Cliffs.LevelAntitone | src/world/generation/steps/CliffGenerationStep.cpp:51-85 | the tier never rises as the deciding row moves south |
| Cliffs.ComputeSnappedElevation | src/world/generation/steps/CliffGenerationStep.cpp:51-85 | the naive value on the connection row and when the target acre row is past the map; otherwise 0, 1 or 2, with 2 only if has_high |
| Cliffs.DecidingRowMonotone | src/world/generation/steps/CliffGenerationStep.cpp:58-84 | the row whose acre decides a tile's tier never decreases as z grows |
| Cliffs.ElevationAtDecidingRow | src/world/generation/steps/CliffGenerationStep.cpp:87-118 | the applied elevation is the tier at the deciding row: always in {0,1,2}, and never 2 without three tiers |
| Cliffs.ColumnMonotone | src/world/generation/steps/CliffGenerationStep.cpp:87-118 | within a column the applied elevation never increases as z increases |
| Cliffs.ApplyElevations | src/world/generation/steps/CliffGenerationStep.cpp:87-118 | every tile gets that elevation and keeps its kind |
| Cliffs.HasLowerNeighbour | src/world/generation/steps/CliffGenerationStep.cpp:138-153 | true iff some in-bounds 4-neighbour is strictly lower than the tile |
| Cliffs.TagColumn | src/world/generation/steps/CliffGenerationStep.cpp:130-159 | one column's pass tags exactly that column's faces CLIFF, judged on the elevations before it, and changes nothing else |
| Cliffs.TagCliffFaces | src/world/generation/steps/CliffGenerationStep.cpp:120-161 | CLIFF on exactly the tiles with elevation > 0 and a strictly lower in-bounds 4-neighbour; other kinds and all elevations unchanged |
| Cliffs.DrawMidTargets | src/world/generation/steps/CliffGenerationStep.cpp:185-193 | WIDTH draws, one per acre; each target is a multiple of SIZE in [(minRow+1)*SIZE, (maxRow+1)*SIZE] |
| Cliffs.DrawHighTargets | src/world/generation/steps/CliffGenerationStep.cpp:201-211 | WIDTH draws; each target is the clamped draw, in [SIZE, mid target - SIZE] |
| Cliffs.SafetyClamp | src/world/generation/steps/CliffGenerationStep.cpp:215-222 | every entry ends in [0, mid_targets[x/SIZE] - SIZE] (when that is non-negative), and an entry already there is unchanged |
| Cliffs.DrawBoundaries | src/world/generation/steps/CliffGenerationStep.cpp:185-222 | WIDTH mid draws, then WIDTH high draws only with three tiers; the mid targets are MidTargets of those draws, multiples of SIZE in range; the high boundary is all zero with two tiers, else the clamped stepped boundary of HighTargets, within [0, mid target - SIZE] |
| Cliffs.DrawPlateaus | src/world/generation/steps/CliffGenerationStep.cpp:174-222 | one Bernoulli draw decides three tiers, which raises minPlateauRow by 2; then DrawBoundaries from the next draw, for 1 + WIDTH or 1 + 2*WIDTH draws in all |
| Cliffs.DefaultConfigOk | src/world/data/TownConfig.h:7-28 | the default configuration meets what the cliff step needs: a valid chance, non-empty plateau ranges even when raised by 2, and an ordered high-offset range |
| Cliffs.Execute | src/world/generation/steps/CliffGenerationStep.cpp:166-228 | the tier count is the first draw (true only with a positive chance); the mid targets and high boundary are the functions of the next draws that DrawPlateaus computes; every elevation is the tier those boundaries give, the tiers lie in {0,1} or {0,1,2} and never rise southward; exactly the resulting cliff faces are tagged CLIFF and other kinds are kept |
| RiverPaths.PathIsConnected | src/world/generation/steps/RiverGenerationStep.cpp:41-68 | the checked path starts at (entry_x, base_z), ends at (exit_x, base_z+15), and each cell is 4-adjacent to the next |
| RiverPaths.RunningMinimum | src/world/generation/steps/RiverGenerationStep.cpp:32-39 | on an accepted prefix no cell is higher than any cell before it (water never flows uphill) |
| RiverPaths.DescendingPathOnMap | src/world/generation/steps/RiverGenerationStep.cpp:34-35 | every cell of an accepted prefix is on the map |
| RiverPaths.OffMapEntryFails | src/world/generation/steps/RiverGenerationStep.cpp:28-30 | an off-map entry point makes the path invalid |
| RiverPaths.BadCellSpoilsPath | src/world/generation/steps/RiverGenerationStep.cpp:32-39 | an off-map cell, or one higher than its predecessor, makes the whole path invalid |
| RiverPaths.Update | src/world/generation/steps/RiverGenerationStep.cpp:32-39 | the update lambda accepts iff the cell is on the map and not above the running elevation, which then becomes the cell's |
| RiverPaths.DescendEntryLeg | src/world/generation/steps/RiverGenerationStep.cpp:41-50 | rows 0..3 of entry_x: on success the prefix descends and the running elevation is the bend cell's; on failure the path is invalid |
| RiverPaths.DescendBendLeg | src/world/generation/steps/RiverGenerationStep.cpp:52-61 | the bend row from entry_x to exit_x: the same, extended by |exit_x - entry_x| cells |
| RiverPaths.DescendExitLeg | src/world/generation/steps/RiverGenerationStep.cpp:63-70 | rows 4..15 of exit_x: succeeds iff the whole path descends |
| RiverPaths.CheckPathValid | src/world/generation/steps/RiverGenerationStep.cpp:18-71 | true iff every cell of the path is on the map and none is higher than the one before it |
| RiverPaths.TryRightRun | src/world/generation/steps/RiverGenerationStep.cpp:285-299 | valid iff the run fits on the map and each unit step right passes CheckPathValid |
| RiverPaths.TryLeftRun | src/world/generation/steps/RiverGenerationStep.cpp:301-315 | valid iff the run fits on the map and each unit step left passes CheckPathValid |
| RiverPaths.FindCandidates | src/world/generation/steps/RiverGenerationStep.cpp:283-323 | the candidates are exactly Candidates: the valid runs of `change` columns, right first, and failing both the valid unit moves, left first; at most two, each reached by valid unit steps, none only when no unit move is valid |
| RiverPaths.FindUnitMoves | src/world/generation/steps/RiverGenerationStep.cpp:317-323 | the fallback is exactly UnitMoves: the valid single-column moves, left then right; at most two, and one whenever some unit move is valid |
| RiverPaths.CandidatesAreGoodMoves | src/world/generation/steps/RiverGenerationStep.cpp:283-323 | every candidate is a good move exactly `change` or one column away, and there is a candidate exactly when some single-column move descends |
| RiverPaths.ExitStepMeaning | src/world/generation/steps/RiverGenerationStep.cpp:265-344 | one turn leaves the column exactly when a turn is wanted (straight path blocked, meander roll below riverMeanderChance, or two straight rows) and some unit move descends; a turn goes to one of the candidates for the drawn run length, that length or one column away, and restarts the straight count, which otherwise counts up; 1 to 4 draws |
| RiverPaths.ChooseExitColumn | src/world/generation/steps/RiverGenerationStep.cpp:265-346 | the column, straight count and stream position are ExitStep of the draws: the shuffle-first candidate for the drawn run length; so the column stays in range and changes only to a validly reached candidate, the drawn length or one column away; a move happens whenever the straight path fails, the meander roll asks for one or the counter reached 2, and some unit move exists; with none of those the column stays after one draw; 1 to 4 draws |
| RiverPaths.ChooseColumns | src/world/generation/steps/RiverGenerationStep.cpp:251-347 | the first column is one uniform draw in [0, WIDTH-1]; each later column, straight count and draw position follow from the row before by ExitStep on the stream (ColumnsDrawn), so every row obeys ColumnStep; the draws number HEIGHT to 1+4*(HEIGHT-1) |
| RiverPaths.DrawnColumnsChosen | src/world/generation/steps/RiverGenerationStep.cpp:265-347 | a drawn column sequence obeys the row rules: each next column is the same or a good move, the counter resets exactly on a move, and a blocked or overlong straight run turns when it can |
| RiverPaths.DrawnRowMeaning | src/world/generation/steps/RiverGenerationStep.cpp:265-346 | in a drawn column sequence a row moves exactly when it wants a turn and a unit move descends, and then by its drawn run length or one column, to one of its candidates; each row takes 1 to 4 draws |
| RiverPaths.DrawnColumnsInRange | src/world/generation/steps/RiverGenerationStep.cpp:251-346 | every drawn column target lies in [0, WIDTH-1] |
| RiverPaths.TargetsInRange | src/world/generation/steps/RiverGenerationStep.cpp:265-347 | every column target is in [0, WIDTH-1], and consecutive targets differ by at most 3 |
| RiverPaths.StraightRunsAreBroken | src/world/generation/steps/RiverGenerationStep.cpp:271-330 | once the counter reaches 2 and some unit move is valid, the next column differs and the counter restarts at 0 |
| RiverPaths.BuildCenterLine | src/world/generation/steps/RiverGenerationStep.cpp:351-361 | each row's centre is its acre's column above the bend row and the next acre's from it, at local x 3 |
| RiverPaths.CenterLineFollowsPaths | src/world/generation/steps/RiverGenerationStep.cpp:351-361 | the target row switches to the next acre exactly at local row 3, stays on the last acre in the ocean row, and is constant between bend rows |
| Rivers.CarveFacts | src/world/generation/steps/RiverGenerationStep.cpp:82-102 | carving keeps elevations and changes only the clipped square; inside it SAND/OCEAN become RIVER_MOUTH and the rest RIVER; carving a mouth again makes it RIVER |
| Rivers.CarveRiverSection | src/world/generation/steps/RiverGenerationStep.cpp:73-105 | the nested loops leave every tile as that per-cell carving of its old value |
| Rivers.BendRun | src/world/generation/steps/RiverGenerationStep.cpp:369-380 | a bend row carves |to - from| + 1 sections, one per column from prev_x to center_x |
| Rivers.CarvedAllKeepsElevation | src/world/generation/steps/RiverGenerationStep.cpp:364-384 | carving a sequence of sections never changes an elevation |
| Rivers.CarvedAllCoverage | src/world/generation/steps/RiverGenerationStep.cpp:364-384 | a cell inside some carved square ends as river or mouth; a cell outside all of them is unchanged |
| Rivers.CenterLineJumpsOnlyAtBends | src/world/generation/steps/RiverGenerationStep.cpp:351-361 | the centre line changes column only on an acre's bend row |
| Rivers.SpotsConnected | src/world/generation/steps/RiverGenerationStep.cpp:364-384 | the carved centres run from row 0 to the last row, each within one step of the previous, so the channel is unbroken |
| Rivers.CarveBendRow | src/world/generation/steps/RiverGenerationStep.cpp:369-380 | the bend loop carves exactly the run from prev_x to center_x on that row |
| Rivers.CarveRow | src/world/generation/steps/RiverGenerationStep.cpp:366-383 | one row of the carving loop carves that row's run (a bend) or its single centre |
| Rivers.CarveChannel | src/world/generation/steps/RiverGenerationStep.cpp:363-384 | the carving loop leaves every tile as all the row runs, carved in row order, would |
| Rivers.SeqMin | src/world/generation/steps/RiverGenerationStep.cpp:164-166 | minmax_element's minimum is an element no larger than any other |
| Rivers.SeqMax | src/world/generation/steps/RiverGenerationStep.cpp:164-166 | minmax_element's maximum is an element no smaller than any other |
| Rivers.GrowMouthTeardrops | src/world/generation/steps/RiverGenerationStep.cpp:161-185 | every tile becomes the right teardrop painted over the left one: centres min(xs)-2 and max(xs)+2, start row mouth_z%SIZE-4, width 5, depth 8, curve -1 and +1 in the bottom acre row; so tiles only turn GRASS, keep elevations, and river or grass stays river or grass |
| Rivers.MouthTileChain | src/world/generation/steps/RiverGenerationStep.cpp:107-242 | tagging, then the two teardrops, then a greening gives MouthTile of the old tile, or turns old SAND outside the teardrops into GRASS at its elevation |
| Rivers.CreateRiverMouths | src/world/generation/steps/RiverGenerationStep.cpp:107-242 | a mouth is found iff some RIVER tile touches OCEAN/SAND, and xs are exactly the mouth cells of the first such row; every tile is its MouthTile (tagged, then under the teardrops), or old SAND outside the teardrops greened with a river neighbour or trapped; with none found nothing changes; afterwards no river tile touches sand, and old SAND that was trapped, or had only grass, river, mouth or the map edge around it, has become GRASS |
| Rivers.Execute | src/world/generation/steps/RiverGenerationStep.cpp:244-386 | the columns drawn row by row as ExitStep says on the old terrain (ColumnsDrawn), with their positions on the stream and the draw count; an unbroken carved channel from row 0 to the last row whose squares end as river or mouth except where a teardrop grassed them; teardrop tiles become GRASS at their elevation; every other tile is kept, turns RIVER to RIVER_MOUTH, or turns SAND to GRASS with a reason; elevations never change; when a mouth exists no sand touches the river, and old SAND outside the channel that was trapped, or had only grass, river, mouth or the map edge around it, ends as GRASS |
| RiverMouths.TouchesOceanOrSand | src/world/generation/steps/RiverGenerationStep.cpp:128-146 | true iff some in-bounds 4-neighbour is OCEAN or SAND |
| RiverMouths.DetectRow | src/world/generation/steps/RiverGenerationStep.cpp:120-158 | one row of detection tags exactly that row's mouth cells and returns their x's in increasing order |
| RiverMouths.DetectMouths | src/world/generation/steps/RiverGenerationStep.cpp:117-159 | exactly the RIVER tiles touching OCEAN/SAND become RIVER_MOUTH; mouth_z is the first row holding one (-1 iff none), and the x list is that row's mouths in order |
| RiverMouths.ClearSandAround | src/world/generation/steps/RiverGenerationStep.cpp:196-212 | exactly the SAND 4-neighbours of the cell become GRASS, leaving it without adjacent sand |
| RiverMouths.GrassCountFull | src/world/generation/steps/RiverGenerationStep.cpp:217-232 | the count lies in 0..d, and reaches d iff every neighbour examined is grass or off the map |
| RiverMouths.GreenIfIsolated | src/world/generation/steps/RiverGenerationStep.cpp:214-238 | a SAND tile becomes GRASS iff all four neighbours are grass or the map edge; nothing else changes |
| RiverMouths.CleanupVisit | src/world/generation/steps/RiverGenerationStep.cpp:192-238 | a river cell greens exactly its SAND 4-neighbours; a SAND cell whose four neighbours are grass or edge becomes GRASS; nothing else changes; every changed tile has a river neighbour or is trapped, sand-free cells stay sand-free, and the river cell ends without adjacent sand |
| RiverMouths.VisitReasons | src/world/generation/steps/RiverGenerationStep.cpp:192-238 | a visit of that exact shape leaves every tile it changed with a river 4-neighbour or trapped between grass and edge |
| RiverMouths.GreeningKeepsReasons | src/world/generation/steps/RiverGenerationStep.cpp:190-239 | greening sand keeps river tiles river and grass tiles grass, so a reason to green and sand-freedom survive later visits |
| RiverMouths.CleanupRow | src/world/generation/steps/RiverGenerationStep.cpp:190-239 | a row of visits only greens sand, every changed tile has a river neighbour or is trapped, sand-free cells stay sand-free, no river tile of the row has adjacent sand, and sand of the row that was trapped when the row began is now GRASS |
| RiverMouths.CleanupSand | src/world/generation/steps/RiverGenerationStep.cpp:187-240 | the cleanup pass only turns SAND into GRASS, every tile it greens has a river 4-neighbour or only grass and edge around it, afterwards no river or mouth tile has a SAND 4-neighbour, and every SAND tile that was trapped, or had only grass, river, mouth or the map edge around it, is GRASS |
| Ramps.ClampedTileIsWorldToTile | src/world/generation/steps/RampGenerationStep.cpp:75-76 | the clamped lookup is the tile WorldToTile addresses, even off the map |
| Ramps.IsWaterNearby | src/world/generation/steps/RampGenerationStep.cpp:37-66 | true iff some on-map cell within Chebyshev radius r is RIVER, RIVER_MOUTH, OCEAN or POND |
| Ramps.ScoreFacts | src/world/generation/steps/RampGenerationStep.cpp:133-141 | the flank checks look at the tiles two columns away; the score is at most both edge distances and at least their minimum minus 5 |
| Ramps.ConsiderSite | src/world/generation/steps/RampGenerationStep.cpp:123-143 | a site is kept iff it can take a ramp and has no water within radius 4; its score is the min distance, less 5 unless both flanks are cliff walls |
| Ramps.ScanRow | src/world/generation/steps/RampGenerationStep.cpp:121-144 | one row's scan lists exactly its eligible sites, in column order, each scored |
| Ramps.FindRampCandidates | src/world/generation/steps/RampGenerationStep.cpp:109-148 | every candidate has z in [1,h-2] and x in [min_x,max_x), passes CanPlaceRampHere with no water within radius 4, and is scored; every such site is listed, once, in scan order |
| Ramps.InsertByScore | src/world/generation/steps/RampGenerationStep.cpp:271-274 | inserting keeps the multiset and adds the one element |
| Ramps.InsertKeepsSorted | src/world/generation/steps/RampGenerationStep.cpp:271-274 | inserting into a list sorted by descending score keeps it sorted |
| Ramps.SortByScore | src/world/generation/steps/RampGenerationStep.cpp:271-274 | a permutation of the candidates, sorted by descending score |
| Ramps.InsertKeepsDistinct | src/world/generation/steps/RampGenerationStep.cpp:271-274 | inserting a site not yet listed into a list of distinct sites keeps every site listed once |
| Ramps.SortKeepsDistinct | src/world/generation/steps/RampGenerationStep.cpp:271-274 | ranking a list that names each site once names each site once |
| Ramps.RankingKeepsCandidates | src/world/generation/steps/RampGenerationStep.cpp:268-283 | a sorted list is still a candidate list (every eligible site, each once), and each of its top three scores at least as high as any later one |
| Ramps.RampCarvedFacts | src/world/generation/steps/RampGenerationStep.cpp:214-257 | a ramp leaves water and everything outside x in [cx-3,cx+3] x z in [cz,cz+len) untouched, clears every CLIFF there, levels the non-water tiles of [cx-2,cx+2] to the from tier, writes RAMP only in [cx-1,cx+1] on carved rows, and writes only GRASS or RAMP |
| Ramps.ClearCliffsInRampCorridor | src/world/generation/steps/RampGenerationStep.cpp:184-212 | only CLIFF becomes GRASS, and only within x in [cx-3,cx+3], z in [cz,cz+len) |
| Ramps.NormalizeRampSides | src/world/generation/steps/RampGenerationStep.cpp:150-182 | walkable tiles within x in [cx-2,cx+2], z in [cz,cz+len) become GRASS at the from tier; non-walkable tiles are untouched |
| Ramps.LayRampRow | src/world/generation/steps/RampGenerationStep.cpp:242-255 | one row turns its walkable tiles within [cx-1,cx+1] to RAMP and nothing else |
| Ramps.LayRamp | src/world/generation/steps/RampGenerationStep.cpp:227-256 | RAMP is laid on consecutive rows from cz, stopping at the first row whose southern centre tile is not walkable (or after len rows) |
| Ramps.CarveRamp | src/world/generation/steps/RampGenerationStep.cpp:214-257 | the three passes leave every tile as the composed ramp carving of its old value, where rows is how many rows LayRamp laid: every earlier row was open on the levelled grid and, short of len, the next one was not |
| Ramps.PlaceBest | src/world/generation/steps/RampGenerationStep.cpp:276-286 | with no candidates nothing is drawn or changed; otherwise one draw picks among the top min(3,n), and that site is carved for the rows the stopping rule allows |
| Ramps.RankHalf | src/world/generation/steps/RampGenerationStep.cpp:268-274 | a half's candidates, every eligible site of the half once with its score, ranked by descending score (some ranking, as std::sort is not stable) |
| Ramps.PlaceRampsForTier | src/world/generation/steps/RampGenerationStep.cpp:259-290 | both halves are ranked on the grid before any carving, each list holding every eligible site of its half once; the west pick then the east pick, each one draw among its top min(3,n), are carved in that order and the grid is exactly the east carving over the west one; every change is a ramp edit at the from tier around a pick |
| Ramps.StopsAfterPrior | src/world/generation/steps/RampGenerationStep.cpp:276-286 | the east ramp's stopping rule judged on the grid after the west carving equals the rule judged on the original grid with the west placement applied |
| Ramps.PlaceBoth | src/world/generation/steps/RampGenerationStep.cpp:276-286 | the west half places first and the east half second, each by PlaceBest, and the grid is the east placement over the west one, so every change is a ramp edit at the from tier around one of the two picks |
| Ramps.PlacementsAreEdits | src/world/generation/steps/RampGenerationStep.cpp:276-290 | two placements at the from tier change tiles only by ramp edits, and only around their picks |
| Ramps.RunTier | src/world/generation/steps/RampGenerationStep.cpp:259-315 | a tier transition runs only when the maximum reaches it: otherwise nothing is ranked, drawn or placed; otherwise both halves' lists hold exactly their eligible sites, each once, best first; a half gets a pick exactly when its list is not empty, the west pick being the entry its draw selects among the top min(3,n) and the east pick the entry of the following draw; each ramp stops by the ramp loop's rule, the east one on the grid the west one left; one draw per non-empty half; and the grid is the two placements over the old one |
| Ramps.SameTilesSameSites | src/world/generation/steps/RampGenerationStep.cpp:109-148 | two grids with the same tiles agree on every site's eligibility and score, so on which candidate lists are right |
| Ramps.SameTilesSameStops | src/world/generation/steps/RampGenerationStep.cpp:227-256 | two grids with the same tiles agree on where every ramp stops |
| Ramps.SameTilesSameTier | src/world/generation/steps/RampGenerationStep.cpp:259-290 | two grids with the same tiles agree on what a tier did |
| Ramps.MaxElevation | src/world/generation/steps/RampGenerationStep.cpp:301-311 | the running maximum from 0 is the largest elevation, or 0 |
| Ramps.Execute | src/world/generation/steps/RampGenerationStep.cpp:293-318 | the maximum elevation decides the tiers: 1 to 0 only if some tile reaches 1 and 2 to 1 only if some reaches 2; the tier-1 outcome (ranked lists, drawn picks, stops) is that tier run on the old grid; the tier-2 outcome is that tier run on the grid the tier-1 ramps left, from the draw after the tier-1 draws; the grid is the four placements composed in order; a flat map is unchanged with no draw; at most 4 draws; every change is a ramp edit at tier 1 or 2 |
| Ocean.BuildSandBoundary | src/world/generation/steps/OceanGenerationStep.cpp:36-42 | every sand_boundary entry is the clamped wave row, in [7, 12] |
| Ocean.BeachBandFacts | src/world/generation/steps/OceanGenerationStep.cpp:44-68 | rows above the ocean acre row are untouched; from the sand row down a column is SAND for exactly three rows, then OCEAN to the bottom, all at elevation 0 |
| Ocean.FillBeach | src/world/generation/steps/OceanGenerationStep.cpp:44-68 | the triple loop leaves every tile as that band fill of its old value |
| Ocean.BandKeepsTerraces | src/world/generation/steps/OceanGenerationStep.cpp:53-66 | the fill only lowers elevations and keeps columns non-increasing southward |
| Ocean.StepStaysInBottomRow | src/world/generation/steps/OceanGenerationStep.cpp:80-97 | the fill plus the inlet teardrop change nothing above the ocean acre row, and write only GRASS, SAND or OCEAN |
| Ocean.Execute | src/world/generation/steps/OceanGenerationStep.cpp:17-99 | seven draws; the clamped boundary; one inlet with centre x in [15, total_w-15], start z sand_boundary[x]-2, width in 3..4 and depth in 4..6; then the band fill and the inlet |
| Ponds.GrownStaysNear | src/world/generation/steps/PondGenerationStep.cpp:53-63 | the i-th carved tile is within Manhattan distance i of the start |
| Ponds.SpreadingRollsOnMap | src/world/generation/steps/PondGenerationStep.cpp:53-64 | the spreading draws exactly one roll per on-map neighbour, queues only on-map neighbours, none when the chance is 0 or less and every one when it is 100 or more |
| Ponds.OnMap | src/world/generation/steps/PondGenerationStep.cpp:58 | a cell is kept exactly when it is among the neighbours and on the map |
| Ponds.SpreadingSnoc | src/world/generation/steps/PondGenerationStep.cpp:53-64 | one more neighbour adds its roll (when on the map) after the rolls of the earlier neighbours |
| Ponds.RollNeighbor | src/world/generation/steps/PondGenerationStep.cpp:60-63 | one draw; the neighbour is enqueued exactly when the roll in [0, 99] is below the chance, and the queue stays grounded in the pond |
| Ponds.Spread | src/world/generation/steps/PondGenerationStep.cpp:50-65 | the queue grows by exactly the neighbours Spreading selects, east, west, south, north in that order, and the stream advances by its draw count; the old queue is an unchanged prefix and every queued cell is on the map next to the pond |
| Ponds.JoinAndSpread | src/world/generation/steps/PondGenerationStep.cpp:47-65 | the newly carved cell keeps the pond connected and distinct, and the queue grounded, after its spreading |
| Ponds.AppendCarved | src/world/generation/steps/PondGenerationStep.cpp:47-63 | carving a new tile next to the pond keeps the carved list distinct and grown from the start |
| Ponds.PondRunGrows | src/world/generation/steps/PondGenerationStep.cpp:35-65 | the queue run only appends to the carved list, never past maxPondSize, and draws at most four rolls per cell it carves |
| Ponds.PondRunSkips | src/world/generation/steps/PondGenerationStep.cpp:37-45 | a dequeued cell that is water, from before the step or carved earlier, is skipped with no draw and not counted |
| Ponds.PondRunCarves | src/world/generation/steps/PondGenerationStep.cpp:47-65 | a dequeued dry cell is carved, and the neighbours its rolls select are queued behind the rest |
| Ponds.PondRunLimitPrefix | src/world/generation/steps/PondGenerationStep.cpp:35 | raising maxPondSize by one only lets the same fill go on: the smaller pond is a prefix of the larger |
| Ponds.NoSpreadFloodsOnlyStart | src/world/generation/steps/PondGenerationStep.cpp:58-63 | with pondSpreadChance at most 0 the pond is the start alone (nothing when it is water or the size is 0), after one roll per on-map neighbour |
| Ponds.FullSpreadTakesFirstDryNeighbour | src/world/generation/steps/PondGenerationStep.cpp:53-63 | with pondSpreadChance at least 100 and room for two cells, the second flooded cell is the start's first on-map neighbour, east, west, south, north, that is not water |
| Ponds.SkipToDry | src/world/generation/steps/PondGenerationStep.cpp:35-48 | water cells at the head of the queue are dequeued until the first dry one, which is flooded next |
| Ponds.Visit | src/world/generation/steps/PondGenerationStep.cpp:37-65 | one loop turn skips a water head, or floods it with its elevation kept, counts it and spreads; the fill run from the new queue and stream equals the run from the old ones |
| Ponds.Execute | src/world/generation/steps/PondGenerationStep.cpp:17-67 | the start lies in [5,w-6]x[5,h-6]; the flooded tiles and the final stream position are exactly PondRun, the queue-order fill from the start over the old grid's water; so at most maxPondSize distinct tiles, none already WATER, each the start or 4-adjacent to an earlier one, become WATER with elevation kept, a dry start is flooded first, and 2 + at most 4 draws per flooded tile are taken |
| Pipeline.RunStep | src/world/generation/GenerationPipeline.cpp:15 | running a step does what that step does, from where the stream stands: its StepRan (cliff terraces, river change rule, pond flooding, ocean beach and inlet, or ramp edits) on snapshots of the grid before and after, its draw budget, and the terraced layout kept by every step but ramps |
| Pipeline.RunCliffs | src/world/generation/steps/CliffGenerationStep.cpp:166-228 | the cliff step's grid is exactly the terraces of the boundaries drawn from where the stream stood, faces tagged, and the town ends terraced |
| Pipeline.RunRivers | src/world/generation/steps/RiverGenerationStep.cpp:244-386 | the river step stays within its draw budget and changes tiles only as the river step may, and keeps a terraced town terraced |
| Pipeline.RunPonds | src/world/generation/steps/PondGenerationStep.cpp:17-67 | the pond step starts at its first two draws, floods exactly the tiles of the queue-order fill (PondRun) on the grid it found and ends the stream where that fill does, floods a dry start when the size allows, and keeps a terraced town terraced |
| Pipeline.RunOcean | src/world/generation/steps/OceanGenerationStep.cpp:17-99 | seven draws, every tile the beach of the drawn sand line with the drawn inlet over it, and a terraced town stays terraced |
| Pipeline.RunRamps | src/world/generation/steps/RampGenerationStep.cpp:293-318 | the ramp step makes only ramp edits at tiers 1 to 2, with at most four draws; no raised tile means no change and no draw, and no tier-2 tile means edits at tier 1 only |
| Pipeline.PeakAtMost | src/world/generation/steps/RampGenerationStep.cpp:301-311 | a peak elevation found in a grid with no tile above tier e is 0 or at most e |
| Pipeline.TerracedTown | src/world/generation/steps/CliffGenerationStep.cpp:87-161 | a town whose elevations are the terraces of the boundaries and whose kinds are tagged exactly at the faces is Terraces of the old grid |
| Pipeline.RanInOrderPrefix | src/world/generation/GenerationPipeline.cpp:13-16 | appending to the records of a run keeps its first steps' records |
| Pipeline.RunNext | src/world/generation/GenerationPipeline.cpp:13-16 | one turn of the loop runs step i from where step i-1 stopped and records the new position and grid, so the first i+1 steps ran in order |
| Pipeline.GenerationPipeline.constructor | src/world/generation/GenerationPipeline.cpp:7 | a new pipeline targets the given town and holds no steps |
| Pipeline.GenerationPipeline.AddStep | src/world/generation/GenerationPipeline.h:19-23 | appends the step at the end and keeps the earlier ones |
| Pipeline.GenerationPipeline.Execute | src/world/generation/GenerationPipeline.cpp:9-17 | one stream seeded once; step i ran from stream position starts[i] to starts[i+1], taking snapshot snaps[i] to snaps[i+1], for every step in order (RanInOrder), the first snapshot being the starting grid and the last the final one; with no steps the grid is unchanged |
| Pipeline.Generate | src/world/Town.cpp:47-78 | after the reset to grass at tier 0, exactly the cliff, river and pond steps run, in that order, each from where the previous one stopped: the cliff terraces, the river change rule, the pond flooding, with their draw counts; the town ends terraced |
| Lights.Added | src/rendering/LightManager.cpp:22-28 | below 4 lights the new one is appended at the end; at 4 the list is unchanged; earlier entries are kept |
| Lights.Removed | src/rendering/LightManager.cpp:35-41 | an index past the end changes nothing; otherwise exactly that entry goes and the rest keep their order |
| Lights.AddThenRemoveLast | src/rendering/LightManager.cpp:22-41 | adding to a non-full list then removing the last entry restores the list |
| Lights.BoundKept | src/rendering/LightManager.h:38 | any sequence of adds leaves at most 4 lights: min(4, old + added) |
| Lights.LightManager.constructor | src/rendering/LightManager.cpp:7-15 | a new manager has the default sun and no point lights |
| Lights.LightManager.SetDirectionalLight | src/rendering/LightManager.cpp:17-20 | replaces the directional light; the point lights are unchanged |
| Lights.LightManager.AddPointLight | src/rendering/LightManager.cpp:22-28 | the list becomes Added(old, light), bounded at 4; the directional light is unchanged |
| Lights.LightManager.ClearPointLights | src/rendering/LightManager.cpp:30-33 | the list becomes empty; the directional light is unchanged |
| Lights.LightManager.RemovePointLight | src/rendering/LightManager.cpp:35-41 | the list becomes Removed(old, index); the directional light is unchanged |

## Left out

- Floating point: the beach sine wave, the teardrop taper and sine offset, and the real-valued draws are not computed. They are function inputs (`BeachWave`, `RowShape`) and raw draws. `highPlateauChance` is an exact fraction.
- `std::mt19937_64` and the distributions are not modelled. Every distribution call consumes one arbitrary raw draw, and a uniform draw is `lo + raw % span`.
- `std::shuffle` of the river candidates is one index draw when there are two candidates and none when there is one, and the candidate at the drawn index is the one the shuffle puts first. The library's internal draw count and swap order are implementation-defined.
- Ramps.RankHalf: `std::sort` is not stable, so ties may come out in any order. The model sorts by a stable insertion sort, and the contracts promise only "some ordering by descending score" that keeps every candidate.
- Ocean.Execute: the width and depth draws are two arguments of one call. C++ leaves their evaluation order unspecified, so the model takes them left to right.
- `cliffSmoothness` is read by no step and is left out of the configuration.
- The pond step reads `maxPondSize` and `pondSpreadChance`, which this revision of `TownConfig` lacks. They are configuration fields here. `Config.Default` leaves them at 0, because the source gives no default.
- The pond step is a queue-driven flood fill from one drawn start, and it writes WATER (never the POND kind). The model does the same.
- `Town::Generate` adds only the cliff, river and pond steps, in that order. The model's `Generate` does the same.
- Ramps.Execute: the tier-2 outcome is stated on `mid`, a ghost copy of the grid the tier-1 ramps left, and is not restated against the starting grid.
- Pipeline.RiversRan, which `Pipeline.Generate` states for the river step, keeps only the per-tile change rule and the draw count. The exact river route and mouth teardrops are stated in Rivers.Execute and are not carried through the pipeline. Pipeline.PondsRan carries the flooded tiles (PondRun) and the final stream position.
- Pipeline.RunRamps, through Pipeline.RampsRan, keeps only the ramp-edit rule, the tier gating and the draw bound. The ranked lists, the drawn picks and the stopping rule (Ramps.TierRan) are stated in Ramps.RunTier and Ramps.Execute on the town, and are not carried onto the pipeline's grid snapshots.
- Tile.h lacks SAND, OCEAN, RIVER, RIVER_MOUTH, WATERFALL, POND and RAMP. The model uses one enum covering every kind any step names.
- Rivers.CarveFacts: carving a cell twice turns a RIVER_MOUTH back into RIVER, because the second pass sees RIVER_MOUTH and not SAND/OCEAN. The model keeps this behaviour.
- Ramps.ScoreFacts: `HasCliffWall(wx - 1, wz, -1, ...)` looks two columns away, not at the adjacent column. The model keeps this.
- AutoTile.LoneCardinalLooksIsolated: `BLOB_MAP` is not a true blob-47 map; for example, north-only (mask 2) gives the isolated index. The model keeps the table as written.
- The source stores an acre-major grid; the model stores one world-indexed `array2`. The acre/local addressing is kept as proved coordinate math.
- Several source function bodies are split into helper methods: cliff tagging by column, river column choice, river carving by row, mouth detection and cleanup by row, and ramp scanning by row. Each helper runs the same loop body, in the same order, over the same `array2`.
- Randomness is threaded through one `Rng` object. The pipeline returns the stream positions at which each step started, as ghost values.
- Rendering, `LightManager::ApplyToShader`, `GenerateRenderData`, `DebugDump` and console output are not part of this model.
- Ocean.Execute and Ramps.Execute are not wired into `Generate`, because the source does not add them there. A pipeline built with them is covered by `Pipeline.GenerationPipeline.Execute`; with ramps present, the terraced-layout guarantee is not claimed.
- Cliffs.Execute requires the configured ranges to be non-empty and the high-plateau clamp to have `lo <= hi`. `std::uniform_int_distribution` and `std::clamp` demand this of their callers.

## Findings

| source | as written | input that shows it | evidently intended | confidence | as-written member | corrected member |
|---|---|---|---|---|---|---|
| src/world/generation/utils/DualGridAutotiling.h:33-60 | `DUAL_GRID_MAP` is laid out in comment order (single corners, then sides, diagonals, three-corner cases), but it is indexed by the 4-bit pattern TL\|TR\|BL\|BR. So index 3 (0011, both bottom corners) holds `{CORNER, 90}`. Six indices (3, 6, 7, 8, 10, 12) get the wrong shape. | a vertex whose two bottom samples are water and whose two top ones are not: `CalculateDualGridIndex` returns 3 | each pattern gets the shape its corners describe: 0011 a SIDE, 0110 and 1001 a DIAGONAL, 0111 an INV_CORNER, and so on | not executed | DualGrid.LiteralIndexThreeIsACorner, DualGrid.LiteralTableMisorders | DualGrid.IntendedTableClassifies, DualGrid.IntendedWaterDualGrid |

The source's classifiers (`GetDualGridTile` and the `Calculate*DualGrid` functions) keep the literal table, because that is what the program renders. The corrected table is a reordering of the same sixteen entries (`DualGrid.IntendedTableIsReordering`). `DualGrid.IntendedWaterDualGrid` classifies water with it.
