/** cliffs::Execute: raises the town into two or three elevation tiers. Each acre column draws
    a plateau edge row; the edges are widened into per-column stepped boundaries, every tile's
    tier is snapped to the tier of its acre's connection row, and tiles above a lower
    4-neighbour become CLIFF. */
module Cliffs {
  import opened Grid
  import opened Random
  import opened Config
  import opened TownModel

  // ── Boundaries ───────────────────────────────────────────────────────────────

  /** BuildSteppedBoundary: column x follows its own acre's target up to the connection column
      and the next acre's target (the last acre's own, at the east edge) after it. */
  function BuildSteppedBoundary(targets: seq<int>, conn: int): (boundary: seq<int>)
    requires |targets| == WIDTH
    ensures |boundary| == WORLD_W
    ensures forall x :: 0 <= x < WORLD_W && x % SIZE <= conn ==> boundary[x] == targets[x / SIZE]
    ensures forall x :: 0 <= x < WORLD_W && x % SIZE > conn ==> boundary[x] == targets[Min(x / SIZE + 1, WIDTH - 1)]
  {
    seq(WORLD_W, x requires 0 <= x < WORLD_W =>
      if x % SIZE <= conn then targets[x / SIZE] else targets[Min(x / SIZE + 1, WIDTH - 1)])
  }

  /** Every boundary entry is one of the targets, so it lies between their extremes. */
  lemma BoundaryWithinTargets(targets: seq<int>, conn: int, lo: int, hi: int)
    requires |targets| == WIDTH
    requires forall a :: 0 <= a < WIDTH ==> lo <= targets[a] <= hi
    ensures forall x :: 0 <= x < WORLD_W ==> lo <= BuildSteppedBoundary(targets, conn)[x] <= hi
  {
    var b := BuildSteppedBoundary(targets, conn);
    forall x | 0 <= x < WORLD_W
      ensures lo <= b[x] <= hi
    {
      if x % SIZE <= conn {
        assert b[x] == targets[x / SIZE];
      } else {
        assert b[x] == targets[Min(x / SIZE + 1, WIDTH - 1)];
      }
    }
  }

  // ── Tiers ────────────────────────────────────────────────────────────────────

  /** The tier row z falls in for one column: 2 above the high edge (when there is a high
      plateau), else 1 above the mid edge, else 0. */
  function Level(z: int, midEdge: int, highEdge: int, hasHigh: bool): (e: int)
    ensures 0 <= e <= 2
    ensures e == 2 ==> hasHigh
  {
    if hasHigh && z < highEdge then 2 else if z < midEdge then 1 else 0
  }

  /** A tier never rises as the row moves south. */
  lemma LevelAntitone(z1: int, z2: int, midEdge: int, highEdge: int, hasHigh: bool)
    requires z1 <= z2
    ensures Level(z2, midEdge, highEdge, hasHigh) <= Level(z1, midEdge, highEdge, hasHigh)
  {
  }

  /** ComputeSnappedElevation: on the connection row, or when the target acre row lies past the
      map, the naive tier stands; otherwise the tile takes the tier of its target acre's
      connection row (the own acre before the connection row, the next one after it). */
  function ComputeSnappedElevation(wx: int, wz: int, naive: int, midLine: seq<int>, highLine: seq<int>,
                                   hasHigh: bool, conn: int): (r: int)
    requires 0 <= wx < |midLine| && wx < |highLine|
    ensures TruncMod(wz, SIZE) == conn ==> r == naive
    ensures TruncMod(wz, SIZE) != conn &&
            (if TruncMod(wz, SIZE) < conn then TruncDiv(wz, SIZE) else TruncDiv(wz, SIZE) + 1) >= HEIGHT
            ==> r == naive
    ensures r == naive || (0 <= r <= 2 && (r == 2 ==> hasHigh))
  {
    var localZ := TruncMod(wz, SIZE);
    if localZ == conn then naive
    else
      var currAcreZ := TruncDiv(wz, SIZE);
      var targetAcreZ := if localZ < conn then currAcreZ else currAcreZ + 1;
      if targetAcreZ >= HEIGHT then naive
      else
        var checkZ := targetAcreZ * SIZE + conn;
        if checkZ >= HEIGHT * SIZE then naive
        else
          var result := if checkZ < midLine[wx] then 1 else 0;
          if hasHigh && checkZ < highLine[wx] then 2 else result
  }

  /** The row whose naive tier a tile at row wz (on the map) ends up with. */
  function DecidingRow(wz: int): int
  {
    var localZ := wz % SIZE;
    var target := if localZ <= CLIFF_CONNECTION_POINT_OFFSET then wz / SIZE else wz / SIZE + 1;
    if localZ != CLIFF_CONNECTION_POINT_OFFSET && target < HEIGHT
    then target * SIZE + CLIFF_CONNECTION_POINT_OFFSET
    else wz
  }

  /** The deciding row never moves north as the row moves south. */
  lemma DecidingRowMonotone(z1: int, z2: int)
    requires 0 <= z1 <= z2 < WORLD_H
    ensures DecidingRow(z1) <= DecidingRow(z2)
  {
    var a1, a2 := z1 / SIZE, z2 / SIZE;
    assert a1 <= a2;
    if a1 < a2 {
      assert DecidingRow(z1) <= (a1 + 1) * SIZE + CLIFF_CONNECTION_POINT_OFFSET || DecidingRow(z1) == z1;
      assert DecidingRow(z2) >= a2 * SIZE + CLIFF_CONNECTION_POINT_OFFSET || DecidingRow(z2) == z2;
    }
  }

  /** The tier ApplyElevations gives tile (wx, wz). */
  function ElevationAt(mid: seq<int>, high: seq<int>, threeTiers: bool, wx: int, wz: int): int
    requires 0 <= wx < |mid| && wx < |high|
  {
    var naive := Level(wz, mid[wx], high[wx], threeTiers);
    ComputeSnappedElevation(wx, wz, naive, mid, high, threeTiers, CLIFF_CONNECTION_POINT_OFFSET)
  }

  /** On the map a tile's tier is its column's tier at the deciding row: a tier in {0, 1, 2},
      2 only with three tiers. */
  lemma ElevationAtDecidingRow(mid: seq<int>, high: seq<int>, threeTiers: bool, wx: int, wz: int)
    requires 0 <= wx < |mid| && wx < |high|
    requires 0 <= wz < WORLD_H
    ensures ElevationAt(mid, high, threeTiers, wx, wz) == Level(DecidingRow(wz), mid[wx], high[wx], threeTiers)
    ensures 0 <= ElevationAt(mid, high, threeTiers, wx, wz) <= 2
    ensures !threeTiers ==> ElevationAt(mid, high, threeTiers, wx, wz) <= 1
  {
  }

  /** Within a column the tier never rises from north to south. */
  lemma ColumnMonotone(mid: seq<int>, high: seq<int>, threeTiers: bool, wx: int, z1: int, z2: int)
    requires 0 <= wx < |mid| && wx < |high|
    requires 0 <= z1 <= z2 < WORLD_H
    ensures ElevationAt(mid, high, threeTiers, wx, z2) <= ElevationAt(mid, high, threeTiers, wx, z1)
  {
    ElevationAtDecidingRow(mid, high, threeTiers, wx, z1);
    ElevationAtDecidingRow(mid, high, threeTiers, wx, z2);
    DecidingRowMonotone(z1, z2);
    LevelAntitone(DecidingRow(z1), DecidingRow(z2), mid[wx], high[wx], threeTiers);
  }

  /** ApplyElevations: every tile takes its snapped tier; kinds are untouched. */
  method ApplyElevations(town: Town, mid: seq<int>, high: seq<int>, threeTiers: bool)
    requires town.Valid()
    requires |mid| == WORLD_W && |high| == WORLD_W
    modifies town.tiles
    ensures forall x, z :: 0 <= x < WORLD_W && 0 <= z < WORLD_H ==>
              town.tiles[x, z] == Tile(old(town.tiles[x, z]).kind, ElevationAt(mid, high, threeTiers, x, z))
  {
    var wx := 0;
    while wx < WORLD_W
      invariant 0 <= wx <= WORLD_W
      invariant forall x, z :: 0 <= x < WORLD_W && 0 <= z < WORLD_H ==>
                  town.tiles[x, z] == (if x < wx then Tile(old(town.tiles[x, z]).kind, ElevationAt(mid, high, threeTiers, x, z))
                                       else old(town.tiles[x, z]))
    {
      var wz := 0;
      while wz < WORLD_H
        invariant 0 <= wz <= WORLD_H
        invariant forall x, z :: 0 <= x < WORLD_W && 0 <= z < WORLD_H ==>
                    town.tiles[x, z] == (if x < wx || (x == wx && z < wz)
                                         then Tile(old(town.tiles[x, z]).kind, ElevationAt(mid, high, threeTiers, x, z))
                                         else old(town.tiles[x, z]))
      {
        var naive := 0;
        if wz < mid[wx] {
          naive := 1;
        }
        if threeTiers && wz < high[wx] {
          naive := 2;
        }
        var snapped := ComputeSnappedElevation(wx, wz, naive, mid, high, threeTiers, CLIFF_CONNECTION_POINT_OFFSET);
        town.tiles[wx, wz] := Tile(town.tiles[wx, wz].kind, snapped);
        wz := wz + 1;
      }
      wx := wx + 1;
    }
  }

  // ── Cliff faces ──────────────────────────────────────────────────────────────

  /** Whether (nx, nz) is on the map and strictly lower than (x, z). */
  predicate LowerNeighbour(town: Town, x: int, z: int, nx: int, nz: int)
    requires town.Valid()
    requires IsInBounds(x, z)
    reads town.tiles
  {
    IsInBounds(nx, nz) && town.tiles[nx, nz].elevation < town.tiles[x, z].elevation
  }

  /** A raised tile with a strictly lower on-map 4-neighbour. */
  predicate IsCliffFace(town: Town, x: int, z: int)
    requires town.Valid()
    requires IsInBounds(x, z)
    reads town.tiles
  {
    town.tiles[x, z].elevation > 0 &&
    (LowerNeighbour(town, x, z, x + 1, z) || LowerNeighbour(town, x, z, x - 1, z)
     || LowerNeighbour(town, x, z, x, z + 1) || LowerNeighbour(town, x, z, x, z - 1))
  }

  const DX: seq<int> := [1, -1, 0, 0]
  const DZ: seq<int> := [0, 0, 1, -1]

  /** The inner scan of TagCliffFaces: whether some neighbour is strictly lower. */
  method HasLowerNeighbour(town: Town, wx: int, wz: int) returns (isCliff: bool)
    requires town.Valid()
    requires IsInBounds(wx, wz)
    ensures isCliff <==> (LowerNeighbour(town, wx, wz, wx + 1, wz) || LowerNeighbour(town, wx, wz, wx - 1, wz)
                          || LowerNeighbour(town, wx, wz, wx, wz + 1) || LowerNeighbour(town, wx, wz, wx, wz - 1))
  {
    isCliff := false;
    var d := 0;
    while d < 4 && !isCliff
      invariant 0 <= d <= 4
      invariant isCliff <==> exists k :: 0 <= k < d && LowerNeighbour(town, wx, wz, wx + DX[k], wz + DZ[k])
    {
      var nx, nz := wx + DX[d], wz + DZ[d];
      if IsInBounds(nx, nz) && town.tiles[nx, nz].elevation < town.tiles[wx, wz].elevation {
        isCliff := true;
      }
      d := d + 1;
    }
    assert LowerNeighbour(town, wx, wz, wx + 1, wz) <==> LowerNeighbour(town, wx, wz, wx + DX[0], wz + DZ[0]);
    assert LowerNeighbour(town, wx, wz, wx - 1, wz) <==> LowerNeighbour(town, wx, wz, wx + DX[1], wz + DZ[1]);
    assert LowerNeighbour(town, wx, wz, wx, wz + 1) <==> LowerNeighbour(town, wx, wz, wx + DX[2], wz + DZ[2]);
    assert LowerNeighbour(town, wx, wz, wx, wz - 1) <==> LowerNeighbour(town, wx, wz, wx + DX[3], wz + DZ[3]);
  }

  /** One column of TagCliffFaces: the faces of column wx, as they stand on entry, become
      CLIFF; nothing else changes. */
  method TagColumn(town: Town, wx: int)
    requires town.Valid()
    requires 0 <= wx < WORLD_W
    modifies town.tiles
    ensures forall x, z :: 0 <= x < WORLD_W && 0 <= z < WORLD_H ==>
              town.tiles[x, z].elevation == old(town.tiles[x, z]).elevation
    ensures forall x, z :: 0 <= x < WORLD_W && 0 <= z < WORLD_H ==>
              town.tiles[x, z].kind == (if x == wx && old(IsCliffFace(town, x, z)) then CLIFF else old(town.tiles[x, z]).kind)
  {
    var wz := 0;
    while wz < WORLD_H
      invariant 0 <= wz <= WORLD_H
      invariant forall x, z :: 0 <= x < WORLD_W && 0 <= z < WORLD_H ==>
                  town.tiles[x, z].elevation == old(town.tiles[x, z]).elevation
      invariant forall x, z :: 0 <= x < WORLD_W && 0 <= z < WORLD_H ==>
                  town.tiles[x, z].kind == (if x == wx && z < wz && old(IsCliffFace(town, x, z))
                                            then CLIFF else old(town.tiles[x, z]).kind)
    {
      if town.tiles[wx, wz].elevation > 0 {
        var isCliff := HasLowerNeighbour(town, wx, wz);
        if isCliff {
          town.tiles[wx, wz] := Tile(CLIFF, town.tiles[wx, wz].elevation);
        }
      }
      wz := wz + 1;
    }
  }

  /** TagCliffFaces: exactly the cliff faces become CLIFF; no other kind and no elevation
      changes. */
  method TagCliffFaces(town: Town)
    requires town.Valid()
    modifies town.tiles
    ensures forall x, z :: 0 <= x < WORLD_W && 0 <= z < WORLD_H ==>
              town.tiles[x, z].elevation == old(town.tiles[x, z]).elevation
    ensures forall x, z :: 0 <= x < WORLD_W && 0 <= z < WORLD_H ==>
              town.tiles[x, z].kind == (if IsCliffFace(town, x, z) then CLIFF else old(town.tiles[x, z]).kind)
  {
    var wx := 0;
    while wx < WORLD_W
      invariant 0 <= wx <= WORLD_W
      invariant forall x, z :: 0 <= x < WORLD_W && 0 <= z < WORLD_H ==>
                  town.tiles[x, z].elevation == old(town.tiles[x, z]).elevation
      invariant forall x, z :: 0 <= x < WORLD_W && 0 <= z < WORLD_H ==>
                  town.tiles[x, z].kind == (if x < wx && old(IsCliffFace(town, x, z)) then CLIFF else old(town.tiles[x, z]).kind)
    {
      SameElevationsSameFaces(town);
      TagColumn(town, wx);
      wx := wx + 1;
    }
    SameElevationsSameFaces(town);
  }

  /** Tagging changes kinds only, so it leaves the set of cliff faces as it found it. */
  twostate lemma SameElevationsSameFaces(town: Town)
    requires town.Valid()
    requires forall x, z :: 0 <= x < WORLD_W && 0 <= z < WORLD_H ==>
               town.tiles[x, z].elevation == old(town.tiles[x, z]).elevation
    ensures forall x, z :: 0 <= x < WORLD_W && 0 <= z < WORLD_H ==>
              IsCliffFace(town, x, z) == old(IsCliffFace(town, x, z))
  {
  }

  // ── Drawing the plateaus ─────────────────────────────────────────────────────

  /** What the step demands of its configuration: a valid chance; a non-empty mid range for the
      two-tier case when that can happen; and, when three tiers can happen, a non-empty raised
      mid range and high-offset range whose mid targets leave room for a high plateau (the
      bounds std::uniform_int_distribution and std::clamp require). */
  predicate CliffConfigOk(c: TownConfig)
  {
    var p := c.highPlateauChance;
    ValidProbability(p)
    && (p.num < p.den ==> c.minPlateauRow <= c.maxPlateauRow)
    && (0 < p.num ==> c.minPlateauRow + 2 <= c.maxPlateauRow && -1 <= c.minPlateauRow
                      && c.minHighPlateauRowOffset <= c.maxHighPlateauRowOffset)
  }

  /** The compiled-in configuration, the one the program generates with, meets the step's
      demands: rows 1..4 leave room for a high plateau at rows 3..4 with offsets 1..2. */
  lemma DefaultConfigOk()
    ensures CliffConfigOk(Default())
    ensures Default().minPlateauRow + 2 <= Default().maxPlateauRow
  {
  }

  /** The mid targets drawn from stream position pos on: acre column ax takes draw pos + ax,
      a row in [minRow, maxRow], and ends at the top of the acre row below it. */
  function MidTargets(raw: nat -> nat, pos: nat, minRow: int, maxRow: int): (t: seq<int>)
    requires minRow <= maxRow
    ensures |t| == WIDTH
  {
    seq(WIDTH, ax requires 0 <= ax < WIDTH => (Uniform(raw(pos + ax), minRow, maxRow) + 1) * SIZE)
  }

  /** The high targets drawn from stream position pos on: acre column ax takes draw pos + ax as
      an offset row, clamped to leave at least one acre row above the mid target and below the
      high edge. */
  function HighTargets(raw: nat -> nat, pos: nat, mid: seq<int>, minOff: int, maxOff: int): (t: seq<int>)
    requires minOff <= maxOff && |mid| == WIDTH && forall ax :: 0 <= ax < WIDTH ==> 2 * SIZE <= mid[ax]
    ensures |t| == WIDTH
  {
    seq(WIDTH, ax requires 0 <= ax < WIDTH =>
      Clamp((Uniform(raw(pos + ax), minOff, maxOff) + 1) * SIZE, SIZE, mid[ax] - SIZE))
  }

  /** The safety clamp applied to every column of a high boundary. */
  function SafetyClamped(high: seq<int>, mid: seq<int>): (c: seq<int>)
    requires |high| == WORLD_W && |mid| == WIDTH
    ensures |c| == WORLD_W
  {
    seq(WORLD_W, x requires 0 <= x < WORLD_W => Max(Min(high[x], mid[x / SIZE] - SIZE), 0))
  }

  /** The mid targets: one draw per acre column, ((row + 1) * SIZE). */
  method DrawMidTargets(rng: Rng, minRow: int, maxRow: int) returns (targets: seq<int>)
    requires minRow <= maxRow
    modifies rng
    ensures rng.pos == old(rng.pos) + WIDTH
    ensures |targets| == WIDTH
    ensures forall ax :: 0 <= ax < WIDTH ==>
              targets[ax] == (Uniform(rng.raw(old(rng.pos) + ax), minRow, maxRow) + 1) * SIZE
    ensures forall ax :: 0 <= ax < WIDTH ==>
              targets[ax] % SIZE == 0 && (minRow + 1) * SIZE <= targets[ax] <= (maxRow + 1) * SIZE
    ensures targets == MidTargets(rng.raw, old(rng.pos), minRow, maxRow)
  {
    targets := [];
    var ax := 0;
    while ax < WIDTH
      invariant 0 <= ax <= WIDTH
      invariant rng.pos == old(rng.pos) + ax
      invariant |targets| == ax
      invariant forall a :: 0 <= a < ax ==>
                  targets[a] == (Uniform(rng.raw(old(rng.pos) + a), minRow, maxRow) + 1) * SIZE
    {
      var row := rng.UniformInt(minRow, maxRow);
      targets := targets + [(row + 1) * SIZE];
      ax := ax + 1;
    }
  }

  /** The high targets: one draw per acre column, clamped into [SIZE, mid - SIZE]. */
  method DrawHighTargets(rng: Rng, mid: seq<int>, minOff: int, maxOff: int) returns (targets: seq<int>)
    requires minOff <= maxOff
    requires |mid| == WIDTH && forall ax :: 0 <= ax < WIDTH ==> 2 * SIZE <= mid[ax]
    modifies rng
    ensures rng.pos == old(rng.pos) + WIDTH
    ensures |targets| == WIDTH
    ensures forall ax :: 0 <= ax < WIDTH ==>
              targets[ax] == Clamp((Uniform(rng.raw(old(rng.pos) + ax), minOff, maxOff) + 1) * SIZE, SIZE, mid[ax] - SIZE)
    ensures forall ax :: 0 <= ax < WIDTH ==> SIZE <= targets[ax] <= mid[ax] - SIZE
    ensures targets == HighTargets(rng.raw, old(rng.pos), mid, minOff, maxOff)
  {
    targets := [];
    var ax := 0;
    while ax < WIDTH
      invariant 0 <= ax <= WIDTH
      invariant rng.pos == old(rng.pos) + ax
      invariant |targets| == ax
      invariant forall a :: 0 <= a < ax ==>
                  targets[a] == Clamp((Uniform(rng.raw(old(rng.pos) + a), minOff, maxOff) + 1) * SIZE, SIZE, mid[a] - SIZE)
    {
      var offset := rng.UniformInt(minOff, maxOff);
      var candidate := (offset + 1) * SIZE;
      var maxAllowed := mid[ax] - SIZE;
      targets := targets + [Clamp(candidate, SIZE, maxAllowed)];
      ax := ax + 1;
    }
  }

  /** The safety clamp: each high boundary entry is pulled into [0, mid target of its acre -
      SIZE]; an entry already there is kept. */
  method SafetyClamp(high: seq<int>, mid: seq<int>) returns (clamped: seq<int>)
    requires |high| == WORLD_W && |mid| == WIDTH
    ensures |clamped| == WORLD_W
    ensures forall x :: 0 <= x < WORLD_W ==> 0 <= clamped[x]
    ensures forall x :: 0 <= x < WORLD_W && 0 <= mid[x / SIZE] - SIZE ==> clamped[x] <= mid[x / SIZE] - SIZE
    ensures forall x :: 0 <= x < WORLD_W && 0 <= high[x] <= mid[x / SIZE] - SIZE ==> clamped[x] == high[x]
    ensures clamped == SafetyClamped(high, mid)
  {
    clamped := high;
    var x := 0;
    while x < WORLD_W
      invariant 0 <= x <= WORLD_W
      invariant |clamped| == WORLD_W
      invariant forall i :: x <= i < WORLD_W ==> clamped[i] == high[i]
      invariant forall i :: 0 <= i < x ==> clamped[i] == Max(Min(high[i], mid[i / SIZE] - SIZE), 0)
    {
      var acreX := x / SIZE;
      var safeMax := mid[acreX] - SIZE;
      clamped := clamped[x := Min(clamped[x], safeMax)];
      clamped := clamped[x := Max(clamped[x], 0)];
      x := x + 1;
    }
  }

  /** The target draws of the drawing half: WIDTH mid draws from the current position, then,
      only with three tiers, WIDTH high draws right after them. */
  method DrawBoundaries(rng: Rng, threeTiers: bool, minRow: int, maxRow: int, minOff: int, maxOff: int)
    returns (midTargets: seq<int>, highBoundary: seq<int>)
    requires minRow <= maxRow
    requires threeTiers ==> 1 <= minRow && minOff <= maxOff
    modifies rng
    ensures rng.pos == old(rng.pos) + WIDTH + (if threeTiers then WIDTH else 0)
    ensures |midTargets| == WIDTH && |highBoundary| == WORLD_W
    ensures forall ax :: 0 <= ax < WIDTH ==>
              midTargets[ax] % SIZE == 0 && (minRow + 1) * SIZE <= midTargets[ax] <= (maxRow + 1) * SIZE
    ensures midTargets == MidTargets(rng.raw, old(rng.pos), minRow, maxRow)
    ensures !threeTiers ==> forall x :: 0 <= x < WORLD_W ==> highBoundary[x] == 0
    ensures threeTiers ==>
              highBoundary == SafetyClamped(BuildSteppedBoundary(HighTargets(rng.raw, old(rng.pos) + WIDTH, midTargets, minOff, maxOff),
                                                                 CLIFF_CONNECTION_POINT_OFFSET),
                                            midTargets)
    ensures threeTiers ==> forall x :: 0 <= x < WORLD_W ==> 0 <= highBoundary[x] <= midTargets[x / SIZE] - SIZE
  {
    midTargets := DrawMidTargets(rng, minRow, maxRow);
    highBoundary := seq(WORLD_W, _ => 0);
    if threeTiers {
      var highTargets := DrawHighTargets(rng, midTargets, minOff, maxOff);
      highBoundary := BuildSteppedBoundary(highTargets, CLIFF_CONNECTION_POINT_OFFSET);
      highBoundary := SafetyClamp(highBoundary, midTargets);
    }
  }

  /** The drawing half of cliffs::Execute: one Bernoulli for the third tier, then WIDTH mid
      draws, then, only with three tiers, WIDTH high draws; the boundaries follow from them. */
  method DrawPlateaus(rng: Rng, config: TownConfig)
    returns (threeTiers: bool, midTargets: seq<int>, highBoundary: seq<int>)
    requires CliffConfigOk(config)
    modifies rng
    ensures threeTiers == Bernoulli(rng.raw(old(rng.pos)), config.highPlateauChance)
    ensures threeTiers ==> 0 < config.highPlateauChance.num
    ensures !threeTiers ==> config.highPlateauChance.num < config.highPlateauChance.den
    ensures rng.pos == old(rng.pos) + 1 + WIDTH + (if threeTiers then WIDTH else 0)
    ensures |midTargets| == WIDTH && |highBoundary| == WORLD_W
    ensures forall ax :: 0 <= ax < WIDTH ==>
              midTargets[ax] % SIZE == 0
              && (config.minPlateauRow + (if threeTiers then 2 else 0) + 1) * SIZE <= midTargets[ax]
              && midTargets[ax] <= (config.maxPlateauRow + 1) * SIZE
    ensures midTargets == MidTargets(rng.raw, old(rng.pos) + 1,
                                     config.minPlateauRow + (if threeTiers then 2 else 0), config.maxPlateauRow)
    ensures !threeTiers ==> forall x :: 0 <= x < WORLD_W ==> highBoundary[x] == 0
    ensures threeTiers ==>
              highBoundary == SafetyClamped(BuildSteppedBoundary(HighTargets(rng.raw, old(rng.pos) + 1 + WIDTH, midTargets,
                                                                             config.minHighPlateauRowOffset,
                                                                             config.maxHighPlateauRowOffset),
                                                                 CLIFF_CONNECTION_POINT_OFFSET),
                                            midTargets)
    ensures threeTiers ==> forall x :: 0 <= x < WORLD_W ==> 0 <= highBoundary[x] <= midTargets[x / SIZE] - SIZE
  {
    threeTiers := rng.Chance(config.highPlateauChance);
    BernoulliExtremes(rng.raw(old(rng.pos)), config.highPlateauChance);
    var minRow := config.minPlateauRow;
    if threeTiers {
      minRow := minRow + 2;
    }
    midTargets, highBoundary := DrawBoundaries(rng, threeTiers, minRow, config.maxPlateauRow,
                                               config.minHighPlateauRowOffset, config.maxHighPlateauRowOffset);
  }

  /** cliffs::Execute. The draws are one Bernoulli for the third tier, WIDTH mid draws, and
      WIDTH high draws only with three tiers. Afterwards every tier is 0, 1 or 2 (never 2 without
      three tiers), tiers never rise southward within a column, every tile is its snapped tier
      for the drawn boundaries, and exactly the cliff faces have become CLIFF. */
  method Execute(town: Town, rng: Rng, config: TownConfig)
    returns (ghost threeTiers: bool, ghost midTargets: seq<int>, ghost highBoundary: seq<int>)
    requires town.Valid()
    requires CliffConfigOk(config)
    modifies town.tiles, rng
    ensures threeTiers == Bernoulli(rng.raw(old(rng.pos)), config.highPlateauChance)
    ensures threeTiers ==> 0 < config.highPlateauChance.num
    ensures !threeTiers ==> config.highPlateauChance.num < config.highPlateauChance.den
    ensures rng.pos == old(rng.pos) + 1 + WIDTH + (if threeTiers then WIDTH else 0)
    ensures |midTargets| == WIDTH && |highBoundary| == WORLD_W
    ensures forall ax :: 0 <= ax < WIDTH ==>
              midTargets[ax] % SIZE == 0
              && (config.minPlateauRow + (if threeTiers then 2 else 0) + 1) * SIZE <= midTargets[ax]
              && midTargets[ax] <= (config.maxPlateauRow + 1) * SIZE
    ensures midTargets == MidTargets(rng.raw, old(rng.pos) + 1,
                                     config.minPlateauRow + (if threeTiers then 2 else 0), config.maxPlateauRow)
    ensures !threeTiers ==> forall x :: 0 <= x < WORLD_W ==> highBoundary[x] == 0
    ensures threeTiers ==>
              highBoundary == SafetyClamped(BuildSteppedBoundary(HighTargets(rng.raw, old(rng.pos) + 1 + WIDTH, midTargets,
                                                                             config.minHighPlateauRowOffset,
                                                                             config.maxHighPlateauRowOffset),
                                                                 CLIFF_CONNECTION_POINT_OFFSET),
                                            midTargets)
    ensures threeTiers ==> forall x :: 0 <= x < WORLD_W ==> 0 <= highBoundary[x] <= midTargets[x / SIZE] - SIZE
    ensures forall x, z :: 0 <= x < WORLD_W && 0 <= z < WORLD_H ==>
              town.tiles[x, z].elevation
              == ElevationAt(BuildSteppedBoundary(midTargets, CLIFF_CONNECTION_POINT_OFFSET), highBoundary, threeTiers, x, z)
    ensures town.ElevationsIn(0, if threeTiers then 2 else 1)
    ensures forall x, z1, z2 :: 0 <= x < WORLD_W && 0 <= z1 <= z2 < WORLD_H ==>
              town.tiles[x, z2].elevation <= town.tiles[x, z1].elevation
    ensures forall x, z :: 0 <= x < WORLD_W && 0 <= z < WORLD_H ==>
              town.tiles[x, z].kind == (if IsCliffFace(town, x, z) then CLIFF else old(town.tiles[x, z]).kind)
  {
    var useThreeTiers, mid, high := DrawPlateaus(rng, config);
    threeTiers, midTargets, highBoundary := useThreeTiers, mid, high;
    var midBoundary := BuildSteppedBoundary(mid, CLIFF_CONNECTION_POINT_OFFSET);
    ApplyElevations(town, midBoundary, high, useThreeTiers);
    forall x, z | 0 <= x < WORLD_W && 0 <= z < WORLD_H
      ensures 0 <= town.tiles[x, z].elevation <= (if threeTiers then 2 else 1)
    {
      ElevationAtDecidingRow(midBoundary, high, threeTiers, x, z);
    }
    forall x, z1, z2 | 0 <= x < WORLD_W && 0 <= z1 <= z2 < WORLD_H
      ensures town.tiles[x, z2].elevation <= town.tiles[x, z1].elevation
    {
      ColumnMonotone(midBoundary, high, threeTiers, x, z1, z2);
    }
    TagCliffFaces(town);
  }
}
