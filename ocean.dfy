/** The ocean step (OceanGenerationStep.cpp): a wavy sand line across the bottom acre row, ocean
    below it, and one grass inlet breaking the sand. The step is standalone: Town::Generate does
    not run it. */
module Ocean {
  import opened Grid
  import opened Random
  import opened TownModel
  import opened GenUtils

  /** The first tile row of the bottom (pure ocean) acre row. */
  const OCEAN_ROW_Z: int := (HEIGHT - 1) * SIZE
  /** Where the sand starts, in local rows, before the wave is added. */
  const BASE_SAND_ROW: int := 10
  const MIN_SAND_ROW: int := 7
  const MAX_SAND_ROW: int := 12
  /** Rows of sand between the grass and the ocean. */
  const SAND_DEPTH: int := 3
  /** How far an inlet's centre stays from the west and east edges. */
  const INLET_MARGIN: int := 15

  /** The rounded beach wave std::round(sin(x * freq + phase) * amp) for column x, as a function
      of the raw phase and frequency draws and the amplitude: floating point is not modelled. */
  type BeachWave = (nat, nat, int, int) -> int

  /** The wave parameters drawn by the step. */
  datatype WaveDraws = WaveDraws(phase: nat, freq: nat, amp: int)

  /** Column x's sand row: the wave around BASE_SAND_ROW, clamped. */
  function SandRow(wave: BeachWave, w: WaveDraws, x: int): int
  {
    Clamp(BASE_SAND_ROW + wave(w.phase, w.freq, w.amp, x), MIN_SAND_ROW, MAX_SAND_ROW)
  }

  /** Step 2: the sand boundary of every column. */
  method BuildSandBoundary(wave: BeachWave, w: WaveDraws) returns (sand: seq<int>)
    ensures |sand| == WORLD_W
    ensures forall x :: 0 <= x < WORLD_W ==> sand[x] == SandRow(wave, w, x)
    ensures forall x :: 0 <= x < WORLD_W ==> MIN_SAND_ROW <= sand[x] <= MAX_SAND_ROW
  {
    sand := [];
    var x := 0;
    while x < WORLD_W
      invariant 0 <= x <= WORLD_W && |sand| == x
      invariant forall i :: 0 <= i < x ==> sand[i] == SandRow(wave, w, i)
    {
      sand := sand + [SandRow(wave, w, x)];
      x := x + 1;
    }
  }

  /** Tile t at (x, z) after the band fill: in the bottom acre row, rows from the sand row on
      become sand at elevation 0 and, from SAND_DEPTH rows further, ocean at elevation 0. */
  function BeachFilled(sand: seq<int>, x: int, z: int, t: Tile): Tile
    requires 0 <= x < |sand|
  {
    var localZ := z - OCEAN_ROW_Z;
    if localZ < 0 || localZ >= SIZE then t
    else if localZ >= sand[x] + SAND_DEPTH then Tile(OCEAN, 0)
    else if localZ >= sand[x] then Tile(SAND, 0)
    else t
  }

  /** The band fill changes only the bottom acre row; below a clamped sand row every column holds
      exactly SAND_DEPTH sand tiles followed by at least one ocean tile, all at elevation 0. */
  lemma BeachBandFacts(sand: seq<int>, x: int, t: Tile)
    requires 0 <= x < |sand| && MIN_SAND_ROW <= sand[x] <= MAX_SAND_ROW
    ensures forall z :: z < OCEAN_ROW_Z ==> BeachFilled(sand, x, z, t) == t
    ensures BeachFilled(sand, x, OCEAN_ROW_Z + sand[x] + SAND_DEPTH, t) == Tile(OCEAN, 0)
    ensures OCEAN_ROW_Z + sand[x] + SAND_DEPTH < WORLD_H
    ensures forall z :: OCEAN_ROW_Z + sand[x] <= z < WORLD_H
              ==> (BeachFilled(sand, x, z, t).kind == SAND <==> z < OCEAN_ROW_Z + sand[x] + SAND_DEPTH)
                  && BeachFilled(sand, x, z, t).kind in {SAND, OCEAN}
                  && BeachFilled(sand, x, z, t).elevation == 0
  {
  }

  /** Step 3: the band fill, acre by acre, local row by local row, column by column. */
  method FillBeach(town: Town, sand: seq<int>)
    requires town.Valid() && |sand| == WORLD_W
    modifies town.tiles
    ensures forall x, z :: 0 <= x < WORLD_W && 0 <= z < WORLD_H ==>
              town.tiles[x, z] == BeachFilled(sand, x, z, old(town.tiles[x, z]))
  {
    var ax := 0;
    while ax < WIDTH
      invariant 0 <= ax <= WIDTH
      invariant forall x, z :: 0 <= x < WORLD_W && 0 <= z < WORLD_H ==>
                  town.tiles[x, z] == if x < ax * SIZE then BeachFilled(sand, x, z, old(town.tiles[x, z]))
                                      else old(town.tiles[x, z])
    {
      var lz := 0;
      while lz < SIZE
        invariant 0 <= lz <= SIZE
        invariant forall x, z :: 0 <= x < WORLD_W && 0 <= z < WORLD_H ==>
                    town.tiles[x, z] == if x < ax * SIZE || (x < ax * SIZE + SIZE && z < OCEAN_ROW_Z + lz)
                                        then BeachFilled(sand, x, z, old(town.tiles[x, z]))
                                        else old(town.tiles[x, z])
      {
        var lx := 0;
        while lx < SIZE
          invariant 0 <= lx <= SIZE
          invariant forall x, z :: 0 <= x < WORLD_W && 0 <= z < WORLD_H ==>
                      town.tiles[x, z] == if x < ax * SIZE || (x < ax * SIZE + SIZE && z < OCEAN_ROW_Z + lz)
                                             || (z == OCEAN_ROW_Z + lz && ax * SIZE <= x < ax * SIZE + lx)
                                          then BeachFilled(sand, x, z, old(town.tiles[x, z]))
                                          else old(town.tiles[x, z])
        {
          var wx := ax * SIZE + lx;
          var wz := OCEAN_ROW_Z + lz;
          var sandStart := sand[wx];
          var oceanStart := sandStart + SAND_DEPTH;
          if lz >= oceanStart {
            town.tiles[wx, wz] := Tile(OCEAN, 0);
          } else if lz >= sandStart {
            town.tiles[wx, wz] := Tile(SAND, 0);
          }
          lx := lx + 1;
        }
        lz := lz + 1;
      }
      ax := ax + 1;
    }
  }

  /** The band fill keeps tiers non-negative and never rising southward within a column: it
      lowers a suffix of the column to 0. */
  lemma BandKeepsTerraces(sand: seq<int>, x: int, z1: int, z2: int, t1: Tile, t2: Tile)
    requires 0 <= x < |sand| && z1 <= z2 < WORLD_H
    requires 0 <= t2.elevation <= t1.elevation
    ensures 0 <= BeachFilled(sand, x, z2, t2).elevation <= BeachFilled(sand, x, z1, t1).elevation
    ensures BeachFilled(sand, x, z1, t1).elevation <= t1.elevation
  {
  }

  /** Every tile the step can produce: the inlet starts at least five rows into the bottom acre
      row and is at most six rows deep, so the whole step changes only that acre row, and every
      changed tile is grass, sand or ocean; only sand and ocean take elevation 0. */
  lemma {:induction false} StepStaysInBottomRow(sand: seq<int>, shape: RowShape, inlet: Teardrop, x: int, z: int, t: Tile)
    requires |sand| == WORLD_W && 0 <= x < WORLD_W
    requires forall i :: 0 <= i < WORLD_W ==> MIN_SAND_ROW <= sand[i] <= MAX_SAND_ROW
    requires inlet.row == HEIGHT - 1 && 0 <= inlet.cx < WORLD_W && inlet.sz == sand[inlet.cx] - 2
    requires inlet.depth <= 6
    ensures z < OCEAN_ROW_Z ==> Painted(shape, inlet, x, z, BeachFilled(sand, x, z, t)) == t
    ensures Painted(shape, inlet, x, z, BeachFilled(sand, x, z, t)) != t
            ==> Painted(shape, inlet, x, z, BeachFilled(sand, x, z, t)).kind in {GRASS, SAND, OCEAN}
  {
    var filled := BeachFilled(sand, x, z, t);
    PaintedFacts(shape, inlet, x, z, filled);
    assert MIN_SAND_ROW <= sand[inlet.cx] <= MAX_SAND_ROW;
  }

  /** The sand boundary the step draws from stream position pos on. */
  function DrawnSand(wave: BeachWave, raw: nat -> nat, pos: nat): (sand: seq<int>)
    ensures |sand| == WORLD_W
  {
    seq(WORLD_W, x => SandRow(wave, WaveDraws(raw(pos), raw(pos + 1), Uniform(raw(pos + 2), 1, 3)), x))
  }

  /** The inlet the step draws from stream position pos on (draw pos + 3 is the blob count). */
  function DrawnInlet(wave: BeachWave, raw: nat -> nat, pos: nat): Teardrop
  {
    var cx := Uniform(raw(pos + 4), INLET_MARGIN, WORLD_W - INLET_MARGIN);
    Teardrop(HEIGHT - 1, cx, DrawnSand(wave, raw, pos)[cx] - 2, Uniform(raw(pos + 5), 3, 4),
             Uniform(raw(pos + 6), 4, 6), 1, WORLD_W)
  }

  /** ocean::Execute. The draws are, in order: phase, frequency, amplitude in [1, 3], the blob
      count (always 1), the inlet column in [15, WORLD_W - 15], its width in [3, 4] and its depth
      in [4, 6]. The inlet is one teardrop in the bottom acre row starting two rows above the
      sand row of its column, bulging with curve 1 and clipped to the town's width. */
  method Execute(town: Town, rng: Rng, wave: BeachWave, shape: RowShape)
    returns (ghost sand: seq<int>, ghost inlet: Teardrop)
    requires town.Valid()
    modifies town.tiles, rng
    ensures rng.pos == old(rng.pos) + 7
    ensures |sand| == WORLD_W
    ensures forall x :: 0 <= x < WORLD_W ==>
              sand[x] == SandRow(wave, WaveDraws(rng.raw(old(rng.pos)), rng.raw(old(rng.pos) + 1),
                                                 Uniform(rng.raw(old(rng.pos) + 2), 1, 3)), x)
              && MIN_SAND_ROW <= sand[x] <= MAX_SAND_ROW
    ensures inlet.row == HEIGHT - 1 && inlet.curve == 1 && inlet.totalWidth == WORLD_W
    ensures inlet.cx == Uniform(rng.raw(old(rng.pos) + 4), INLET_MARGIN, WORLD_W - INLET_MARGIN)
    ensures INLET_MARGIN <= inlet.cx <= WORLD_W - INLET_MARGIN
    ensures inlet.sz == sand[inlet.cx] - 2
    ensures inlet.maxWidth == Uniform(rng.raw(old(rng.pos) + 5), 3, 4)
    ensures inlet.depth == Uniform(rng.raw(old(rng.pos) + 6), 4, 6)
    ensures forall x, z :: 0 <= x < WORLD_W && 0 <= z < WORLD_H ==>
              town.tiles[x, z] == Painted(shape, inlet, x, z, BeachFilled(sand, x, z, old(town.tiles[x, z])))
  {
    var phase := rng.NextRaw();
    var freq := rng.NextRaw();
    var amp := rng.UniformInt(1, 3);
    var boundary := BuildSandBoundary(wave, WaveDraws(phase, freq, amp));
    sand := boundary;
    FillBeach(town, boundary);
    label filled:
    inlet := Teardrop(0, 0, 0, 0, 0, 0, 0);
    var blobs := rng.UniformInt(1, 1);
    var i := 0;
    while i < blobs
      invariant 0 <= i <= blobs == 1
      invariant rng.pos == old(rng.pos) + 4 + 3 * i
      invariant i == 0 ==> forall x, z :: 0 <= x < WORLD_W && 0 <= z < WORLD_H ==>
                  town.tiles[x, z] == old@filled(town.tiles[x, z])
      invariant i == 1 ==> (inlet.row == HEIGHT - 1 && inlet.curve == 1 && inlet.totalWidth == WORLD_W
                  && inlet.cx == Uniform(rng.raw(old(rng.pos) + 4), INLET_MARGIN, WORLD_W - INLET_MARGIN)
                  && INLET_MARGIN <= inlet.cx <= WORLD_W - INLET_MARGIN
                  && inlet.sz == sand[inlet.cx] - 2
                  && inlet.maxWidth == Uniform(rng.raw(old(rng.pos) + 5), 3, 4)
                  && inlet.depth == Uniform(rng.raw(old(rng.pos) + 6), 4, 6)
                  && forall x, z :: 0 <= x < WORLD_W && 0 <= z < WORLD_H ==>
                       town.tiles[x, z] == Painted(shape, inlet, x, z, old@filled(town.tiles[x, z])))
      modifies town.tiles, rng
    {
      var x := rng.UniformInt(INLET_MARGIN, WORLD_W - INLET_MARGIN);
      var startZ := boundary[x] - 2;
      var width := rng.UniformInt(3, 4);
      var depth := rng.UniformInt(4, 6);
      var td := Teardrop(HEIGHT - 1, x, startZ, width, depth, 1, WORLD_W);
      CreateGrassTeardrop(town, shape, td);
      inlet := td;
      i := i + 1;
    }
  }
}
