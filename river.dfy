/** The river step's carving (rivers::CarveRiverSection and the carve loop of rivers::Execute),
    its mouths (rivers::CreateRiverMouths) and rivers::Execute itself. */
module Rivers {
  import opened Grid
  import opened Random
  import opened Config
  import opened TownModel
  import opened GenUtils
  import opened RiverPaths
  import opened RiverMouths

  /** The kind carving leaves: sand and ocean become a river mouth, anything else river. */
  function CarveKind(k: TileType): TileType
  {
    if k == SAND || k == OCEAN then RIVER_MOUTH else RIVER
  }

  /** (x, z) lies in the square of half-width hw around (cx, cz). */
  predicate InSquare(cx: int, cz: int, hw: int, x: int, z: int)
  {
    cx - hw <= x <= cx + hw && cz - hw <= z <= cz + hw
  }

  /** Tile t at (x, z) after carving the square around (cx, cz). */
  function Carved(cx: int, cz: int, hw: int, x: int, z: int, t: Tile): Tile
  {
    if InSquare(cx, cz, hw, x, z) then Tile(CarveKind(t.kind), t.elevation) else t
  }

  /** Carving keeps elevations, touches only its square, turns every tile there into river or
      river mouth, and makes a mouth exactly of sand and ocean; so carving a mouth a second time
      turns it back into plain river. */
  lemma CarveFacts(cx: int, cz: int, hw: int, x: int, z: int, t: Tile)
    ensures Carved(cx, cz, hw, x, z, t).elevation == t.elevation
    ensures !InSquare(cx, cz, hw, x, z) ==> Carved(cx, cz, hw, x, z, t) == t
    ensures InSquare(cx, cz, hw, x, z) ==> IsRiverKind(Carved(cx, cz, hw, x, z, t).kind)
    ensures Carved(cx, cz, hw, x, z, t).kind == RIVER_MOUTH
            <==> (InSquare(cx, cz, hw, x, z) && (t.kind == SAND || t.kind == OCEAN)) || (!InSquare(cx, cz, hw, x, z) && t.kind == RIVER_MOUTH)
    ensures InSquare(cx, cz, hw, x, z) && t.kind == RIVER_MOUTH ==> Carved(cx, cz, hw, x, z, Carved(cx, cz, hw, x, z, t)).kind == RIVER
  {
  }

  /** rivers::CarveRiverSection: every on-map tile of the square becomes river or river mouth. */
  method CarveRiverSection(town: Town, centerX: int, centerZ: int, halfWidth: int)
    requires town.Valid()
    modifies town.tiles
    ensures forall x, z :: 0 <= x < WORLD_W && 0 <= z < WORLD_H ==>
              town.tiles[x, z] == Carved(centerX, centerZ, halfWidth, x, z, old(town.tiles[x, z]))
  {
    var dx := -halfWidth;
    while dx <= halfWidth
      invariant -halfWidth <= dx && (dx <= halfWidth + 1 || dx == -halfWidth)
      invariant forall x, z :: 0 <= x < WORLD_W && 0 <= z < WORLD_H ==>
                  town.tiles[x, z] == if x < centerX + dx then Carved(centerX, centerZ, halfWidth, x, z, old(town.tiles[x, z]))
                                      else old(town.tiles[x, z])
    {
      var dz := -halfWidth;
      while dz <= halfWidth
        invariant -halfWidth <= dz <= halfWidth + 1
        invariant forall x, z :: 0 <= x < WORLD_W && 0 <= z < WORLD_H ==>
                    town.tiles[x, z] == if x < centerX + dx || (x == centerX + dx && z < centerZ + dz)
                                        then Carved(centerX, centerZ, halfWidth, x, z, old(town.tiles[x, z]))
                                        else old(town.tiles[x, z])
      {
        var wx := centerX + dx;
        var wz := centerZ + dz;
        if 0 <= wx < WORLD_W && 0 <= wz < WORLD_H {
          var t := town.tiles[wx, wz];
          town.tiles[wx, wz] := Tile(CarveKind(t.kind), t.elevation);
        }
        dz := dz + 1;
      }
      dx := dx + 1;
    }
  }

  // ── The channel ──────────────────────────────────────────────────────────────

  /** Tile t at (x, z) after carving the squares around every spot, in order. */
  function CarvedAll(spots: seq<Coord>, hw: int, x: int, z: int, t: Tile): Tile
    decreases |spots|
  {
    if |spots| == 0 then t
    else
      var p := spots[|spots| - 1];
      Carved(p.x, p.z, hw, x, z, CarvedAll(spots[..|spots| - 1], hw, x, z, t))
  }

  /** The carve spots along a bend row: every x from fromX to toX inclusive. */
  function BendRun(fromX: int, toX: int, z: int): (r: seq<Coord>)
    ensures |r| == Abs(toX - fromX) + 1
  {
    seq(Abs(toX - fromX) + 1, i => Coord(if toX >= fromX then fromX + i else fromX - i, z))
  }

  /** The carve spots of world row z: a run across the bend row when the centre line jumps
      there, otherwise the centre of the row. */
  function RowSpots(centers: seq<int>, z: int): seq<Coord>
    requires |centers| == WORLD_H && 0 <= z < WORLD_H
  {
    if z > 0 && z % SIZE == RIVER_CONNECTION_POINT_OFFSET && centers[z - 1] != centers[z]
    then BendRun(centers[z - 1], centers[z], z)
    else [Coord(centers[z], z)]
  }

  /** The carve spots of world rows 0..n-1, in carving order. */
  function SpotsUpTo(centers: seq<int>, n: int): seq<Coord>
    requires |centers| == WORLD_H && 0 <= n <= WORLD_H
    decreases n
  {
    if n == 0 then [] else SpotsUpTo(centers, n - 1) + RowSpots(centers, n - 1)
  }

  /** Carving never changes an elevation. */
  lemma {:induction false} CarvedAllKeepsElevation(spots: seq<Coord>, hw: int, x: int, z: int, t: Tile)
    ensures CarvedAll(spots, hw, x, z, t).elevation == t.elevation
    decreases |spots|
  {
    if |spots| > 0 {
      CarvedAllKeepsElevation(spots[..|spots| - 1], hw, x, z, t);
    }
  }

  /** A tile inside some spot's square ends as river or river mouth; a tile outside every
      square is untouched. */
  lemma {:induction false} CarvedAllCoverage(spots: seq<Coord>, hw: int, x: int, z: int, t: Tile)
    ensures (exists i :: 0 <= i < |spots| && InSquare(spots[i].x, spots[i].z, hw, x, z))
            ==> IsRiverKind(CarvedAll(spots, hw, x, z, t).kind)
    ensures (forall i :: 0 <= i < |spots| ==> !InSquare(spots[i].x, spots[i].z, hw, x, z))
            ==> CarvedAll(spots, hw, x, z, t) == t
    decreases |spots|
  {
    if |spots| > 0 {
      var init := spots[..|spots| - 1];
      CarvedAllCoverage(init, hw, x, z, t);
      if exists i :: 0 <= i < |spots| && InSquare(spots[i].x, spots[i].z, hw, x, z) {
        var i :| 0 <= i < |spots| && InSquare(spots[i].x, spots[i].z, hw, x, z);
        if i < |spots| - 1 {
          assert init[i] == spots[i];
        }
      }
      if forall i :: 0 <= i < |spots| ==> !InSquare(spots[i].x, spots[i].z, hw, x, z) {
        forall i | 0 <= i < |init|
          ensures !InSquare(init[i].x, init[i].z, hw, x, z)
        {
          assert init[i] == spots[i];
        }
      }
    }
  }

  /** The centre line moves only on bend rows, as BuildCenterLine's output does. */
  predicate JumpsOnlyAtBends(centers: seq<int>)
    requires |centers| == WORLD_H
  {
    forall z :: 0 < z < WORLD_H && z % SIZE != RIVER_CONNECTION_POINT_OFFSET ==> centers[z] == centers[z - 1]
  }

  /** The centre line BuildCenterLine draws only jumps on bend rows. */
  lemma CenterLineJumpsOnlyAtBends(targets: seq<int>, centers: seq<int>)
    requires |targets| == HEIGHT && |centers| == WORLD_H
    requires forall z :: 0 <= z < WORLD_H ==> centers[z] == ConnX(targets[TargetRow(z)])
    ensures JumpsOnlyAtBends(centers)
  {
    forall z | 0 < z < WORLD_H && z % SIZE != RIVER_CONNECTION_POINT_OFFSET
      ensures centers[z] == centers[z - 1]
    {
      CenterLineFollowsPaths(targets, z);
    }
  }

  /** Consecutive spots are 4-neighbours. */
  predicate Chained(spots: seq<Coord>)
  {
    forall i, j :: 0 <= i < |spots| && 0 <= j < |spots| && j == i + 1 ==> Manhattan(spots[i], spots[j]) == 1
  }

  /** The spots of rows 0..n-1 form one 4-connected chain from the top row's centre to row
      n-1's centre. */
  lemma {:induction false} SpotsConnected(centers: seq<int>, n: int)
    requires |centers| == WORLD_H && 1 <= n <= WORLD_H
    requires JumpsOnlyAtBends(centers)
    ensures |SpotsUpTo(centers, n)| >= 1
    ensures SpotsUpTo(centers, n)[0] == Coord(centers[0], 0)
    ensures SpotsUpTo(centers, n)[|SpotsUpTo(centers, n)| - 1] == Coord(centers[n - 1], n - 1)
    ensures Chained(SpotsUpTo(centers, n))
    decreases n
  {
    var z := n - 1;
    var row := RowSpots(centers, z);
    var s := SpotsUpTo(centers, n);
    if n == 1 {
      assert s == [Coord(centers[0], 0)];
    } else {
      SpotsConnected(centers, n - 1);
      var prev := SpotsUpTo(centers, n - 1);
      assert s == prev + row;
      assert row[0] == Coord(centers[z - 1], z);
      assert row[|row| - 1] == Coord(centers[z], z);
      forall i, j | 0 <= i && j == i + 1 && j < |s|
        ensures Manhattan(s[i], s[j]) == 1
      {
        if i < |prev| - 1 {
          assert s[i] == prev[i] && s[i + 1] == prev[i + 1];
        } else if i == |prev| - 1 {
          assert s[i] == Coord(centers[z - 1], z - 1) && s[i + 1] == row[0];
        } else {
          assert s[i] == row[i - |prev|] && s[i + 1] == row[i - |prev| + 1];
        }
      }
    }
  }

  /** Carving a + b is carving a, then b. */
  lemma {:induction false} CarvedAllAppend(a: seq<Coord>, b: seq<Coord>, hw: int, x: int, z: int, t: Tile)
    ensures CarvedAll(a + b, hw, x, z, t) == CarvedAll(b, hw, x, z, CarvedAll(a, hw, x, z, t))
    decreases |b|
  {
    if |b| == 0 {
      assert a + b == a;
    } else {
      var b' := b[..|b| - 1];
      assert (a + b)[..|a + b| - 1] == a + b';
      CarvedAllAppend(a, b', hw, x, z, t);
    }
  }

  /** The bend branch of the carve loop: carve every spot from prevX across to centerX. */
  method CarveBendRow(town: Town, prevX: int, centerX: int, z: int, halfWidth: int)
    requires town.Valid() && prevX != centerX
    modifies town.tiles
    ensures forall x, zz :: 0 <= x < WORLD_W && 0 <= zz < WORLD_H ==>
              town.tiles[x, zz] == CarvedAll(BendRun(prevX, centerX, z), halfWidth, x, zz, old(town.tiles[x, zz]))
  {
    var dir := if centerX > prevX then 1 else -1;
    ghost var run := BendRun(prevX, centerX, z);
    ghost var i := 0;
    var x := prevX;
    while x != centerX + dir
      invariant 0 <= i <= |run|
      invariant x == if dir == 1 then prevX + i else prevX - i
      invariant forall x, zz :: 0 <= x < WORLD_W && 0 <= zz < WORLD_H ==>
                  town.tiles[x, zz] == CarvedAll(run[..i], halfWidth, x, zz, old(town.tiles[x, zz]))
      decreases |run| - i
    {
      CarveRiverSection(town, x, z, halfWidth);
      assert run[i] == Coord(x, z);
      assert run[..i + 1][..i] == run[..i];
      x := x + dir;
      i := i + 1;
    }
    assert run[..i] == run;
  }

  /** The carve loop of rivers::Execute: every world row is carved at its centre, and a bend
      row where the centre jumps is carved all the way across. */
  method CarveChannel(town: Town, centers: seq<int>, halfWidth: int) returns (ghost spots: seq<Coord>)
    requires town.Valid() && |centers| == WORLD_H
    modifies town.tiles
    ensures spots == SpotsUpTo(centers, WORLD_H)
    ensures forall x, z :: 0 <= x < WORLD_W && 0 <= z < WORLD_H ==>
              town.tiles[x, z] == CarvedAll(spots, halfWidth, x, z, old(town.tiles[x, z]))
  {
    spots := [];
    var z := 0;
    while z < WORLD_H
      invariant 0 <= z <= WORLD_H
      invariant spots == SpotsUpTo(centers, z)
      invariant forall x, zz :: 0 <= x < WORLD_W && 0 <= zz < WORLD_H ==>
                  town.tiles[x, zz] == CarvedAll(spots, halfWidth, x, zz, old(town.tiles[x, zz]))
    {
      ghost var row := RowSpots(centers, z);
      label rowStart:
      CarveRow(town, centers, z, halfWidth);
      forall x, zz | 0 <= x < WORLD_W && 0 <= zz < WORLD_H
        ensures town.tiles[x, zz] == CarvedAll(spots + row, halfWidth, x, zz, old(town.tiles[x, zz]))
      {
        assert old@rowStart(town.tiles[x, zz]) == CarvedAll(spots, halfWidth, x, zz, old(town.tiles[x, zz]));
        CarvedAllAppend(spots, row, halfWidth, x, zz, old(town.tiles[x, zz]));
      }
      spots := spots + row;
      z := z + 1;
    }
  }

  /** One pass of the carve loop: world row z carved at its centre, or across the whole bend
      when the centre jumps at the row's connection point. */
  method CarveRow(town: Town, centers: seq<int>, z: int, halfWidth: int)
    requires town.Valid() && |centers| == WORLD_H && 0 <= z < WORLD_H
    modifies town.tiles
    ensures forall x, zz :: 0 <= x < WORLD_W && 0 <= zz < WORLD_H ==>
              town.tiles[x, zz] == CarvedAll(RowSpots(centers, z), halfWidth, x, zz, old(town.tiles[x, zz]))
  {
    var centerX := centers[z];
    if z > 0 && z % SIZE == RIVER_CONNECTION_POINT_OFFSET && centers[z - 1] != centerX {
      CarveBendRow(town, centers[z - 1], centerX, z, halfWidth);
    } else {
      CarveRiverSection(town, centerX, z, halfWidth);
      assert RowSpots(centers, z) == [Coord(centerX, z)];
      assert forall x, zz :: 0 <= x < WORLD_W && 0 <= zz < WORLD_H ==>
                             CarvedAll([Coord(centerX, z)], halfWidth, x, zz, old(town.tiles[x, zz]))
                             == Carved(centerX, z, halfWidth, x, zz, old(town.tiles[x, zz]));
    }
  }

  // ── Mouths ──────────────────────────────────────────────────────────────────

  /** The smallest element (std::minmax_element's first half). */
  function SeqMin(s: seq<int>): (m: int)
    requires |s| > 0
    ensures m in s && forall v :: v in s ==> m <= v
  {
    if |s| == 1 then s[0]
    else
      assert s == [s[0]] + s[1..];
      Min(s[0], SeqMin(s[1..]))
  }

  /** The largest element (std::minmax_element's second half). */
  function SeqMax(s: seq<int>): (m: int)
    requires |s| > 0
    ensures m in s && forall v :: v in s ==> v <= m
  {
    if |s| == 1 then s[0]
    else
      assert s == [s[0]] + s[1..];
      Max(s[0], SeqMax(s[1..]))
  }

  /** What the river step may do to a tile: keep its elevation, and keep its kind or make it
      river, river mouth or grass. */
  predicate RiverStepChange(before: Tile, after: Tile)
  {
    after.elevation == before.elevation
    && (after.kind == before.kind || IsRiverKind(after.kind) || after.kind == GRASS)
  }

  /** River-or-grass tiles stay river-or-grass. */
  predicate RiverOrGrass(t: Tile)
  {
    IsRiverKind(t.kind) || t.kind == GRASS
  }

  /** The mouth teardrops' size: five tiles wide, eight deep. */
  const DROP_WIDTH: int := 5
  const DROP_DEPTH: int := 8

  /** The west teardrop beside the mouths xs of world row mouthZ: in the ocean acre row, centred
      two columns west of the westernmost mouth, starting four rows above the mouth row's offset
      within its acre, curving west. */
  function LeftDrop(mouthZ: int, xs: seq<int>): Teardrop
    requires |xs| > 0
  {
    Teardrop(HEIGHT - 1, SeqMin(xs) - DROP_WIDTH / 2, mouthZ % SIZE - 4, DROP_WIDTH, DROP_DEPTH, -1, WORLD_W)
  }

  /** The east teardrop: centred two columns east of the easternmost mouth, curving east. */
  function RightDrop(mouthZ: int, xs: seq<int>): Teardrop
    requires |xs| > 0
  {
    Teardrop(HEIGHT - 1, SeqMax(xs) + DROP_WIDTH / 2, mouthZ % SIZE - 4, DROP_WIDTH, DROP_DEPTH, 1, WORLD_W)
  }

  /** (x, z) is painted by one of the two teardrops (none when there is no mouth). */
  predicate InMouthDrops(shape: RowShape, mouthZ: int, xs: seq<int>, x: int, z: int)
  {
    |xs| > 0 && (InTeardrop(shape, LeftDrop(mouthZ, xs), x, z) || InTeardrop(shape, RightDrop(mouthZ, xs), x, z))
  }

  /** Tile t at (x, z) after tagging (mouth tells whether it is a mouth tile) and both teardrops. */
  function MouthTile(shape: RowShape, mouthZ: int, xs: seq<int>, mouth: bool, x: int, z: int, t: Tile): Tile
  {
    if InMouthDrops(shape, mouthZ, xs, x, z) then Tile(GRASS, t.elevation)
    else if mouth then Tile(RIVER_MOUTH, t.elevation)
    else t
  }

  /** The teardrop half of rivers::CreateRiverMouths: the west teardrop, then the east one, grown
      beside the mouths xs of world row mouthZ. Each tile keeps its elevation and either keeps its
      kind or becomes river or grass; river and grass tiles stay river or grass. */
  method GrowMouthTeardrops(town: Town, shape: RowShape, mouthZ: int, xs: seq<int>)
    requires town.Valid() && |xs| > 0
    modifies town.tiles
    ensures forall x, z :: 0 <= x < WORLD_W && 0 <= z < WORLD_H ==>
              town.tiles[x, z] == Painted(shape, RightDrop(mouthZ, xs), x, z,
                                          Painted(shape, LeftDrop(mouthZ, xs), x, z, old(town.tiles[x, z])))
    ensures forall x, z :: 0 <= x < WORLD_W && 0 <= z < WORLD_H ==>
              RiverStepChange(old(town.tiles[x, z]), town.tiles[x, z])
              && (RiverOrGrass(old(town.tiles[x, z])) ==> RiverOrGrass(town.tiles[x, z]))
  {
    var riverMinX := SeqMin(xs);
    var riverMaxX := SeqMax(xs);
    var curve := 1;
    var leftDropCenter := riverMinX - DROP_WIDTH / 2;
    var rightDropCenter := riverMaxX + DROP_WIDTH / 2;
    var startZLocal := mouthZ % SIZE - 4;
    var left := Teardrop(HEIGHT - 1, leftDropCenter, startZLocal, DROP_WIDTH, DROP_DEPTH, -curve, WORLD_W);
    var right := Teardrop(HEIGHT - 1, rightDropCenter, startZLocal, DROP_WIDTH, DROP_DEPTH, curve, WORLD_W);
    assert left == LeftDrop(mouthZ, xs) && right == RightDrop(mouthZ, xs);
    CreateGrassTeardrop(town, shape, left);
    label LeftDone:
    CreateGrassTeardrop(town, shape, right);
    forall x, z | 0 <= x < WORLD_W && 0 <= z < WORLD_H
      ensures RiverStepChange(old(town.tiles[x, z]), town.tiles[x, z])
      ensures RiverOrGrass(old(town.tiles[x, z])) ==> RiverOrGrass(town.tiles[x, z])
    {
      PaintedFacts(shape, left, x, z, old(town.tiles[x, z]));
      PaintedFacts(shape, right, x, z, old@LeftDone(town.tiles[x, z]));
    }
  }

  /** Mouth tagging, then a river-step change, then greening: together one river-step change
      that keeps river and grass tiles river or grass. */
  lemma MouthPassesChain(t0: Tile, t1: Tile, t2: Tile, t3: Tile, mouth: bool)
    requires t1 == if mouth then Tile(RIVER_MOUTH, t0.elevation) else t0
    requires RiverStepChange(t1, t2) && (RiverOrGrass(t1) ==> RiverOrGrass(t2))
    requires Greened(t2, t3)
    ensures RiverStepChange(t0, t3)
    ensures RiverOrGrass(t0) ==> RiverOrGrass(t3)
  {
  }

  /** Tagging, both teardrops and greening leave the tagged-and-painted tile, except that sand
      outside the teardrops may have become grass in the cleanup. */
  lemma MouthTileChain(shape: RowShape, mouthZ: int, xs: seq<int>, mouth: bool, x: int, z: int,
                       t0: Tile, t1: Tile, t2: Tile, t3: Tile)
    requires |xs| > 0 && (mouth ==> t0.kind == RIVER)
    requires t1 == if mouth then Tile(RIVER_MOUTH, t0.elevation) else t0
    requires t2 == Painted(shape, RightDrop(mouthZ, xs), x, z, Painted(shape, LeftDrop(mouthZ, xs), x, z, t1))
    requires Greened(t2, t3)
    ensures t2 == MouthTile(shape, mouthZ, xs, mouth, x, z, t0)
    ensures t3 == t2
            || (t0.kind == SAND && !InMouthDrops(shape, mouthZ, xs, x, z) && t3 == Tile(GRASS, t0.elevation))
  {
  }

  /** rivers::CreateRiverMouths: river tiles touching sand or ocean become mouths; if there is
      any, a grass teardrop is grown on each side of the first mouth row (mouthZ, its mouths
      xs) in the ocean acre row and the sand is cleaned up. found tells whether a mouth was
      found. Every tile ends as tagged and painted, except sand outside the teardrops that the
      cleanup greened, which has a river neighbour or only grass and map edge around it. */
  method CreateRiverMouths(town: Town, shape: RowShape) returns (ghost found: bool, ghost mouthZ: int, ghost xs: seq<int>)
    requires town.Valid()
    modifies town.tiles
    ensures found <==> exists x, z :: 0 <= x < WORLD_W && 0 <= z < WORLD_H && old(IsMouthCell(town, x, z))
    ensures found <==> |xs| > 0
    ensures found ==> 0 <= mouthZ < WORLD_H
    ensures found ==> forall x :: 0 <= x < WORLD_W ==> (x in xs <==> old(IsMouthCell(town, x, mouthZ)))
    ensures forall x, z :: 0 <= x < WORLD_W && 0 <= z < mouthZ ==> !old(IsMouthCell(town, x, z))
    ensures forall x, z :: 0 <= x < WORLD_W && 0 <= z < WORLD_H ==>
              town.tiles[x, z] == MouthTile(shape, mouthZ, xs, old(IsMouthCell(town, x, z)), x, z, old(town.tiles[x, z]))
              || (old(town.tiles[x, z]).kind == SAND && !InMouthDrops(shape, mouthZ, xs, x, z)
                  && town.tiles[x, z] == Tile(GRASS, old(town.tiles[x, z]).elevation) && SandCleared(town, x, z))
    ensures !found ==> forall x, z :: 0 <= x < WORLD_W && 0 <= z < WORLD_H ==> town.tiles[x, z] == old(town.tiles[x, z])
    ensures forall x, z :: 0 <= x < WORLD_W && 0 <= z < WORLD_H ==> RiverStepChange(old(town.tiles[x, z]), town.tiles[x, z])
    ensures forall x, z :: 0 <= x < WORLD_W && 0 <= z < WORLD_H && RiverOrGrass(old(town.tiles[x, z])) ==> RiverOrGrass(town.tiles[x, z])
    ensures forall x, z :: 0 <= x < WORLD_W && 0 <= z < WORLD_H && IsRiverKind(old(town.tiles[x, z]).kind) && !InMouthDrops(shape, mouthZ, xs, x, z)
              ==> IsRiverKind(town.tiles[x, z].kind)
    ensures found ==> forall x, z :: 0 <= x < WORLD_W && 0 <= z < WORLD_H && IsRiverKind(town.tiles[x, z].kind) ==> SandFree(town, x, z)
    ensures found ==> forall x, z :: 0 <= x < WORLD_W && 0 <= z < WORLD_H && old(town.tiles[x, z]).kind == SAND && old(Isolated(town, x, z))
                        ==> town.tiles[x, z].kind == GRASS
    ensures found ==> forall x, z :: 0 <= x < WORLD_W && 0 <= z < WORLD_H && old(town.tiles[x, z]).kind == SAND && old(Enclosed(town, x, z))
                        ==> town.tiles[x, z].kind == GRASS
  {
    var rowZ, rowXs := DetectMouths(town);
    mouthZ, xs := rowZ, rowXs;
    found := |xs| > 0;
    if |rowXs| > 0 {
      assert old(IsMouthCell(town, xs[0], mouthZ));
      label Detected:
      GrowMouthTeardrops(town, shape, rowZ, rowXs);
      label Grown:
      forall a, b | old(GrassRiverOrEdge(town, a, b))
        ensures GrassRiverOrEdge(town, a, b)
      {
        if IsInBounds(a, b) {
          PaintedFacts(shape, LeftDrop(mouthZ, xs), a, b, old@Detected(town.tiles[a, b]));
          PaintedFacts(shape, RightDrop(mouthZ, xs), a, b,
                       Painted(shape, LeftDrop(mouthZ, xs), a, b, old@Detected(town.tiles[a, b])));
        }
      }
      forall a, b | 0 <= a < WORLD_W && 0 <= b < WORLD_H && old(town.tiles[a, b]).kind == SAND
        ensures town.tiles[a, b].kind == SAND || town.tiles[a, b].kind == GRASS
      {
        PaintedFacts(shape, LeftDrop(mouthZ, xs), a, b, old@Detected(town.tiles[a, b]));
        PaintedFacts(shape, RightDrop(mouthZ, xs), a, b,
                     Painted(shape, LeftDrop(mouthZ, xs), a, b, old@Detected(town.tiles[a, b])));
      }
      CleanupSand(town);
      forall x, z | 0 <= x < WORLD_W && 0 <= z < WORLD_H
        ensures RiverStepChange(old(town.tiles[x, z]), town.tiles[x, z])
        ensures RiverOrGrass(old(town.tiles[x, z])) ==> RiverOrGrass(town.tiles[x, z])
        ensures town.tiles[x, z] == MouthTile(shape, mouthZ, xs, old(IsMouthCell(town, x, z)), x, z, old(town.tiles[x, z]))
                || (old(town.tiles[x, z]).kind == SAND && !InMouthDrops(shape, mouthZ, xs, x, z)
                    && town.tiles[x, z] == Tile(GRASS, old(town.tiles[x, z]).elevation) && SandCleared(town, x, z))
      {
        MouthPassesChain(old(town.tiles[x, z]), old@Detected(town.tiles[x, z]), old@Grown(town.tiles[x, z]),
                         town.tiles[x, z], old(IsMouthCell(town, x, z)));
        MouthTileChain(shape, mouthZ, xs, old(IsMouthCell(town, x, z)), x, z, old(town.tiles[x, z]),
                       old@Detected(town.tiles[x, z]), old@Grown(town.tiles[x, z]), town.tiles[x, z]);
      }
      forall x, z | 0 <= x < WORLD_W && 0 <= z < WORLD_H && old(town.tiles[x, z]).kind == SAND
                    && (old(Isolated(town, x, z)) || old(Enclosed(town, x, z)))
        ensures town.tiles[x, z].kind == GRASS
      {
        assert old(Enclosed(town, x, z));
        assert old@Grown(Enclosed(town, x, z));
      }
    } else {
      forall x, z | 0 <= x < WORLD_W && 0 <= z < WORLD_H
        ensures !old(IsMouthCell(town, x, z))
      {
      }
    }
  }

  // ── The step ─────────────────────────────────────────────────────────────────

  /** The centre line as a function of the column targets. */
  function CenterLine(targets: seq<int>): (c: seq<int>)
    requires |targets| == HEIGHT
    ensures |c| == WORLD_H
  {
    seq(WORLD_H, z requires 0 <= z < WORLD_H => ConnX(targets[TargetRow(z)]))
  }

  /** rivers::Execute. The route is chosen on the terrain as it was (the path tests read the
      elevations before any carving); the channel is one 4-connected chain of carve spots from
      the top row to the bottom row; every tile in a carved square ends as river, river mouth
      or (under a mouth teardrop) grass; no elevation changes and no tile becomes anything but
      river, river mouth or grass; the teardrops beside the first mouth row (mouthZ, its mouths
      xs) are grass; outside the squares and the teardrops, river may become a mouth and sand
      with a reason may become grass, and nothing else changes; and when the river reaches sand
      or ocean, no river tile is left next to sand. */
  method Execute(town: Town, rng: Rng, config: TownConfig, shape: RowShape)
    returns (ghost targets: seq<int>, ghost straights: seq<int>, ghost positions: seq<nat>, ghost spots: seq<Coord>,
             ghost mouthFound: bool, ghost mouthZ: int, ghost xs: seq<int>)
    requires town.Valid()
    modifies town.tiles, rng
    ensures |targets| == HEIGHT && |straights| == HEIGHT
    ensures targets[0] == Uniform(rng.raw(old(rng.pos)), 0, WIDTH - 1)
    ensures 0 <= targets[0] < WIDTH && straights[0] == 0
    ensures old(ColumnsChosen(town, targets, straights))
    ensures old(ColumnsDrawn(town, rng.raw, config, targets, straights, positions))
    ensures |positions| == HEIGHT && positions[0] == old(rng.pos) + 1 && positions[HEIGHT - 1] == rng.pos
    ensures old(rng.pos) + HEIGHT <= rng.pos <= old(rng.pos) + 1 + 4 * (HEIGHT - 1)
    ensures spots == SpotsUpTo(CenterLine(targets), WORLD_H)
    ensures |spots| >= 1 && spots[0].z == 0 && spots[|spots| - 1].z == WORLD_H - 1
    ensures Chained(spots)
    ensures forall x, z :: 0 <= x < WORLD_W && 0 <= z < WORLD_H ==> RiverStepChange(old(town.tiles[x, z]), town.tiles[x, z])
    ensures forall x, z, i ::
              (0 <= x < WORLD_W && 0 <= z < WORLD_H && 0 <= i < |spots|
               && InSquare(spots[i].x, spots[i].z, TruncDiv(config.riverWidth, 2), x, z))
              ==> RiverOrGrass(town.tiles[x, z])
    ensures mouthFound <==> |xs| > 0
    ensures forall x, z :: 0 <= x < WORLD_W && 0 <= z < WORLD_H && InMouthDrops(shape, mouthZ, xs, x, z)
              ==> town.tiles[x, z] == Tile(GRASS, old(town.tiles[x, z]).elevation)
    ensures forall x, z ::
              (0 <= x < WORLD_W && 0 <= z < WORLD_H
               && (forall i :: 0 <= i < |spots| ==> !InSquare(spots[i].x, spots[i].z, TruncDiv(config.riverWidth, 2), x, z))
               && !InMouthDrops(shape, mouthZ, xs, x, z)) ==>
              town.tiles[x, z] == old(town.tiles[x, z])
              || (old(town.tiles[x, z]).kind == RIVER && town.tiles[x, z] == Tile(RIVER_MOUTH, old(town.tiles[x, z]).elevation))
              || (old(town.tiles[x, z]).kind == SAND && town.tiles[x, z] == Tile(GRASS, old(town.tiles[x, z]).elevation)
                  && SandCleared(town, x, z))
    ensures forall x, z, i ::
              (0 <= x < WORLD_W && 0 <= z < WORLD_H && 0 <= i < |spots|
               && InSquare(spots[i].x, spots[i].z, TruncDiv(config.riverWidth, 2), x, z)
               && !InMouthDrops(shape, mouthZ, xs, x, z))
              ==> IsRiverKind(town.tiles[x, z].kind)
    ensures mouthFound ==>
              forall x, z :: (0 <= x < WORLD_W && 0 <= z < WORLD_H && IsRiverKind(town.tiles[x, z].kind))
                ==> SandFree(town, x, z)
    ensures mouthFound ==>
              forall x, z ::
                (0 <= x < WORLD_W && 0 <= z < WORLD_H && old(town.tiles[x, z]).kind == SAND && old(Enclosed(town, x, z))
                 && (forall i :: 0 <= i < |spots| ==> !InSquare(spots[i].x, spots[i].z, TruncDiv(config.riverWidth, 2), x, z)))
                ==> town.tiles[x, z].kind == GRASS
  {
    var width := config.riverWidth;
    var halfWidth := TruncDiv(width, 2);
    var columnTargets;
    columnTargets, straights, positions := ChooseColumns(town, rng, config);
    targets := columnTargets;
    var riverCenterX := BuildCenterLine(columnTargets);
    assert riverCenterX == CenterLine(targets);
    CenterLineJumpsOnlyAtBends(targets, riverCenterX);
    SpotsConnected(riverCenterX, WORLD_H);
    label Routed:
    spots := CarveChannel(town, riverCenterX, halfWidth);
    forall x, z | 0 <= x < WORLD_W && 0 <= z < WORLD_H
      ensures RiverStepChange(old(town.tiles[x, z]), town.tiles[x, z])
      ensures (exists i :: 0 <= i < |spots| && InSquare(spots[i].x, spots[i].z, halfWidth, x, z))
              ==> IsRiverKind(town.tiles[x, z].kind)
      ensures (forall i :: 0 <= i < |spots| ==> !InSquare(spots[i].x, spots[i].z, halfWidth, x, z))
              ==> town.tiles[x, z] == old(town.tiles[x, z])
      ensures IsRiverKind(town.tiles[x, z].kind) || town.tiles[x, z] == old(town.tiles[x, z])
    {
      CarvedAllKeepsElevation(spots, halfWidth, x, z, old(town.tiles[x, z]));
      CarvedAllCoverage(spots, halfWidth, x, z, old(town.tiles[x, z]));
    }
    forall a, b | old(GrassRiverOrEdge(town, a, b))
      ensures GrassRiverOrEdge(town, a, b)
    {
    }
    label Carved:
    mouthFound, mouthZ, xs := CreateRiverMouths(town, shape);
    forall x, z, i | (0 <= x < WORLD_W && 0 <= z < WORLD_H && 0 <= i < |spots|
                      && InSquare(spots[i].x, spots[i].z, halfWidth, x, z))
      ensures RiverOrGrass(town.tiles[x, z])
      ensures !InMouthDrops(shape, mouthZ, xs, x, z) ==> IsRiverKind(town.tiles[x, z].kind)
    {
      assert RiverOrGrass(old@Carved(town.tiles[x, z]));
    }
    forall x, z | 0 <= x < WORLD_W && 0 <= z < WORLD_H && old@Carved(IsMouthCell(town, x, z))
      ensures old@Carved(town.tiles[x, z]).kind == RIVER
    {
    }
  }
}
