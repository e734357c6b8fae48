/** rivers::CreateRiverMouths without its teardrops: finding where the river first meets sand or
    ocean, and the sand cleanup that follows. */
module RiverMouths {
  import opened Grid
  import opened TownModel

  /** (x, z) is on the map and holds ocean or sand. */
  predicate SeaAt(town: Town, x: int, z: int)
    requires town.Valid()
    reads town.tiles
  {
    IsInBounds(x, z) && (town.tiles[x, z].kind == OCEAN || town.tiles[x, z].kind == SAND)
  }

  /** One of the first d entries of nbrs holds ocean or sand. */
  predicate SeaAmong(town: Town, nbrs: seq<Coord>, d: int)
    requires town.Valid() && 0 <= d <= |nbrs|
    reads town.tiles
  {
    exists k :: 0 <= k < d && SeaAt(town, nbrs[k].x, nbrs[k].z)
  }

  /** Some 4-neighbour of (x, z) holds ocean or sand. */
  predicate TouchesSea(town: Town, x: int, z: int)
    requires town.Valid()
    reads town.tiles
  {
    SeaAmong(town, GetNeighbors4(x, z), 4)
  }

  /** A river tile touching ocean or sand: it becomes a mouth. */
  predicate IsMouthCell(town: Town, x: int, z: int)
    requires town.Valid()
    reads town.tiles
  {
    IsInBounds(x, z) && town.tiles[x, z].kind == RIVER && TouchesSea(town, x, z)
  }

  /** The neighbour test of the detection pass: the offsets in order, stopping at the first
      ocean or sand tile on the map. */
  method TouchesOceanOrSand(town: Town, x: int, z: int) returns (touches: bool)
    requires town.Valid()
    ensures touches <==> TouchesSea(town, x, z)
  {
    var nbrs := GetNeighbors4(x, z);
    touches := false;
    var d := 0;
    while d < 4 && !touches
      invariant 0 <= d <= 4
      invariant touches <==> SeaAmong(town, nbrs, d)
      invariant !touches ==> d <= 4
    {
      var n := nbrs[d];
      if 0 <= n.x < WORLD_W && 0 <= n.z < WORLD_H {
        var k := town.tiles[n.x, n.z].kind;
        if k == OCEAN || k == SAND {
          touches := true;
        }
      }
      d := d + 1;
    }
    if touches {
      assert SeaAmong(town, nbrs, 4);
    }
  }

  /** (a, b) comes before (x, z) in the row-major scan. */
  predicate ScannedBefore(a: int, b: int, x: int, z: int)
  {
    b < z || (b == z && a < x)
  }

  /** Turning river tiles into mouths moves no ocean or sand, so every tile touches the sea
      exactly when it did before. */
  twostate lemma MouthsKeepSea(town: Town)
    requires town.Valid()
    requires forall a, b :: 0 <= a < WORLD_W && 0 <= b < WORLD_H ==>
               town.tiles[a, b] == old(town.tiles[a, b])
               || (old(town.tiles[a, b]).kind == RIVER && town.tiles[a, b].kind == RIVER_MOUTH)
    ensures forall x, z :: TouchesSea(town, x, z) == old(TouchesSea(town, x, z))
  {
    assert forall a, b :: SeaAt(town, a, b) == old(SeaAt(town, a, b));
  }

  /** One row of the detection pass: the river tiles of row z touching ocean or sand become
      mouths, and rowXs lists them left to right. */
  method DetectRow(town: Town, z: int) returns (rowXs: seq<int>)
    requires town.Valid()
    requires 0 <= z < WORLD_H
    modifies town.tiles
    ensures forall a, b :: 0 <= a < WORLD_W && 0 <= b < WORLD_H ==>
              town.tiles[a, b] == if b == z && old(IsMouthCell(town, a, b)) then Tile(RIVER_MOUTH, old(town.tiles[a, b]).elevation)
                                  else old(town.tiles[a, b])
    ensures forall a :: 0 <= a < WORLD_W ==> (a in rowXs <==> old(IsMouthCell(town, a, z)))
    ensures forall i :: 0 <= i < |rowXs| ==> 0 <= rowXs[i] < WORLD_W
    ensures forall i, j :: 0 <= i < j < |rowXs| ==> rowXs[i] < rowXs[j]
  {
    // Which tiles of the row are mouths, judged on the tiles as they were on entry.
    ghost var mouth := seq(WORLD_W, a requires 0 <= a < WORLD_W reads town.tiles => IsMouthCell(town, a, z));
    rowXs := [];
    var x := 0;
    while x < WORLD_W
      invariant 0 <= x <= WORLD_W
      invariant forall a, b :: 0 <= a < WORLD_W && 0 <= b < WORLD_H ==>
                  town.tiles[a, b] == if b == z && a < x && mouth[a]
                                      then Tile(RIVER_MOUTH, old(town.tiles[a, b]).elevation)
                                      else old(town.tiles[a, b])
      invariant forall a :: 0 <= a < WORLD_W ==> (a in rowXs <==> a < x && mouth[a])
      invariant forall i :: 0 <= i < |rowXs| ==> 0 <= rowXs[i] < x
      invariant forall i, j :: 0 <= i < j < |rowXs| ==> rowXs[i] < rowXs[j]
    {
      assert forall a, b :: SeaAt(town, a, b) == old(SeaAt(town, a, b));
      assert TouchesSea(town, x, z) == old(TouchesSea(town, x, z));
      assert IsMouthCell(town, x, z) == mouth[x];
      var t := town.tiles[x, z];
      if t.kind == RIVER {
        var touches := TouchesOceanOrSand(town, x, z);
        if touches {
          town.tiles[x, z] := Tile(RIVER_MOUTH, t.elevation);
          rowXs := rowXs + [x];
        }
      }
      x := x + 1;
    }
  }

  /** Pass 1 of rivers::CreateRiverMouths: every river tile touching ocean or sand becomes a
      mouth; mouthZ is the first world row holding one (-1 if none) and xs lists, left to right,
      the mouths of that row. */
  method DetectMouths(town: Town) returns (mouthZ: int, xs: seq<int>)
    requires town.Valid()
    modifies town.tiles
    ensures forall x, z :: 0 <= x < WORLD_W && 0 <= z < WORLD_H ==>
              town.tiles[x, z] == if old(IsMouthCell(town, x, z)) then Tile(RIVER_MOUTH, old(town.tiles[x, z]).elevation)
                                  else old(town.tiles[x, z])
    ensures mouthZ == -1 <==> |xs| == 0
    ensures mouthZ == -1 ==> forall x, z :: 0 <= x < WORLD_W && 0 <= z < WORLD_H ==> !old(IsMouthCell(town, x, z))
    ensures mouthZ != -1 ==> 0 <= mouthZ < WORLD_H
    ensures forall x, z :: 0 <= x < WORLD_W && 0 <= z < mouthZ ==> !old(IsMouthCell(town, x, z))
    ensures forall x :: 0 <= x < WORLD_W && mouthZ != -1 ==> (x in xs <==> old(IsMouthCell(town, x, mouthZ)))
    ensures forall i :: 0 <= i < |xs| ==> 0 <= xs[i] < WORLD_W
    ensures forall i, j :: 0 <= i < j < |xs| ==> xs[i] < xs[j]
  {
    mouthZ := -1;
    xs := [];
    var z := 0;
    while z < WORLD_H
      invariant 0 <= z <= WORLD_H
      invariant forall a, b :: 0 <= a < WORLD_W && 0 <= b < WORLD_H ==>
                  town.tiles[a, b] == if b < z && old(IsMouthCell(town, a, b))
                                      then Tile(RIVER_MOUTH, old(town.tiles[a, b]).elevation)
                                      else old(town.tiles[a, b])
      invariant mouthZ == -1 <==> |xs| == 0
      invariant mouthZ == -1 ==> forall a, b :: 0 <= a < WORLD_W && 0 <= b < z ==> !old(IsMouthCell(town, a, b))
      invariant mouthZ != -1 ==> 0 <= mouthZ < z
      invariant forall a, b :: 0 <= a < WORLD_W && 0 <= b < mouthZ ==> !old(IsMouthCell(town, a, b))
      invariant mouthZ != -1 ==> forall a :: 0 <= a < WORLD_W ==> (a in xs <==> old(IsMouthCell(town, a, mouthZ)))
      invariant forall i :: 0 <= i < |xs| ==> 0 <= xs[i] < WORLD_W
      invariant forall i, j :: 0 <= i < j < |xs| ==> xs[i] < xs[j]
    {
      MouthsKeepSea(town);
      assert forall a :: 0 <= a < WORLD_W ==> (IsMouthCell(town, a, z) <==> old(IsMouthCell(town, a, z)));
      var rowXs := DetectRow(town, z);
      if mouthZ == -1 && |rowXs| > 0 {
        mouthZ := z;
        xs := rowXs;
      }
      z := z + 1;
    }
  }

  // ── Cleanup ──────────────────────────────────────────────────────────────────

  /** (x, z) is off the map or holds something other than sand. */
  predicate NotSandAt(town: Town, x: int, z: int)
    requires town.Valid()
    reads town.tiles
  {
    !IsInBounds(x, z) || town.tiles[x, z].kind != SAND
  }

  /** No 4-neighbour of (x, z) holds sand. */
  predicate SandFree(town: Town, x: int, z: int)
    requires town.Valid()
    reads town.tiles
  {
    NotSandAt(town, x + 1, z) && NotSandAt(town, x - 1, z) && NotSandAt(town, x, z + 1) && NotSandAt(town, x, z - 1)
  }

  /** A tile changed, if at all, from sand to grass at the same elevation. */
  predicate Greened(before: Tile, after: Tile)
  {
    after == before || (before.kind == SAND && after == Tile(GRASS, before.elevation))
  }

  /** The first half of a cleanup visit to a river tile: every sand 4-neighbour on the map
      becomes grass. */
  method ClearSandAround(town: Town, x: int, z: int)
    requires town.Valid()
    modifies town.tiles
    ensures forall a, b :: 0 <= a < WORLD_W && 0 <= b < WORLD_H ==>
              town.tiles[a, b] == if Manhattan(Coord(a, b), Coord(x, z)) == 1 && old(town.tiles[a, b]).kind == SAND
                                  then Tile(GRASS, old(town.tiles[a, b]).elevation)
                                  else old(town.tiles[a, b])
    ensures SandFree(town, x, z)
  {
    var nbrs := GetNeighbors4(x, z);
    var d := 0;
    while d < 4
      invariant 0 <= d <= 4
      invariant forall a, b :: 0 <= a < WORLD_W && 0 <= b < WORLD_H ==>
                  town.tiles[a, b] == if Coord(a, b) in nbrs[..d] && old(town.tiles[a, b]).kind == SAND
                                      then Tile(GRASS, old(town.tiles[a, b]).elevation)
                                      else old(town.tiles[a, b])
    {
      var n := nbrs[d];
      assert nbrs[..d + 1] == nbrs[..d] + [n];
      if 0 <= n.x < WORLD_W && 0 <= n.z < WORLD_H {
        var t := town.tiles[n.x, n.z];
        if t.kind == SAND {
          town.tiles[n.x, n.z] := Tile(GRASS, t.elevation);
        }
      }
      d := d + 1;
    }
    assert nbrs[..4] == nbrs;
    Neighbors4Exact(x, z);
  }

  /** (a, b) is off the map (which counts as grass) or holds grass. */
  predicate GrassOrEdge(town: Town, a: int, b: int)
    requires town.Valid()
    reads town.tiles
  {
    !IsInBounds(a, b) || town.tiles[a, b].kind == GRASS
  }

  /** How many of the first d entries of nbrs are grass or off the map. */
  function GrassCount(town: Town, nbrs: seq<Coord>, d: int): int
    requires town.Valid() && 0 <= d <= |nbrs|
    reads town.tiles
    decreases d
  {
    if d == 0 then 0
    else GrassCount(town, nbrs, d - 1) + (if GrassOrEdge(town, nbrs[d - 1].x, nbrs[d - 1].z) then 1 else 0)
  }

  /** The count reaches d exactly when all of the first d entries are grass or off the map. */
  lemma {:induction false} GrassCountFull(town: Town, nbrs: seq<Coord>, d: int)
    requires town.Valid() && 0 <= d <= |nbrs|
    ensures 0 <= GrassCount(town, nbrs, d) <= d
    ensures GrassCount(town, nbrs, d) == d <==> forall k :: 0 <= k < d ==> GrassOrEdge(town, nbrs[k].x, nbrs[k].z)
    decreases d
  {
    if d > 0 {
      GrassCountFull(town, nbrs, d - 1);
    }
  }

  /** Sand at (x, z) is trapped: all four neighbours are grass or off the map. */
  predicate Isolated(town: Town, x: int, z: int)
    requires town.Valid()
    reads town.tiles
  {
    GrassOrEdge(town, x + 1, z) && GrassOrEdge(town, x - 1, z) && GrassOrEdge(town, x, z + 1) && GrassOrEdge(town, x, z - 1)
  }

  /** (a, b) is off the map or holds grass, river or a river mouth. */
  predicate GrassRiverOrEdge(town: Town, a: int, b: int)
    requires town.Valid()
    reads town.tiles
  {
    !IsInBounds(a, b) || town.tiles[a, b].kind == GRASS || IsRiverKind(town.tiles[a, b].kind)
  }

  /** No 4-neighbour of (x, z) holds sand, ocean or anything else but grass and river: sand at
      (x, z) is either trapped or next to a river, and the cleanup greens it either way. */
  predicate Enclosed(town: Town, x: int, z: int)
    requires town.Valid()
    reads town.tiles
  {
    GrassRiverOrEdge(town, x + 1, z) && GrassRiverOrEdge(town, x - 1, z)
    && GrassRiverOrEdge(town, x, z + 1) && GrassRiverOrEdge(town, x, z - 1)
  }

  /** The second half of a cleanup visit: sand whose four neighbours are all grass (the map
      edge counting as grass) becomes grass. */
  method GreenIfIsolated(town: Town, x: int, z: int)
    requires town.Valid() && IsInBounds(x, z) && town.tiles[x, z].kind == SAND
    modifies town.tiles
    ensures forall a, b :: 0 <= a < WORLD_W && 0 <= b < WORLD_H ==>
              town.tiles[a, b] == if a == x && b == z && old(Isolated(town, x, z))
                                  then Tile(GRASS, old(town.tiles[a, b]).elevation)
                                  else old(town.tiles[a, b])
  {
    var nbrs := GetNeighbors4(x, z);
    var grassAdj := 0;
    var d := 0;
    while d < 4
      invariant 0 <= d <= 4
      invariant grassAdj == GrassCount(town, nbrs, d)
    {
      var n := nbrs[d];
      if !(0 <= n.x < WORLD_W && 0 <= n.z < WORLD_H) {
        grassAdj := grassAdj + 1;
      } else if town.tiles[n.x, n.z].kind == GRASS {
        grassAdj := grassAdj + 1;
      }
      d := d + 1;
    }
    GrassCountFull(town, nbrs, 4);
    assert GrassOrEdge(town, nbrs[0].x, nbrs[0].z) == GrassOrEdge(town, x + 1, z);
    assert GrassOrEdge(town, nbrs[1].x, nbrs[1].z) == GrassOrEdge(town, x - 1, z);
    assert GrassOrEdge(town, nbrs[2].x, nbrs[2].z) == GrassOrEdge(town, x, z + 1);
    assert GrassOrEdge(town, nbrs[3].x, nbrs[3].z) == GrassOrEdge(town, x, z - 1);
    if grassAdj == 4 {
      town.tiles[x, z] := Tile(GRASS, town.tiles[x, z].elevation);
    }
  }

  /** (a, b) is on the map and holds river or a river mouth. */
  predicate RiverAt(town: Town, a: int, b: int)
    requires town.Valid()
    reads town.tiles
  {
    IsInBounds(a, b) && IsRiverKind(town.tiles[a, b].kind)
  }

  /** Why the cleanup may green the tile at (x, z): a 4-neighbour is river (its visit clears the
      sand around it), or all four neighbours are grass or off the map (trapped sand). */
  predicate SandCleared(town: Town, x: int, z: int)
    requires town.Valid()
    reads town.tiles
  {
    RiverAt(town, x + 1, z) || RiverAt(town, x - 1, z) || RiverAt(town, x, z + 1) || RiverAt(town, x, z - 1)
    || Isolated(town, x, z)
  }

  /** Greening keeps every reason to green: river stays river, grass stays grass, and no tile
      gains a sand neighbour. */
  twostate lemma GreeningKeepsReasons(town: Town)
    requires town.Valid()
    requires forall a, b :: 0 <= a < WORLD_W && 0 <= b < WORLD_H ==> Greened(old(town.tiles[a, b]), town.tiles[a, b])
    ensures forall a, b :: old(SandCleared(town, a, b)) ==> SandCleared(town, a, b)
    ensures forall a, b :: old(SandFree(town, a, b)) ==> SandFree(town, a, b)
    ensures forall a, b :: old(Isolated(town, a, b)) ==> Isolated(town, a, b)
  {
    assert forall a, b :: old(RiverAt(town, a, b)) ==> RiverAt(town, a, b);
    assert forall a, b :: old(GrassOrEdge(town, a, b)) ==> GrassOrEdge(town, a, b);
    assert forall a, b :: old(NotSandAt(town, a, b)) ==> NotSandAt(town, a, b);
  }

  /** A visit that greens sand only next to a river tile at (x, z), or at (x, z) itself when it
      was trapped sand, leaves every tile it changed with a reason to be green. */
  twostate lemma VisitReasons(town: Town, new x: int, new z: int)
    requires town.Valid() && IsInBounds(x, z)
    requires forall a, b :: 0 <= a < WORLD_W && 0 <= b < WORLD_H ==>
               town.tiles[a, b] == if IsRiverKind(old(town.tiles[x, z]).kind) && Manhattan(Coord(a, b), Coord(x, z)) == 1
                                      && old(town.tiles[a, b]).kind == SAND
                                   then Tile(GRASS, old(town.tiles[a, b]).elevation)
                                   else if a == x && b == z && old(town.tiles[x, z]).kind == SAND && old(Isolated(town, x, z))
                                   then Tile(GRASS, old(town.tiles[a, b]).elevation)
                                   else old(town.tiles[a, b])
    ensures forall a, b :: 0 <= a < WORLD_W && 0 <= b < WORLD_H && town.tiles[a, b] != old(town.tiles[a, b])
              ==> SandCleared(town, a, b)
  {
    forall a, b | 0 <= a < WORLD_W && 0 <= b < WORLD_H && town.tiles[a, b] != old(town.tiles[a, b])
      ensures SandCleared(town, a, b)
    {
      if IsRiverKind(old(town.tiles[x, z]).kind) {
        assert RiverAt(town, x, z);
        assert Manhattan(Coord(a, b), Coord(x, z)) == 1;
        assert (x == a + 1 && z == b) || (x == a - 1 && z == b) || (x == a && z == b + 1) || (x == a && z == b - 1);
      } else {
        assert a == x && b == z;
        assert !IsInBounds(x + 1, z) || town.tiles[x + 1, z] == old(town.tiles[x + 1, z]);
        assert !IsInBounds(x - 1, z) || town.tiles[x - 1, z] == old(town.tiles[x - 1, z]);
        assert !IsInBounds(x, z + 1) || town.tiles[x, z + 1] == old(town.tiles[x, z + 1]);
        assert !IsInBounds(x, z - 1) || town.tiles[x, z - 1] == old(town.tiles[x, z - 1]);
        assert Isolated(town, x, z);
      }
    }
  }

  /** One cleanup visit to (x, z): a river tile greens the sand around it; otherwise sand whose
      four neighbours are grass or off the map is greened. Every tile it changes has a reason to
      be green afterwards, and it leaves a river tile without sand neighbours. */
  method CleanupVisit(town: Town, x: int, z: int)
    requires town.Valid() && IsInBounds(x, z)
    modifies town.tiles
    ensures forall a, b :: 0 <= a < WORLD_W && 0 <= b < WORLD_H ==>
              town.tiles[a, b] == if IsRiverKind(old(town.tiles[x, z]).kind) && Manhattan(Coord(a, b), Coord(x, z)) == 1
                                     && old(town.tiles[a, b]).kind == SAND
                                  then Tile(GRASS, old(town.tiles[a, b]).elevation)
                                  else if a == x && b == z && old(town.tiles[x, z]).kind == SAND && old(Isolated(town, x, z))
                                  then Tile(GRASS, old(town.tiles[a, b]).elevation)
                                  else old(town.tiles[a, b])
    ensures forall a, b :: 0 <= a < WORLD_W && 0 <= b < WORLD_H ==> Greened(old(town.tiles[a, b]), town.tiles[a, b])
    ensures forall a, b :: 0 <= a < WORLD_W && 0 <= b < WORLD_H && town.tiles[a, b] != old(town.tiles[a, b])
              ==> SandCleared(town, a, b)
    ensures forall a, b :: old(SandFree(town, a, b)) ==> SandFree(town, a, b)
    ensures forall a, b :: old(SandCleared(town, a, b)) ==> SandCleared(town, a, b)
    ensures IsRiverKind(town.tiles[x, z].kind) ==> SandFree(town, x, z)
  {
    if IsRiverKind(town.tiles[x, z].kind) {
      ClearSandAround(town, x, z);
      Neighbors4Exact(x, z);
      assert RiverAt(town, x, z);
    }
    if town.tiles[x, z].kind == SAND {
      GreenIfIsolated(town, x, z);
    }
    VisitReasons(town, x, z);
    GreeningKeepsReasons(town);
  }

  /** One row of the cleanup pass, visited left to right: every tile it changes was sand, is
      grass at the same elevation and has a reason to be; sand of row z that was trapped is
      grass; afterwards no river tile of row z has a sand neighbour, and a tile that had none
      still has none. */
  method CleanupRow(town: Town, z: int)
    requires town.Valid() && 0 <= z < WORLD_H
    modifies town.tiles
    ensures forall a, b :: 0 <= a < WORLD_W && 0 <= b < WORLD_H ==> Greened(old(town.tiles[a, b]), town.tiles[a, b])
    ensures forall a, b :: 0 <= a < WORLD_W && 0 <= b < WORLD_H && town.tiles[a, b] != old(town.tiles[a, b])
              ==> SandCleared(town, a, b)
    ensures forall a, b :: old(SandFree(town, a, b)) ==> SandFree(town, a, b)
    ensures forall a :: 0 <= a < WORLD_W && IsRiverKind(town.tiles[a, z].kind) ==> SandFree(town, a, z)
    ensures forall a :: 0 <= a < WORLD_W && old(town.tiles[a, z]).kind == SAND && old(Isolated(town, a, z))
              ==> town.tiles[a, z].kind == GRASS
  {
    var x := 0;
    while x < WORLD_W
      invariant 0 <= x <= WORLD_W
      invariant forall a, b :: 0 <= a < WORLD_W && 0 <= b < WORLD_H ==> Greened(old(town.tiles[a, b]), town.tiles[a, b])
      invariant forall a, b :: 0 <= a < WORLD_W && 0 <= b < WORLD_H && town.tiles[a, b] != old(town.tiles[a, b])
                  ==> SandCleared(town, a, b)
      invariant forall a, b :: old(SandFree(town, a, b)) ==> SandFree(town, a, b)
      invariant forall a :: 0 <= a < x && IsRiverKind(town.tiles[a, z].kind) ==> SandFree(town, a, z)
      invariant forall a :: 0 <= a < x && old(town.tiles[a, z]).kind == SAND && old(Isolated(town, a, z))
                  ==> town.tiles[a, z].kind == GRASS
    {
      GreeningKeepsReasons(town);
      CleanupVisit(town, x, z);
      x := x + 1;
    }
  }

  /** Pass 3 of rivers::CreateRiverMouths: in scan order, clear the sand around every river
      tile and green trapped sand. It only ever turns sand into grass, every tile it greens has
      a river neighbour or only grass and map edge around it, and afterwards no river tile has
      a sand neighbour. */
  method CleanupSand(town: Town)
    requires town.Valid()
    modifies town.tiles
    ensures forall a, b :: 0 <= a < WORLD_W && 0 <= b < WORLD_H ==> Greened(old(town.tiles[a, b]), town.tiles[a, b])
    ensures forall a, b :: 0 <= a < WORLD_W && 0 <= b < WORLD_H && town.tiles[a, b] != old(town.tiles[a, b])
              ==> SandCleared(town, a, b)
    ensures forall a, b :: 0 <= a < WORLD_W && 0 <= b < WORLD_H && IsRiverKind(town.tiles[a, b].kind) ==> SandFree(town, a, b)
    ensures forall a, b :: 0 <= a < WORLD_W && 0 <= b < WORLD_H && old(town.tiles[a, b]).kind == SAND && old(Isolated(town, a, b))
              ==> town.tiles[a, b].kind == GRASS
    ensures forall a, b :: 0 <= a < WORLD_W && 0 <= b < WORLD_H && old(town.tiles[a, b]).kind == SAND && old(Enclosed(town, a, b))
              ==> town.tiles[a, b].kind == GRASS
  {
    var z := 0;
    while z < WORLD_H
      invariant 0 <= z <= WORLD_H
      invariant forall a, b :: 0 <= a < WORLD_W && 0 <= b < WORLD_H ==> Greened(old(town.tiles[a, b]), town.tiles[a, b])
      invariant forall a, b :: 0 <= a < WORLD_W && 0 <= b < WORLD_H && town.tiles[a, b] != old(town.tiles[a, b])
                  ==> SandCleared(town, a, b)
      invariant forall a, b :: 0 <= a < WORLD_W && 0 <= b < z && IsRiverKind(town.tiles[a, b].kind) ==> SandFree(town, a, b)
      invariant forall a, b :: 0 <= a < WORLD_W && 0 <= b < z && old(town.tiles[a, b]).kind == SAND && old(Isolated(town, a, b))
                  ==> town.tiles[a, b].kind == GRASS
    {
      GreeningKeepsReasons(town);
      label rowStart:
      CleanupRow(town, z);
      GreeningKeepsReasons@rowStart(town);
      z := z + 1;
    }
    forall a, b | 0 <= a < WORLD_W && 0 <= b < WORLD_H && old(town.tiles[a, b]).kind == SAND && old(Enclosed(town, a, b))
      ensures town.tiles[a, b].kind == GRASS
    {
      if !old(Isolated(town, a, b)) {
        assert old(RiverAt(town, a + 1, b) || RiverAt(town, a - 1, b) || RiverAt(town, a, b + 1) || RiverAt(town, a, b - 1));
        assert RiverAt(town, a + 1, b) || RiverAt(town, a - 1, b) || RiverAt(town, a, b + 1) || RiverAt(town, a, b - 1);
      }
    }
  }
}
