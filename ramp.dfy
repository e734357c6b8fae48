/** The ramp step (RampGenerationStep.cpp): for each pair of neighbouring tiers, find the spots
    where a walkable tile sits directly north of a walkable tile one tier lower, away from
    water, score them, and carve a ramp at one of the best three in each half of the town. */
module Ramps {
  import opened Grid
  import opened Random
  import opened TownModel

  /** A possible ramp site and its score (higher is better). */
  datatype RampCandidate = RampCandidate(x: int, z: int, score: int)

  /** How many rows a ramp covers (CarveRamp's default). */
  const RAMP_LENGTH: int := 5
  /** How far water must be from a ramp site. */
  const WATER_RADIUS: int := 4
  /** Score lost by a site without a cliff wall on both flanks. */
  const UNFLANKED_PENALTY: int := 5
  /** How many of the best sites a half may pick from. */
  const TOP_PICKS: int := 3

  /** IsWalkable: anything but river, river mouth, ocean, pond and cliff. */
  predicate IsWalkable(k: TileType)
  {
    k != RIVER && k != RIVER_MOUTH && k != OCEAN && k != POND && k != CLIFF
  }

  /** The four kinds IsWaterNearby looks for. */
  predicate IsWaterKind(k: TileType)
  {
    k == RIVER || k == RIVER_MOUTH || k == OCEAN || k == POND
  }

  /** The tile Town::WorldToTile picks for (x, z): the nearest tile on the map. */
  function ClampedTile(town: Town, x: int, z: int): Tile
    requires town.Valid()
    reads town.tiles
  {
    town.tiles[Clamp(x, 0, WORLD_W - 1), Clamp(z, 0, WORLD_H - 1)]
  }

  /** ClampedTile is the tile WorldToTile addresses. */
  lemma ClampedTileIsWorldToTile(town: Town, x: int, z: int)
    requires town.Valid()
    ensures ClampedTile(town, x, z) == town.TileAt(WorldToTile(x, z).0, WorldToTile(x, z).1)
  {
    WorldToTileAddressesClamped(x, z);
  }

  /** Some on-map tile within Chebyshev distance radius of (wx, wz) is water. */
  predicate WaterNearby(town: Town, wx: int, wz: int, radius: int)
    requires town.Valid()
    reads town.tiles
  {
    exists cx, cz :: wx - radius <= cx <= wx + radius && wz - radius <= cz <= wz + radius
      && IsInBounds(cx, cz) && IsWaterKind(town.tiles[cx, cz].kind)
  }

  /** (x, z) is off the map or not one of the water kinds. */
  predicate DryAt(town: Town, x: int, z: int)
    requires town.Valid()
    reads town.tiles
  {
    IsInBounds(x, z) ==> !IsWaterKind(town.tiles[x, z].kind)
  }

  /** IsWaterNearby: scans the square row by row and stops at the first water tile. */
  method IsWaterNearby(town: Town, wx: int, wz: int, radius: int) returns (found: bool)
    requires town.Valid()
    ensures found <==> WaterNearby(town, wx, wz, radius)
  {
    var dz := -radius;
    while dz <= radius
      invariant -radius <= dz && (dz <= radius + 1 || dz == -radius)
      invariant forall cx, cz :: wx - radius <= cx <= wx + radius && wz - radius <= cz < wz + dz
                  ==> DryAt(town, cx, cz)
    {
      var dx := -radius;
      while dx <= radius
        invariant -radius <= dx <= radius + 1
        invariant forall cx, cz :: (wx - radius <= cx <= wx + radius && wz - radius <= cz <= wz + dz
                    && (cz < wz + dz || cx < wx + dx))
                    ==> DryAt(town, cx, cz)
      {
        var cx := wx + dx;
        var cz := wz + dz;
        if 0 <= cx < WORLD_W && 0 <= cz < WORLD_H {
          if IsWaterKind(town.tiles[cx, cz].kind) {
            assert wx - radius <= cx <= wx + radius && wz - radius <= cz <= wz + radius;
            assert IsInBounds(cx, cz) && IsWaterKind(town.tiles[cx, cz].kind);
            assert WaterNearby(town, wx, wz, radius);
            return true;
          }
        }
        dx := dx + 1;
      }
      dz := dz + 1;
    }
    forall cx, cz | wx - radius <= cx <= wx + radius && wz - radius <= cz <= wz + radius
      ensures !(IsInBounds(cx, cz) && IsWaterKind(town.tiles[cx, cz].kind))
    {
      assert DryAt(town, cx, cz);
    }
    return false;
  }

  /** HasCliffWall: the tile WorldToTile picks at (wx + dx, wz) is cliff at the given tier. */
  predicate HasCliffWall(town: Town, wx: int, wz: int, dx: int, elevation: int)
    requires town.Valid()
    reads town.tiles
  {
    var t := ClampedTile(town, wx + dx, wz);
    t.kind == CLIFF && t.elevation == elevation
  }

  /** CanPlaceRampHere: (wx, wz) is walkable at tier from, the tile south of it is walkable at
      tier to, and from is exactly one tier above to. */
  predicate CanPlaceRampHere(town: Town, wx: int, wz: int, from: int, to: int)
    requires town.Valid()
    reads town.tiles
  {
    var upper := ClampedTile(town, wx, wz);
    var lower := ClampedTile(town, wx, wz + 1);
    upper.elevation == from && lower.elevation == to && from == to + 1
    && IsWalkable(upper.kind) && IsWalkable(lower.kind)
  }

  /** A ramp site: placeable and no water within WATER_RADIUS. */
  predicate Eligible(town: Town, wx: int, wz: int, from: int, to: int)
    requires town.Valid()
    reads town.tiles
  {
    CanPlaceRampHere(town, wx, wz, from, to) && !WaterNearby(town, wx, wz, WATER_RADIUS)
  }

  /** A site's score: its distance to the nearer side of its half, less UNFLANKED_PENALTY
      unless cliff of the upper tier stands on both flanks. The flank checks are handed
      wx - 1 and wx + 1 together with an offset of one more, so they look two columns out. */
  function Score(town: Town, wx: int, wz: int, from: int, minX: int, maxX: int): int
    requires town.Valid()
    reads town.tiles
  {
    var westWall := HasCliffWall(town, wx - 1, wz, -1, from);
    var eastWall := HasCliffWall(town, wx + 1, wz, 1, from);
    Min(wx - minX, maxX - wx) - (if !westWall || !eastWall then UNFLANKED_PENALTY else 0)
  }

  /** The flank checks look at the tiles two columns out, and a site at least two columns from
      the map's sides inside its half scores no more than its distance to the half's sides. */
  lemma ScoreFacts(town: Town, wx: int, wz: int, from: int, minX: int, maxX: int)
    requires town.Valid()
    ensures HasCliffWall(town, wx - 1, wz, -1, from) == (ClampedTile(town, wx - 2, wz).kind == CLIFF && ClampedTile(town, wx - 2, wz).elevation == from)
    ensures HasCliffWall(town, wx + 1, wz, 1, from) == (ClampedTile(town, wx + 2, wz).kind == CLIFF && ClampedTile(town, wx + 2, wz).elevation == from)
    ensures Score(town, wx, wz, from, minX, maxX) <= wx - minX && Score(town, wx, wz, from, minX, maxX) <= maxX - wx
    ensures Score(town, wx, wz, from, minX, maxX) >= Min(wx - minX, maxX - wx) - UNFLANKED_PENALTY
  {
  }

  /** c is the eligible site it names, inside rows 1..WORLD_H-2 and columns [minX, maxX),
      carrying that site's score. */
  predicate GoodCandidate(town: Town, c: RampCandidate, from: int, to: int, minX: int, maxX: int)
    requires town.Valid()
    reads town.tiles
  {
    1 <= c.z < WORLD_H - 1 && minX <= c.x < maxX && Eligible(town, c.x, c.z, from, to)
    && c.score == Score(town, c.x, c.z, from, minX, maxX)
  }

  /** Some entry of cs names the site (x, z). */
  predicate Listed(cs: seq<RampCandidate>, x: int, z: int)
  {
    exists i :: 0 <= i < |cs| && cs[i].x == x && cs[i].z == z
  }

  /** a's site comes strictly before b's in row-major scan order. */
  predicate ScannedBefore(a: RampCandidate, b: RampCandidate)
  {
    a.z < b.z || (a.z == b.z && a.x < b.x)
  }

  /** cs lists its sites in row-major scan order, each once. */
  predicate ScanOrdered(cs: seq<RampCandidate>)
  {
    forall i, j :: 0 <= i < j < |cs| ==> ScannedBefore(cs[i], cs[j])
  }

  /** Appending a site that comes after every listed one keeps the scan order. */
  lemma AppendScanOrdered(cs: seq<RampCandidate>, c: RampCandidate)
    requires ScanOrdered(cs)
    requires forall i :: 0 <= i < |cs| ==> ScannedBefore(cs[i], c)
    ensures ScanOrdered(cs + [c])
  {
  }

  /** Appending a site keeps every listed site listed and lists the new one. */
  lemma AppendListed(cs: seq<RampCandidate>, c: RampCandidate)
    ensures forall x, z :: Listed(cs, x, z) ==> Listed(cs + [c], x, z)
    ensures Listed(cs + [c], c.x, c.z)
  {
    forall x, z | Listed(cs, x, z)
      ensures Listed(cs + [c], x, z)
    {
      var i :| 0 <= i < |cs| && cs[i].x == x && cs[i].z == z;
      assert (cs + [c])[i] == cs[i];
    }
    assert (cs + [c])[|cs|] == c;
  }

  /** a and b name the same site. */
  predicate SameSite(a: RampCandidate, b: RampCandidate)
  {
    a.x == b.x && a.z == b.z
  }

  /** No site is listed twice. */
  predicate DistinctSites(cs: seq<RampCandidate>)
  {
    forall i, j :: 0 <= i < j < |cs| ==> !SameSite(cs[i], cs[j])
  }

  /** The list FindRampCandidates returns for tiers from/to and columns [minX, maxX): exactly
      the eligible sites of rows 1..WORLD_H-2 in those columns, each once and with its score. */
  predicate CandidateList(town: Town, cs: seq<RampCandidate>, from: int, to: int, minX: int, maxX: int)
    requires town.Valid()
    reads town.tiles
  {
    (forall i :: 0 <= i < |cs| ==> GoodCandidate(town, cs[i], from, to, minX, maxX))
    && (forall x, z :: 1 <= z < WORLD_H - 1 && minX <= x < maxX && Eligible(town, x, z, from, to)
          ==> Listed(cs, x, z))
    && DistinctSites(cs)
  }

  /** One step of the scan: decide whether (wx, wz) is kept and with which score. */
  method ConsiderSite(town: Town, wx: int, wz: int, from: int, to: int, minX: int, maxX: int)
    returns (keep: bool, c: RampCandidate)
    requires town.Valid()
    ensures keep <==> Eligible(town, wx, wz, from, to)
    ensures c == RampCandidate(wx, wz, Score(town, wx, wz, from, minX, maxX))
  {
    var near := IsWaterNearby(town, wx, wz, WATER_RADIUS);
    keep := CanPlaceRampHere(town, wx, wz, from, to) && !near;
    var westWall := HasCliffWall(town, wx - 1, wz, -1, from);
    var eastWall := HasCliffWall(town, wx + 1, wz, 1, from);
    var score := Min(wx - minX, maxX - wx);
    if !westWall || !eastWall {
      score := score - UNFLANKED_PENALTY;
    }
    c := RampCandidate(wx, wz, score);
  }

  /** What the row scan has established once it has looked at columns [minX, wx) of row wz. */
  predicate RowScanned(town: Town, row: seq<RampCandidate>, wz: int, wx: int, from: int, to: int, minX: int, maxX: int)
    requires town.Valid()
    reads town.tiles
  {
    (forall i :: 0 <= i < |row| ==> GoodCandidate(town, row[i], from, to, minX, maxX))
    && (forall i :: 0 <= i < |row| ==> row[i].z == wz && row[i].x < wx)
    && ScanOrdered(row)
    && (forall x :: minX <= x < wx && Eligible(town, x, wz, from, to) ==> Listed(row, x, wz))
  }

  /** Keeping an eligible site at column wx keeps RowScanned one column further on. */
  lemma KeepStep(town: Town, row: seq<RampCandidate>, wz: int, wx: int, from: int, to: int, minX: int, maxX: int,
                 c: RampCandidate)
    requires town.Valid() && 1 <= wz < WORLD_H - 1 && minX <= wx < maxX
    requires RowScanned(town, row, wz, wx, from, to, minX, maxX)
    requires Eligible(town, wx, wz, from, to)
    requires c == RampCandidate(wx, wz, Score(town, wx, wz, from, minX, maxX))
    ensures RowScanned(town, row + [c], wz, wx + 1, from, to, minX, maxX)
  {
    var r := row + [c];
    AppendScanOrdered(row, c);
    AppendListed(row, c);
    assert GoodCandidate(town, c, from, to, minX, maxX);
    assert forall i :: 0 <= i < |r| ==> r[i] == if i < |row| then row[i] else c;
  }

  /** Passing over an ineligible column keeps RowScanned one column further on. */
  lemma SkipStep(town: Town, row: seq<RampCandidate>, wz: int, wx: int, from: int, to: int, minX: int, maxX: int)
    requires town.Valid() && minX <= wx < maxX
    requires RowScanned(town, row, wz, wx, from, to, minX, maxX)
    requires !Eligible(town, wx, wz, from, to)
    ensures RowScanned(town, row, wz, wx + 1, from, to, minX, maxX)
  {
  }

  /** The eligible sites of columns [minX, maxX) of row wz, west to east. */
  method ScanRow(town: Town, wz: int, from: int, to: int, minX: int, maxX: int)
    returns (row: seq<RampCandidate>)
    requires town.Valid() && 1 <= wz < WORLD_H - 1
    ensures forall i :: 0 <= i < |row| ==> GoodCandidate(town, row[i], from, to, minX, maxX) && row[i].z == wz
    ensures ScanOrdered(row)
    ensures forall x :: minX <= x < maxX && Eligible(town, x, wz, from, to) ==> Listed(row, x, wz)
  {
    row := [];
    var wx := minX;
    while wx < maxX
      invariant minX <= wx && (wx <= maxX || wx == minX)
      invariant RowScanned(town, row, wz, wx, from, to, minX, maxX)
    {
      var keep, c := ConsiderSite(town, wx, wz, from, to, minX, maxX);
      if keep {
        KeepStep(town, row, wz, wx, from, to, minX, maxX, c);
        row := row + [c];
      } else {
        SkipStep(town, row, wz, wx, from, to, minX, maxX);
      }
      wx := wx + 1;
    }
  }

  /** Listing another row after the earlier ones keeps the scan order and every listed site. */
  lemma AppendRow(cs: seq<RampCandidate>, row: seq<RampCandidate>, wz: int)
    requires ScanOrdered(cs) && ScanOrdered(row)
    requires forall i :: 0 <= i < |cs| ==> cs[i].z < wz
    requires forall i :: 0 <= i < |row| ==> row[i].z == wz
    ensures ScanOrdered(cs + row)
    ensures forall x, z :: Listed(cs, x, z) ==> Listed(cs + row, x, z)
    ensures forall x, z :: Listed(row, x, z) ==> Listed(cs + row, x, z)
  {
    var all := cs + row;
    forall x, z | Listed(cs, x, z)
      ensures Listed(all, x, z)
    {
      var i :| 0 <= i < |cs| && cs[i].x == x && cs[i].z == z;
      assert all[i] == cs[i];
    }
    forall x, z | Listed(row, x, z)
      ensures Listed(all, x, z)
    {
      var i :| 0 <= i < |row| && row[i].x == x && row[i].z == z;
      assert all[|cs| + i] == row[i];
    }
  }

  /** FindRampCandidates: the row-major scan, keeping every eligible site once. */
  method FindRampCandidates(town: Town, from: int, to: int, minX: int, maxX: int) returns (cs: seq<RampCandidate>)
    requires town.Valid()
    ensures CandidateList(town, cs, from, to, minX, maxX)
    ensures ScanOrdered(cs)
  {
    cs := [];
    var wz := 1;
    while wz < WORLD_H - 1
      invariant 1 <= wz <= WORLD_H - 1
      invariant forall i :: 0 <= i < |cs| ==> GoodCandidate(town, cs[i], from, to, minX, maxX)
      invariant forall i :: 0 <= i < |cs| ==> cs[i].z < wz
      invariant forall x, z :: 1 <= z < wz && minX <= x < maxX && Eligible(town, x, z, from, to)
                  ==> Listed(cs, x, z)
      invariant ScanOrdered(cs)
    {
      var row := ScanRow(town, wz, from, to, minX, maxX);
      AppendRow(cs, row, wz);
      cs := cs + row;
      wz := wz + 1;
    }
  }

  // ── Ranking ──────────────────────────────────────────────────────────────────

  /** cs runs from the best score to the worst. */
  predicate SortedByScore(cs: seq<RampCandidate>)
  {
    forall i, j :: 0 <= i < j < |cs| ==> cs[i].score >= cs[j].score
  }

  /** c placed in front of the first entry of cs that does not outscore it. */
  function InsertByScore(c: RampCandidate, cs: seq<RampCandidate>): (r: seq<RampCandidate>)
    ensures multiset(r) == multiset(cs) + multiset{c}
    ensures |r| == |cs| + 1
    decreases |cs|
  {
    if |cs| == 0 || c.score >= cs[0].score then [c] + cs
    else
      assert cs == [cs[0]] + cs[1..];
      [cs[0]] + InsertByScore(c, cs[1..])
  }

  /** Inserting a candidate scoring at most b into a list scoring at most b keeps every score
      at most b. */
  lemma {:induction false} InsertBounded(c: RampCandidate, cs: seq<RampCandidate>, b: int)
    requires c.score <= b
    requires forall k :: 0 <= k < |cs| ==> cs[k].score <= b
    ensures forall k :: 0 <= k < |InsertByScore(c, cs)| ==> InsertByScore(c, cs)[k].score <= b
    decreases |cs|
  {
    if |cs| == 0 || c.score >= cs[0].score {
      var r := [c] + cs;
      assert forall k :: 0 < k < |r| ==> r[k] == cs[k - 1];
    } else {
      InsertBounded(c, cs[1..], b);
      var r := [cs[0]] + InsertByScore(c, cs[1..]);
      assert forall k :: 0 < k < |r| ==> r[k] == InsertByScore(c, cs[1..])[k - 1];
    }
  }

  /** Inserting into a ranked list keeps it ranked. */
  lemma {:induction false} InsertKeepsSorted(c: RampCandidate, cs: seq<RampCandidate>)
    requires SortedByScore(cs)
    ensures SortedByScore(InsertByScore(c, cs))
    decreases |cs|
  {
    if |cs| == 0 || c.score >= cs[0].score {
    } else {
      var tail := cs[1..];
      var rest := InsertByScore(c, tail);
      InsertKeepsSorted(c, tail);
      InsertBounded(c, tail, cs[0].score);
      var r := [cs[0]] + rest;
      forall i, j | 0 <= i < j < |r|
        ensures r[i].score >= r[j].score
      {
        if i > 0 {
          assert r[i] == rest[i - 1] && r[j] == rest[j - 1];
        } else {
          assert r[j] == rest[j - 1];
        }
      }
    }
  }

  /** The candidates ranked best first, as std::sort with the by-score comparison leaves them;
      std::sort is not stable, so among equal scores the source fixes no order, and this ranking
      keeps scan order. */
  function SortByScore(cs: seq<RampCandidate>): (r: seq<RampCandidate>)
    ensures multiset(r) == multiset(cs)
    ensures SortedByScore(r)
    decreases |cs|
  {
    if |cs| == 0 then []
    else
      assert cs == [cs[0]] + cs[1..];
      var sortedTail := SortByScore(cs[1..]);
      InsertKeepsSorted(cs[0], sortedTail);
      InsertByScore(cs[0], sortedTail)
  }

  /** Inserting a site not yet listed into a list of distinct sites keeps the sites distinct. */
  lemma {:induction false} InsertKeepsDistinct(c: RampCandidate, cs: seq<RampCandidate>)
    requires DistinctSites(cs)
    requires forall i :: 0 <= i < |cs| ==> !SameSite(cs[i], c)
    ensures DistinctSites(InsertByScore(c, cs))
    decreases |cs|
  {
    var r := InsertByScore(c, cs);
    if |cs| == 0 || c.score >= cs[0].score {
      forall i, j | 0 <= i < j < |r|
        ensures !SameSite(r[i], r[j])
      {
        if i > 0 {
          assert r[i] == cs[i - 1] && r[j] == cs[j - 1];
        } else {
          assert r[j] == cs[j - 1];
        }
      }
    } else {
      var tail := cs[1..];
      InsertKeepsDistinct(c, tail);
      var rest := InsertByScore(c, tail);
      assert r == [cs[0]] + rest;
      forall i, j | 0 <= i < j < |r|
        ensures !SameSite(r[i], r[j])
      {
        if i > 0 {
          assert r[i] == rest[i - 1] && r[j] == rest[j - 1];
        } else {
          assert r[j] == rest[j - 1];
          assert rest[j - 1] in multiset(rest);
          assert rest[j - 1] in multiset(tail) || rest[j - 1] == c;
          if rest[j - 1] != c {
            var k :| 0 <= k < |tail| && tail[k] == rest[j - 1];
            assert cs[k + 1] == tail[k];
          }
        }
      }
    }
  }

  /** Ranking keeps the sites distinct. */
  lemma {:induction false} SortKeepsDistinct(cs: seq<RampCandidate>)
    requires DistinctSites(cs)
    ensures DistinctSites(SortByScore(cs))
    decreases |cs|
  {
    if |cs| > 0 {
      var tail := cs[1..];
      assert DistinctSites(tail) by {
        forall i, j | 0 <= i < j < |tail|
          ensures !SameSite(tail[i], tail[j])
        {
          assert tail[i] == cs[i + 1] && tail[j] == cs[j + 1];
        }
      }
      SortKeepsDistinct(tail);
      var sortedTail := SortByScore(tail);
      forall i | 0 <= i < |sortedTail|
        ensures !SameSite(sortedTail[i], cs[0])
      {
        assert sortedTail[i] in multiset(sortedTail);
        var k :| 0 <= k < |tail| && tail[k] == sortedTail[i];
        assert cs[k + 1] == tail[k];
      }
      InsertKeepsDistinct(cs[0], sortedTail);
    }
  }

  /** A reordering lists the same sites: each entry of r is an entry of cs, and every site cs
      lists r lists too. */
  lemma ReorderingKeepsSites(cs: seq<RampCandidate>, r: seq<RampCandidate>)
    requires multiset(r) == multiset(cs)
    ensures forall i :: 0 <= i < |r| ==> r[i] in cs
    ensures forall x, z :: Listed(cs, x, z) ==> Listed(r, x, z)
  {
    forall i | 0 <= i < |r|
      ensures r[i] in cs
    {
      assert r[i] in multiset(r);
    }
    forall x, z | Listed(cs, x, z)
      ensures Listed(r, x, z)
    {
      var k :| 0 <= k < |cs| && cs[k].x == x && cs[k].z == z;
      assert cs[k] in multiset(cs);
      var i :| 0 <= i < |r| && r[i] == cs[k];
    }
  }

  /** Ranking a candidate list keeps it the list of exactly the same eligible sites, and no
      site outside the top TOP_PICKS scores above any site inside it. */
  lemma RankingKeepsCandidates(town: Town, cs: seq<RampCandidate>, from: int, to: int, minX: int, maxX: int)
    requires town.Valid()
    requires CandidateList(town, cs, from, to, minX, maxX)
    ensures CandidateList(town, SortByScore(cs), from, to, minX, maxX)
    ensures forall i, j :: 0 <= i < TOP_PICKS && TOP_PICKS <= j < |SortByScore(cs)| && i < |SortByScore(cs)|
              ==> SortByScore(cs)[i].score >= SortByScore(cs)[j].score
  {
    var r := SortByScore(cs);
    ReorderingKeepsSites(cs, r);
    SortKeepsDistinct(cs);
    forall i | 0 <= i < |r|
      ensures GoodCandidate(town, r[i], from, to, minX, maxX)
    {
      var k :| 0 <= k < |cs| && cs[k] == r[i];
    }
  }

  // ── Carving ──────────────────────────────────────────────────────────────────

  /** (x, z) lies in rows [cz, cz + len) and within halfWidth columns of cx. */
  predicate InCorridor(cx: int, cz: int, len: int, halfWidth: int, x: int, z: int)
  {
    cz <= z < cz + len && cx - halfWidth <= x <= cx + halfWidth
  }

  /** Tile t at (x, z) after ClearCliffsInRampCorridor: cliff within three columns turns to grass. */
  function CliffCleared(cx: int, cz: int, len: int, x: int, z: int, t: Tile): Tile
  {
    if InCorridor(cx, cz, len, 3, x, z) && t.kind == CLIFF then Tile(GRASS, t.elevation) else t
  }

  /** Tile t at (x, z) after NormalizeRampSides: walkable tiles within two columns become grass
      at the upper tier. */
  function Levelled(cx: int, cz: int, len: int, from: int, x: int, z: int, t: Tile): Tile
  {
    if InCorridor(cx, cz, len, 2, x, z) && IsWalkable(t.kind) then Tile(GRASS, from) else t
  }

  /** Tile t at (x, z) after the ramp loop laid rows [cz, cz + rows): walkable tiles within one
      column become ramp. */
  function Ramped(cx: int, cz: int, rows: int, x: int, z: int, t: Tile): Tile
  {
    if InCorridor(cx, cz, rows, 1, x, z) && IsWalkable(t.kind) then Tile(RAMP, t.elevation) else t
  }

  /** The whole CarveRamp edit of one tile, for a ramp that laid rows of its len. */
  function RampCarved(cx: int, cz: int, len: int, rows: int, from: int, x: int, z: int, t: Tile): Tile
  {
    Ramped(cx, cz, rows, x, z, Levelled(cx, cz, len, from, x, z, CliffCleared(cx, cz, len, x, z, t)))
  }

  /** The exit tile the ramp loop reads for row r, once the corridor is cleared and levelled:
      the clamped tile below the centre column, given the tile t it was before the carve. */
  function LevelledExit(cx: int, cz: int, len: int, from: int, r: int, t: Tile): Tile
  {
    var ex := Clamp(cx, 0, WORLD_W - 1);
    var ez := Clamp(cz + r + 1, 0, WORLD_H - 1);
    Levelled(cx, cz, len, from, ex, ez, CliffCleared(cx, cz, len, ex, ez, t))
  }

  /** Row r of a ramp can be laid: it is on the map and its levelled exit tile is walkable. */
  predicate OpensRow(cx: int, cz: int, len: int, from: int, r: int, t: Tile)
  {
    0 <= cz + r < WORLD_H && IsWalkable(LevelledExit(cx, cz, len, from, r, t).kind)
  }

  /** One PlaceBest outcome: the site picked, if any, and how many ramp rows it laid. */
  datatype Placement = Placement(pick: Option<RampCandidate>, rows: int)

  const NoPlacement: Placement := Placement(None, 0)

  /** Tile t at (x, z) after placement p carved its ramp towards tier from. */
  function Placed(p: Placement, from: int, x: int, z: int, t: Tile): Tile
  {
    if p.pick.Some? then RampCarved(p.pick.value.x, p.pick.value.z, RAMP_LENGTH, p.rows, from, x, z, t) else t
  }

  /** Row r of a ramp at (cx, cz) can be laid when the grid is town's after placement prior. */
  predicate ExitOpens(town: Town, prior: Placement, from: int, cx: int, cz: int, len: int, r: int)
    requires town.Valid()
    reads town.tiles
  {
    var ex := Clamp(cx, 0, WORLD_W - 1);
    var ez := Clamp(cz + r + 1, 0, WORLD_H - 1);
    OpensRow(cx, cz, len, from, r, Placed(prior, from, ex, ez, town.tiles[ex, ez]))
  }

  /** A ramp at (cx, cz) laid exactly rows rows on town's grid after placement prior: every
      earlier row was open and, short of len, the next one was not. */
  predicate LaidWhileOpen(town: Town, prior: Placement, from: int, cx: int, cz: int, len: int, rows: int)
    requires town.Valid()
    reads town.tiles
  {
    0 <= rows <= len
    && (forall r :: 0 <= r < rows ==> ExitOpens(town, prior, from, cx, cz, len, r))
    && (rows < len ==> !ExitOpens(town, prior, from, cx, cz, len, rows))
  }

  /** Placement p stopped by the ramp loop's rule on town's grid after placement prior; no pick
      lays no rows. */
  predicate RampStops(town: Town, prior: Placement, p: Placement, from: int)
    requires town.Valid()
    reads town.tiles
  {
    if p.pick.Some? then LaidWhileOpen(town, prior, from, p.pick.value.x, p.pick.value.z, RAMP_LENGTH, p.rows)
    else p.rows == 0
  }

  /** What carving a ramp promises about every tile: water is never touched, nothing outside the
      three-column corridor changes, no cliff is left inside it, every dry tile within two
      columns ends at the upper tier, ramp is only laid within one column, and every changed
      tile ends as grass or ramp. */
  lemma RampCarvedFacts(cx: int, cz: int, len: int, rows: int, from: int, x: int, z: int, t: Tile)
    requires 0 <= rows <= len
    ensures IsWaterKind(t.kind) ==> RampCarved(cx, cz, len, rows, from, x, z, t) == t
    ensures !InCorridor(cx, cz, len, 3, x, z) ==> RampCarved(cx, cz, len, rows, from, x, z, t) == t
    ensures InCorridor(cx, cz, len, 3, x, z) ==> RampCarved(cx, cz, len, rows, from, x, z, t).kind != CLIFF
    ensures InCorridor(cx, cz, len, 2, x, z) && !IsWaterKind(t.kind)
            ==> RampCarved(cx, cz, len, rows, from, x, z, t).elevation == from
    ensures RampCarved(cx, cz, len, rows, from, x, z, t).kind == RAMP
            ==> t.kind == RAMP || (InCorridor(cx, cz, rows, 1, x, z) && !IsWaterKind(t.kind))
    ensures RampCarved(cx, cz, len, rows, from, x, z, t) != t
            ==> RampCarved(cx, cz, len, rows, from, x, z, t).kind in {GRASS, RAMP}
    ensures RampEdit(t, RampCarved(cx, cz, len, rows, from, x, z, t), from, from)
  {
  }

  /** How the ramp step may change a tile: not at all, or a tile that was not water becomes
      grass or ramp, keeping its elevation or taking a tier in [lo, hi]. */
  predicate RampEdit(before: Tile, after: Tile, lo: int, hi: int)
  {
    after == before
    || (!IsWaterKind(before.kind) && after.kind in {GRASS, RAMP}
        && (after.elevation == before.elevation || lo <= after.elevation <= hi))
  }

  /** Two ramp edits in a row are one ramp edit over the union of their tiers. */
  lemma RampEditChains(a: Tile, b: Tile, c: Tile, lo1: int, hi1: int, lo2: int, hi2: int, lo: int, hi: int)
    requires RampEdit(a, b, lo1, hi1) && RampEdit(b, c, lo2, hi2)
    requires lo <= lo1 && hi1 <= hi && lo <= lo2 && hi2 <= hi
    ensures RampEdit(a, c, lo, hi)
  {
  }

  /** ClearCliffsInRampCorridor. */
  method ClearCliffsInRampCorridor(town: Town, cx: int, cz: int, len: int)
    requires town.Valid()
    modifies town.tiles
    ensures forall x, z :: 0 <= x < WORLD_W && 0 <= z < WORLD_H ==>
              town.tiles[x, z] == CliffCleared(cx, cz, len, x, z, old(town.tiles[x, z]))
  {
    var dz := 0;
    while dz < len
      invariant 0 <= dz && (dz <= len || dz == 0)
      invariant forall x, z :: 0 <= x < WORLD_W && 0 <= z < WORLD_H ==>
                  town.tiles[x, z] == if z < cz + dz then CliffCleared(cx, cz, len, x, z, old(town.tiles[x, z]))
                                      else old(town.tiles[x, z])
    {
      var dx := -3;
      while dx <= 3
        invariant -3 <= dx <= 4
        invariant forall x, z :: 0 <= x < WORLD_W && 0 <= z < WORLD_H ==>
                    town.tiles[x, z] == if z < cz + dz || (z == cz + dz && x < cx + dx)
                                        then CliffCleared(cx, cz, len, x, z, old(town.tiles[x, z]))
                                        else old(town.tiles[x, z])
      {
        var wx := cx + dx;
        var wz := cz + dz;
        if 0 <= wx < WORLD_W && 0 <= wz < WORLD_H {
          var t := town.tiles[wx, wz];
          if t.kind == CLIFF {
            town.tiles[wx, wz] := Tile(GRASS, t.elevation);
          }
        }
        dx := dx + 1;
      }
      dz := dz + 1;
    }
  }

  /** NormalizeRampSides. */
  method NormalizeRampSides(town: Town, cx: int, cz: int, len: int, from: int)
    requires town.Valid()
    modifies town.tiles
    ensures forall x, z :: 0 <= x < WORLD_W && 0 <= z < WORLD_H ==>
              town.tiles[x, z] == Levelled(cx, cz, len, from, x, z, old(town.tiles[x, z]))
  {
    var dz := 0;
    while dz < len
      invariant 0 <= dz && (dz <= len || dz == 0)
      invariant forall x, z :: 0 <= x < WORLD_W && 0 <= z < WORLD_H ==>
                  town.tiles[x, z] == if z < cz + dz then Levelled(cx, cz, len, from, x, z, old(town.tiles[x, z]))
                                      else old(town.tiles[x, z])
    {
      var dx := -2;
      while dx <= 2
        invariant -2 <= dx <= 3
        invariant forall x, z :: 0 <= x < WORLD_W && 0 <= z < WORLD_H ==>
                    town.tiles[x, z] == if z < cz + dz || (z == cz + dz && x < cx + dx)
                                        then Levelled(cx, cz, len, from, x, z, old(town.tiles[x, z]))
                                        else old(town.tiles[x, z])
      {
        var wx := cx + dx;
        var wz := cz + dz;
        if 0 <= wx < WORLD_W && 0 <= wz < WORLD_H {
          var t := town.tiles[wx, wz];
          if IsWalkable(t.kind) {
            town.tiles[wx, wz] := Tile(GRASS, from);
          }
        }
        dx := dx + 1;
      }
      dz := dz + 1;
    }
  }

  /** Row cz + r may take ramp: it is on the map and the tile WorldToTile picks south of its
      centre column is walkable. */
  predicate RowOpen(town: Town, cx: int, cz: int, r: int)
    requires town.Valid()
    reads town.tiles
  {
    0 <= cz + r < WORLD_H && IsWalkable(ClampedTile(town, cx, cz + r + 1).kind)
  }

  /** One row of the ramp loop: the walkable tiles of row wz within a column of cx become RAMP
      at their own elevation. */
  method LayRampRow(town: Town, cx: int, wz: int)
    requires town.Valid() && 0 <= wz < WORLD_H
    modifies town.tiles
    ensures forall x, z :: 0 <= x < WORLD_W && 0 <= z < WORLD_H ==>
              town.tiles[x, z] == if z == wz && cx - 1 <= x <= cx + 1 && IsWalkable(old(town.tiles[x, z]).kind)
                                  then Tile(RAMP, old(town.tiles[x, z]).elevation)
                                  else old(town.tiles[x, z])
  {
    var dx := -1;
    while dx <= 1
      invariant -1 <= dx <= 2
      invariant forall x, z :: 0 <= x < WORLD_W && 0 <= z < WORLD_H ==>
                  town.tiles[x, z] == if z == wz && cx - 1 <= x < cx + dx && IsWalkable(old(town.tiles[x, z]).kind)
                                      then Tile(RAMP, old(town.tiles[x, z]).elevation)
                                      else old(town.tiles[x, z])
    {
      var wx := cx + dx;
      if 0 <= wx < WORLD_W {
        var t := town.tiles[wx, wz];
        if IsWalkable(t.kind) {
          town.tiles[wx, wz] := Tile(RAMP, t.elevation);
        }
      }
      dx := dx + 1;
    }
  }

  /** Laying row cz + rows over a ramp of rows rows gives the ramp of rows + 1 rows; ramp is
      walkable, so the earlier rows do not change what the new one sees. */
  lemma RampedGrows(cx: int, cz: int, rows: int, x: int, z: int, t0: Tile, t1: Tile, t2: Tile)
    requires rows >= 0
    requires t1 == Ramped(cx, cz, rows, x, z, t0)
    requires t2 == if z == cz + rows && cx - 1 <= x <= cx + 1 && IsWalkable(t1.kind) then Tile(RAMP, t1.elevation) else t1
    ensures t2 == Ramped(cx, cz, rows + 1, x, z, t0)
  {
  }

  /** The ramp loop of CarveRamp: lays rows until one is off the map or its exit tile is not
      walkable; rows is how many it laid. */
  method LayRamp(town: Town, cx: int, cz: int, len: int) returns (rows: int)
    requires town.Valid() && len >= 0
    modifies town.tiles
    ensures 0 <= rows <= len
    ensures forall r :: 0 <= r < rows ==> old(RowOpen(town, cx, cz, r))
    ensures rows < len ==> !old(RowOpen(town, cx, cz, rows))
    ensures forall x, z :: 0 <= x < WORLD_W && 0 <= z < WORLD_H ==>
              town.tiles[x, z] == Ramped(cx, cz, rows, x, z, old(town.tiles[x, z]))
  {
    rows := 0;
    while rows < len
      invariant 0 <= rows <= len
      invariant forall r :: 0 <= r < rows ==> old(RowOpen(town, cx, cz, r))
      invariant forall x, z :: 0 <= x < WORLD_W && 0 <= z < WORLD_H ==>
                  town.tiles[x, z] == Ramped(cx, cz, rows, x, z, old(town.tiles[x, z]))
    {
      var wz := cz + rows;
      if wz < 0 || wz >= WORLD_H {
        return;
      }
      var ex := Clamp(cx, 0, WORLD_W - 1);
      var ez := Clamp(wz + 1, 0, WORLD_H - 1);
      // Laying ramp keeps every tile's walkability, so the exit tile reads as it did before.
      assert IsWalkable(town.tiles[ex, ez].kind) == IsWalkable(old(town.tiles[ex, ez]).kind);
      if !IsWalkable(town.tiles[ex, ez].kind) {
        return;
      }
      label before:
      LayRampRow(town, cx, wz);
      forall x, z | 0 <= x < WORLD_W && 0 <= z < WORLD_H
        ensures town.tiles[x, z] == Ramped(cx, cz, rows + 1, x, z, old(town.tiles[x, z]))
      {
        RampedGrows(cx, cz, rows, x, z, old(town.tiles[x, z]), old@before(town.tiles[x, z]), town.tiles[x, z]);
      }
      rows := rows + 1;
    }
  }

  /** CarveRamp: clear the cliffs, level the sides, then lay the ramp. rows is how many rows
      of ramp the loop laid, as decided on the levelled tiles. */
  method CarveRamp(town: Town, cx: int, cz: int, from: int, len: int) returns (rows: int)
    requires town.Valid() && len >= 0
    modifies town.tiles
    ensures 0 <= rows <= len
    ensures old(LaidWhileOpen(town, NoPlacement, from, cx, cz, len, rows))
    ensures forall x, z :: 0 <= x < WORLD_W && 0 <= z < WORLD_H ==>
              town.tiles[x, z] == RampCarved(cx, cz, len, rows, from, x, z, old(town.tiles[x, z]))
  {
    ClearCliffsInRampCorridor(town, cx, cz, len);
    NormalizeRampSides(town, cx, cz, len, from);
    assert forall r :: RowOpen(town, cx, cz, r) == old(ExitOpens(town, NoPlacement, from, cx, cz, len, r));
    rows := LayRamp(town, cx, cz, len);
  }

  // ── Placement ────────────────────────────────────────────────────────────────

  /** The middle column splitting the town into a west and an east half. */
  const MID_X: int := WORLD_W / 2

  /** The `place` step of PlaceRampsForTier: nothing for an empty list; otherwise one draw picks
      one of the first TOP_PICKS candidates and a ramp is carved there. */
  method PlaceBest(town: Town, rng: Rng, ranked: seq<RampCandidate>, from: int)
    returns (pick: Option<RampCandidate>, rows: int)
    requires town.Valid()
    modifies town.tiles, rng
    ensures pick.Some? <==> |ranked| > 0
    ensures rng.pos == old(rng.pos) + (if |ranked| > 0 then 1 else 0)
    ensures pick.Some? ==> pick.value == ranked[Uniform(rng.raw(old(rng.pos)), 0, Min(TOP_PICKS, |ranked|) - 1)]
    ensures 0 <= rows <= RAMP_LENGTH
    ensures old(RampStops(town, NoPlacement, Placement(pick, rows), from))
    ensures forall x, z :: 0 <= x < WORLD_W && 0 <= z < WORLD_H ==>
              town.tiles[x, z] == Placed(Placement(pick, rows), from, x, z, old(town.tiles[x, z]))
  {
    if |ranked| == 0 {
      return None, 0;
    }
    var limit := Min(TOP_PICKS, |ranked|);
    var k := rng.UniformInt(0, limit - 1);
    var c := ranked[k];
    rows := CarveRamp(town, c.x, c.z, from, RAMP_LENGTH);
    pick := Some(c);
  }

  /** Tile edits of one placement, summarised: every tile is a ramp edit towards tier from, and
      only the corridor of the picked site changes. */
  predicate PlacedAround(pick: Option<RampCandidate>, x: int, z: int)
  {
    pick.Some? && InCorridor(pick.value.x, pick.value.z, RAMP_LENGTH, 3, x, z)
  }

  /** One half's candidates for tiers from/to in columns [minX, maxX), best first. */
  method RankHalf(town: Town, from: int, to: int, minX: int, maxX: int) returns (ranked: seq<RampCandidate>)
    requires town.Valid()
    ensures CandidateList(town, ranked, from, to, minX, maxX) && SortedByScore(ranked)
  {
    var found := FindRampCandidates(town, from, to, minX, maxX);
    RankingKeepsCandidates(town, found, from, to, minX, maxX);
    ranked := SortByScore(found);
  }

  /** Two placements in a row, the east one carved over the west one's result, make one ramp
      edit towards tier from that changes only the two corridors. */
  lemma TwoPlacements(westPick: Option<RampCandidate>, westRows: int, eastPick: Option<RampCandidate>, eastRows: int,
                      from: int, x: int, z: int, t0: Tile, t1: Tile, t2: Tile)
    requires 0 <= westRows <= RAMP_LENGTH && 0 <= eastRows <= RAMP_LENGTH
    requires t1 == if westPick.Some? then RampCarved(westPick.value.x, westPick.value.z, RAMP_LENGTH, westRows, from, x, z, t0) else t0
    requires t2 == if eastPick.Some? then RampCarved(eastPick.value.x, eastPick.value.z, RAMP_LENGTH, eastRows, from, x, z, t1) else t1
    ensures RampEdit(t0, t2, from, from)
    ensures t2 != t0 ==> PlacedAround(westPick, x, z) || PlacedAround(eastPick, x, z)
  {
    if westPick.Some? {
      RampCarvedFacts(westPick.value.x, westPick.value.z, RAMP_LENGTH, westRows, from, x, z, t0);
    }
    if eastPick.Some? {
      RampCarvedFacts(eastPick.value.x, eastPick.value.z, RAMP_LENGTH, eastRows, from, x, z, t1);
    }
    RampEditChains(t0, t1, t2, from, from, from, from, from, from);
  }

  /** Once placement prior has been carved, whether a later placement stopped by the ramp
      loop's rule on the current grid is whether it did so on the old grid after prior. */
  twostate lemma StopsAfterPrior(town: Town, new prior: Placement, new from: int)
    requires town.Valid()
    requires forall x, z :: 0 <= x < WORLD_W && 0 <= z < WORLD_H ==>
               town.tiles[x, z] == Placed(prior, from, x, z, old(town.tiles[x, z]))
    ensures forall p :: RampStops(town, NoPlacement, p, from) <==> old(RampStops(town, prior, p, from))
  {
    forall p
      ensures RampStops(town, NoPlacement, p, from) <==> old(RampStops(town, prior, p, from))
    {
      if p.pick.Some? {
        var c := p.pick.value;
        forall r
          ensures ExitOpens(town, NoPlacement, from, c.x, c.z, RAMP_LENGTH, r)
                  == old(ExitOpens(town, prior, from, c.x, c.z, RAMP_LENGTH, r))
        {
        }
      }
    }
  }

  /** The two placements of one tier: the best of west carved first, then the best of east
      carved over its result, each stopping by the ramp loop's rule on the grid it found. */
  method PlaceBoth(town: Town, rng: Rng, west: seq<RampCandidate>, east: seq<RampCandidate>, from: int)
    returns (westPick: Option<RampCandidate>, eastPick: Option<RampCandidate>, ghost westRows: int, ghost eastRows: int)
    requires town.Valid()
    modifies town.tiles, rng
    ensures westPick.Some? <==> |west| > 0
    ensures eastPick.Some? <==> |east| > 0
    ensures westPick.Some? ==> westPick.value == west[Uniform(rng.raw(old(rng.pos)), 0, Min(TOP_PICKS, |west|) - 1)]
    ensures eastPick.Some? ==> eastPick.value == east[Uniform(rng.raw(old(rng.pos) + (if |west| > 0 then 1 else 0)), 0, Min(TOP_PICKS, |east|) - 1)]
    ensures rng.pos == old(rng.pos) + (if |west| > 0 then 1 else 0) + (if |east| > 0 then 1 else 0)
    ensures 0 <= westRows <= RAMP_LENGTH && 0 <= eastRows <= RAMP_LENGTH
    ensures old(RampStops(town, NoPlacement, Placement(westPick, westRows), from))
    ensures old(RampStops(town, Placement(westPick, westRows), Placement(eastPick, eastRows), from))
    ensures forall x, z {:trigger town.tiles[x, z]} :: 0 <= x < WORLD_W && 0 <= z < WORLD_H ==>
              town.tiles[x, z] == Placed(Placement(eastPick, eastRows), from, x, z,
                                         Placed(Placement(westPick, westRows), from, x, z, old(town.tiles[x, z])))
    ensures forall x, z {:trigger town.tiles[x, z]} :: 0 <= x < WORLD_W && 0 <= z < WORLD_H ==>
              RampEdit(old(town.tiles[x, z]), town.tiles[x, z], from, from)
              && (town.tiles[x, z] != old(town.tiles[x, z]) ==> PlacedAround(westPick, x, z) || PlacedAround(eastPick, x, z))
  {
    var wRows, eRows;
    westPick, wRows := PlaceBest(town, rng, west, from);
    westRows := wRows;
    StopsAfterPrior(town, Placement(westPick, westRows), from);
    ghost var midPos := rng.pos;
    assert midPos == old(rng.pos) + (if |west| > 0 then 1 else 0);
    ghost var eastRaw := rng.raw(midPos);
    eastPick, eRows := PlaceBest(town, rng, east, from);
    eastRows := eRows;
    assert eastPick.Some? ==> eastPick.value == east[Uniform(eastRaw, 0, Min(TOP_PICKS, |east|) - 1)];
    PlacementsAreEdits(town, Placement(westPick, westRows), Placement(eastPick, eastRows), from);
  }

  /** Two placements at the from tier change the grid only by ramp edits, and only around
      their picks. */
  twostate lemma PlacementsAreEdits(town: Town, new west: Placement, new east: Placement, new from: int)
    requires town.Valid() && 0 <= west.rows <= RAMP_LENGTH && 0 <= east.rows <= RAMP_LENGTH
    requires forall x, z {:trigger town.tiles[x, z]} :: 0 <= x < WORLD_W && 0 <= z < WORLD_H ==>
               town.tiles[x, z] == Placed(east, from, x, z, Placed(west, from, x, z, old(town.tiles[x, z])))
    ensures forall x, z {:trigger town.tiles[x, z]} :: 0 <= x < WORLD_W && 0 <= z < WORLD_H ==>
              RampEdit(old(town.tiles[x, z]), town.tiles[x, z], from, from)
              && (town.tiles[x, z] != old(town.tiles[x, z]) ==> PlacedAround(west.pick, x, z) || PlacedAround(east.pick, x, z))
  {
    forall x, z | 0 <= x < WORLD_W && 0 <= z < WORLD_H
      ensures RampEdit(old(town.tiles[x, z]), town.tiles[x, z], from, from)
      ensures town.tiles[x, z] != old(town.tiles[x, z]) ==> PlacedAround(west.pick, x, z) || PlacedAround(east.pick, x, z)
    {
      TwoPlacements(west.pick, west.rows, east.pick, east.rows, from, x, z, old(town.tiles[x, z]),
                    Placed(west, from, x, z, old(town.tiles[x, z])), town.tiles[x, z]);
    }
  }

  /** PlaceRampsForTier: rank both halves' candidates (both found before anything is carved),
      then place in the west half and after it in the east half. */
  method PlaceRampsForTier(town: Town, rng: Rng, from: int, to: int)
    returns (ghost west: seq<RampCandidate>, ghost east: seq<RampCandidate>,
             westPick: Option<RampCandidate>, eastPick: Option<RampCandidate>, ghost westRows: int, ghost eastRows: int)
    requires town.Valid()
    modifies town.tiles, rng
    ensures old(CandidateList(town, west, from, to, 0, MID_X)) && SortedByScore(west)
    ensures old(CandidateList(town, east, from, to, MID_X, WORLD_W)) && SortedByScore(east)
    ensures westPick.Some? <==> |west| > 0
    ensures eastPick.Some? <==> |east| > 0
    ensures westPick.Some? ==> westPick.value == west[Uniform(rng.raw(old(rng.pos)), 0, Min(TOP_PICKS, |west|) - 1)]
    ensures eastPick.Some? ==> eastPick.value == east[Uniform(rng.raw(old(rng.pos) + (if |west| > 0 then 1 else 0)), 0, Min(TOP_PICKS, |east|) - 1)]
    ensures rng.pos == old(rng.pos) + (if |west| > 0 then 1 else 0) + (if |east| > 0 then 1 else 0)
    ensures old(RampStops(town, NoPlacement, Placement(westPick, westRows), from))
    ensures old(RampStops(town, Placement(westPick, westRows), Placement(eastPick, eastRows), from))
    ensures forall x, z {:trigger town.tiles[x, z]} :: 0 <= x < WORLD_W && 0 <= z < WORLD_H ==>
              town.tiles[x, z] == Placed(Placement(eastPick, eastRows), from, x, z,
                                         Placed(Placement(westPick, westRows), from, x, z, old(town.tiles[x, z])))
    ensures forall x, z {:trigger town.tiles[x, z]} :: 0 <= x < WORLD_W && 0 <= z < WORLD_H ==>
              RampEdit(old(town.tiles[x, z]), town.tiles[x, z], from, from)
              && (town.tiles[x, z] != old(town.tiles[x, z]) ==> PlacedAround(westPick, x, z) || PlacedAround(eastPick, x, z))
  {
    var westRanked := RankHalf(town, from, to, 0, MID_X);
    var eastRanked := RankHalf(town, from, to, MID_X, WORLD_W);
    west, east := westRanked, eastRanked;
    westPick, eastPick, westRows, eastRows := PlaceBoth(town, rng, westRanked, eastRanked, from);
  }

  /** The largest elevation on the map, counting from 0 as the source's running maximum does. */
  predicate IsMaxElevation(town: Town, m: int)
    requires town.Valid()
    reads town.tiles
  {
    0 <= m
    && (forall x, z :: 0 <= x < WORLD_W && 0 <= z < WORLD_H ==> town.tiles[x, z].elevation <= m)
    && (m == 0 || exists x, z :: 0 <= x < WORLD_W && 0 <= z < WORLD_H && town.tiles[x, z].elevation == m)
  }

  /** The running maximum of Execute's first loop. */
  method MaxElevation(town: Town) returns (m: int)
    requires town.Valid()
    ensures IsMaxElevation(town, m)
  {
    m := 0;
    var z := 0;
    while z < WORLD_H
      invariant 0 <= z <= WORLD_H && 0 <= m
      invariant forall x, zz :: 0 <= x < WORLD_W && 0 <= zz < z ==> town.tiles[x, zz].elevation <= m
      invariant m == 0 || exists x, zz :: 0 <= x < WORLD_W && 0 <= zz < WORLD_H && town.tiles[x, zz].elevation == m
    {
      var x := 0;
      while x < WORLD_W
        invariant 0 <= x <= WORLD_W && 0 <= m
        invariant forall xx, zz :: 0 <= xx < WORLD_W && 0 <= zz < z ==> town.tiles[xx, zz].elevation <= m
        invariant forall xx :: 0 <= xx < x ==> town.tiles[xx, z].elevation <= m
        invariant m == 0 || exists xx, zz :: 0 <= xx < WORLD_W && 0 <= zz < WORLD_H && town.tiles[xx, zz].elevation == m
      {
        m := Max(m, town.tiles[x, z].elevation);
        x := x + 1;
      }
      z := z + 1;
    }
  }

  /** What one tier of the step did: both halves' candidates, ranked before anything was
      carved, and the placement made in each half. */
  datatype TierOutcome = TierOutcome(westRanked: seq<RampCandidate>, eastRanked: seq<RampCandidate>,
                                     west: Placement, east: Placement)

  /** A tier that did not run. */
  const NoTier: TierOutcome := TierOutcome([], [], NoPlacement, NoPlacement)

  /** How many draws tier o took: one per half that had a candidate. */
  function TierDraws(o: TierOutcome): nat
  {
    (if |o.westRanked| > 0 then 1 else 0) + (if |o.eastRanked| > 0 then 1 else 0)
  }

  /** Tier o ran on town's grid for tiers from/to with its draws from stream position pos on:
      each half's list holds exactly its eligible sites, best first; a half gets a pick exactly
      when its list is not empty, and the pick is the one the half's draw selects among the first
      min(TOP_PICKS, n); the west half draws first; and each ramp stopped by the ramp loop's rule,
      the east one on the grid the west one left. */
  predicate TierRan(town: Town, raw: nat -> nat, pos: nat, from: int, to: int, o: TierOutcome)
    requires town.Valid()
    reads town.tiles
  {
    var ws, es := o.westRanked, o.eastRanked;
    CandidateList(town, ws, from, to, 0, MID_X) && SortedByScore(ws)
    && CandidateList(town, es, from, to, MID_X, WORLD_W) && SortedByScore(es)
    && (o.west.pick.Some? <==> |ws| > 0)
    && (o.east.pick.Some? <==> |es| > 0)
    && (o.west.pick.Some? ==> o.west.pick.value == ws[Uniform(raw(pos), 0, Min(TOP_PICKS, |ws|) - 1)])
    && (o.east.pick.Some? ==>
          o.east.pick.value == es[Uniform(raw(pos + (if |ws| > 0 then 1 else 0)), 0, Min(TOP_PICKS, |es|) - 1)])
    && RampStops(town, NoPlacement, o.west, from) && RampStops(town, o.west, o.east, from)
  }

  /** Two towns with the same tiles agree on which sites are eligible and how they score, so on
      which candidate lists are right. */
  lemma SameTilesSameSites(a: Town, b: Town, from: int, to: int, minX: int, maxX: int)
    requires a.Valid() && b.Valid()
    requires forall x, z :: 0 <= x < WORLD_W && 0 <= z < WORLD_H ==> a.tiles[x, z] == b.tiles[x, z]
    ensures forall cs :: CandidateList(a, cs, from, to, minX, maxX) <==> CandidateList(b, cs, from, to, minX, maxX)
  {
    forall x, z
      ensures Eligible(a, x, z, from, to) == Eligible(b, x, z, from, to)
      ensures Score(a, x, z, from, minX, maxX) == Score(b, x, z, from, minX, maxX)
    {
      assert ClampedTile(a, x, z) == ClampedTile(b, x, z);
      assert ClampedTile(a, x, z + 1) == ClampedTile(b, x, z + 1);
      assert ClampedTile(a, x - 2, z) == ClampedTile(b, x - 2, z);
      assert ClampedTile(a, x + 2, z) == ClampedTile(b, x + 2, z);
      if WaterNearby(a, x, z, WATER_RADIUS) {
        var cx, cz :| x - WATER_RADIUS <= cx <= x + WATER_RADIUS && z - WATER_RADIUS <= cz <= z + WATER_RADIUS
                      && IsInBounds(cx, cz) && IsWaterKind(a.tiles[cx, cz].kind);
        assert b.tiles[cx, cz] == a.tiles[cx, cz];
      }
      if WaterNearby(b, x, z, WATER_RADIUS) {
        var cx, cz :| x - WATER_RADIUS <= cx <= x + WATER_RADIUS && z - WATER_RADIUS <= cz <= z + WATER_RADIUS
                      && IsInBounds(cx, cz) && IsWaterKind(b.tiles[cx, cz].kind);
        assert b.tiles[cx, cz] == a.tiles[cx, cz];
      }
    }
  }

  /** Two towns with the same tiles agree on where every ramp stops. */
  lemma SameTilesSameStops(a: Town, b: Town, from: int)
    requires a.Valid() && b.Valid()
    requires forall x, z :: 0 <= x < WORLD_W && 0 <= z < WORLD_H ==> a.tiles[x, z] == b.tiles[x, z]
    ensures forall prior, p :: RampStops(a, prior, p, from) <==> RampStops(b, prior, p, from)
  {
    forall prior, cx, cz, r
      ensures ExitOpens(a, prior, from, cx, cz, RAMP_LENGTH, r) == ExitOpens(b, prior, from, cx, cz, RAMP_LENGTH, r)
    {
      var ex := Clamp(cx, 0, WORLD_W - 1);
      var ez := Clamp(cz + r + 1, 0, WORLD_H - 1);
      assert a.tiles[ex, ez] == b.tiles[ex, ez];
    }
  }

  /** Two towns with the same tiles agree on what a tier did. */
  lemma SameTilesSameTier(a: Town, b: Town, raw: nat -> nat, pos: nat, from: int, to: int)
    requires a.Valid() && b.Valid()
    requires forall x, z :: 0 <= x < WORLD_W && 0 <= z < WORLD_H ==> a.tiles[x, z] == b.tiles[x, z]
    ensures forall o :: TierRan(a, raw, pos, from, to, o) <==> TierRan(b, raw, pos, from, to, o)
  {
    SameTilesSameSites(a, b, from, to, 0, MID_X);
    SameTilesSameSites(a, b, from, to, MID_X, WORLD_W);
    SameTilesSameStops(a, b, from);
  }

  /** One tier of the step: when the map reaches tier from, rank both halves and place a ramp in
      each half that has a candidate; otherwise nothing is ranked, drawn or carved. The ghost
      before is a copy of the grid the tier started from. */
  method RunTier(town: Town, rng: Rng, maxElevation: int, from: int, to: int)
    returns (ghost o: TierOutcome, ghost before: Town)
    requires town.Valid()
    modifies town.tiles, rng
    ensures maxElevation < from ==> o == NoTier
    ensures maxElevation >= from ==> old(TierRan(town, rng.raw, rng.pos, from, to, o))
    ensures before.Valid() && fresh(before.tiles)
    ensures forall x, z :: 0 <= x < WORLD_W && 0 <= z < WORLD_H ==> before.tiles[x, z] == old(town.tiles[x, z])
    ensures maxElevation >= from ==> TierRan(before, rng.raw, old(rng.pos), from, to, o)
    ensures rng.pos == old(rng.pos) + TierDraws(o)
    ensures o.west.pick.Some? ==> old(GoodCandidate(town, o.west.pick.value, from, to, 0, MID_X))
    ensures o.east.pick.Some? ==> old(GoodCandidate(town, o.east.pick.value, from, to, MID_X, WORLD_W))
    ensures forall x, z :: 0 <= x < WORLD_W && 0 <= z < WORLD_H ==>
              town.tiles[x, z] == Placed(o.east, from, x, z, Placed(o.west, from, x, z, old(town.tiles[x, z])))
              && RampEdit(old(town.tiles[x, z]), town.tiles[x, z], from, from)
  {
    before := new Town.Copy(town);
    SameTilesSameTier(town, before, rng.raw, rng.pos, from, to);
    label copied:
    o := NoTier;
    if maxElevation >= from {
      var ws, es, wp, ep, wr, er := PlaceRampsForTier(town, rng, from, to);
      o := TierOutcome(ws, es, Placement(wp, wr), Placement(ep, er));
      assert wp.Some? ==> wp.value in ws;
      assert ep.Some? ==> ep.value in es;
      assert old(TierRan(town, rng.raw, rng.pos, from, to, o));
      assert old@copied(TierRan(before, rng.raw, rng.pos, from, to, o)) == TierRan(before, rng.raw, old(rng.pos), from, to, o);
    }
  }

  /** ramps::Execute: ramps from tier 1 down to 0 when the map reaches tier 1, then from tier 2
      down to 1 when it reaches tier 2; the maximum is taken once, before either. The tier-1
      outcome is stated on the old grid, the tier-2 one on mid, a ghost copy of the grid the
      tier-1 ramps left; the tier-2 draws follow the tier-1 ones. */
  method Execute(town: Town, rng: Rng)
    returns (maxElevation: int, ghost low: TierOutcome, ghost high: TierOutcome, ghost mid: Town)
    requires town.Valid()
    modifies town.tiles, rng
    ensures old(IsMaxElevation(town, maxElevation))
    ensures maxElevation < 1 ==> low == NoTier
    ensures maxElevation < 2 ==> high == NoTier
    ensures maxElevation >= 1 ==> old(TierRan(town, rng.raw, rng.pos, 1, 0, low))
    ensures mid.Valid() && fresh(mid.tiles)
    ensures forall x, z :: 0 <= x < WORLD_W && 0 <= z < WORLD_H ==>
              mid.tiles[x, z] == Placed(low.east, 1, x, z, Placed(low.west, 1, x, z, old(town.tiles[x, z])))
    ensures maxElevation >= 2 ==> TierRan(mid, rng.raw, old(rng.pos) + TierDraws(low), 2, 1, high)
    ensures rng.pos == old(rng.pos) + TierDraws(low) + TierDraws(high)
    ensures forall x, z :: 0 <= x < WORLD_W && 0 <= z < WORLD_H ==>
              town.tiles[x, z] == Placed(high.east, 2, x, z, Placed(high.west, 2, x, z, mid.tiles[x, z]))
    ensures maxElevation < 1 ==> rng.pos == old(rng.pos)
                                 && forall x, z :: 0 <= x < WORLD_W && 0 <= z < WORLD_H ==> town.tiles[x, z] == old(town.tiles[x, z])
    ensures old(rng.pos) <= rng.pos <= old(rng.pos) + 4
    ensures forall x, z :: 0 <= x < WORLD_W && 0 <= z < WORLD_H ==>
              RampEdit(old(town.tiles[x, z]), town.tiles[x, z], 1, 2)
    ensures maxElevation < 2 ==>
              forall x, z :: 0 <= x < WORLD_W && 0 <= z < WORLD_H ==> RampEdit(old(town.tiles[x, z]), town.tiles[x, z], 1, 1)
  {
    maxElevation := MaxElevation(town);
    ghost var start;
    low, start := RunTier(town, rng, maxElevation, 1, 0);
    ghost var p1 := rng.pos;
    label tierOne:
    high, mid := RunTier(town, rng, maxElevation, 2, 1);
    assert p1 == old(rng.pos) + TierDraws(low);
    assert TierRan(mid, rng.raw, p1, 2, 1, high) == TierRan(mid, rng.raw, old(rng.pos) + TierDraws(low), 2, 1, high);
    forall x, z | 0 <= x < WORLD_W && 0 <= z < WORLD_H
      ensures RampEdit(old(town.tiles[x, z]), town.tiles[x, z], 1, 2)
      ensures maxElevation < 2 ==> RampEdit(old(town.tiles[x, z]), town.tiles[x, z], 1, 1)
    {
      RampEditChains(old(town.tiles[x, z]), old@tierOne(town.tiles[x, z]), town.tiles[x, z], 1, 1, 2, 2, 1, 2);
    }
  }

}
