/** The pond step (PondGenerationStep.cpp): a random start cell, then a breadth-first flood fill
    that turns tiles into water, spreading to each on-map neighbour with a fixed chance, until
    the queue runs dry or the pond reaches its size limit. */
module Ponds {
  import opened Grid
  import opened Random
  import opened Config
  import opened TownModel

  /** How far the start cell stays from every edge. */
  const POND_MARGIN: int := 5

  /** Some cell of carved is a 4-neighbour of c. */
  predicate NextToCarved(c: Coord, carved: seq<Coord>)
  {
    exists j :: 0 <= j < |carved| && Manhattan(carved[j], c) == 1
  }

  /** Cell i of carved is a 4-neighbour of an earlier one. */
  predicate JoinsEarlier(carved: seq<Coord>, i: int)
    requires 0 <= i < |carved|
  {
    exists j :: 0 <= j < i && Manhattan(carved[j], carved[i]) == 1
  }

  /** carved grew 4-connected from start: start first, every later cell next to an earlier one. */
  predicate GrownFrom(carved: seq<Coord>, start: Coord)
  {
    (|carved| > 0 ==> carved[0] == start)
    && forall i :: 0 < i < |carved| ==> JoinsEarlier(carved, i)
  }

  /** No cell is carved twice. */
  predicate Distinct(carved: seq<Coord>)
  {
    forall i, j :: 0 <= i < j < |carved| ==> carved[i] != carved[j]
  }

  /** A pond grown from start lies within |carved| - 1 steps of it: cell i is at most i steps
      away, so the pond fits in a diamond of radius maxPondSize - 1 around the start. */
  lemma {:induction false} GrownStaysNear(carved: seq<Coord>, start: Coord, i: int)
    requires GrownFrom(carved, start) && 0 <= i < |carved|
    ensures Manhattan(carved[i], start) <= i
    decreases i
  {
    if i > 0 {
      assert JoinsEarlier(carved, i);
      var j :| 0 <= j < i && Manhattan(carved[j], carved[i]) == 1;
      GrownStaysNear(carved, start, j);
    }
  }

  /** Every queued cell is on the map and is the start, while nothing is carved yet, or a
      neighbour of a carved cell. */
  predicate QueueGrounded(q: seq<Coord>, start: Coord, carved: seq<Coord>)
  {
    forall i :: 0 <= i < |q| ==>
      IsInBounds(q[i].x, q[i].z) && ((|carved| == 0 && q[i] == start) || NextToCarved(q[i], carved))
  }

  /** Tile t at (x, z) once the cells of carved are water: only the kind changes. */
  function Flooded(carved: seq<Coord>, x: int, z: int, t: Tile): Tile
  {
    if Coord(x, z) in carved then Tile(WATER, t.elevation) else t
  }

  /** The cells the spreading rolls for nbrs queue, starting at stream position pos, and the
      position after them: an on-map neighbour costs one roll in [0, 99] and is queued when the
      roll is below chance; an off-map one costs nothing. */
  function Spreading(raw: nat -> nat, pos: nat, nbrs: seq<Coord>, chance: int): (r: (seq<Coord>, nat))
    ensures pos <= r.1 <= pos + |nbrs|
    ensures |r.0| <= r.1 - pos
    decreases |nbrs|
  {
    if |nbrs| == 0 then ([], pos)
    else
      var p := Spreading(raw, pos, nbrs[..|nbrs| - 1], chance);
      var n := nbrs[|nbrs| - 1];
      if IsInBounds(n.x, n.z) then
        (p.0 + (if Uniform(raw(p.1), 0, 99) < chance then [n] else []), p.1 + 1)
      else p
  }

  /** The on-map cells of nbrs, in order. */
  function OnMap(nbrs: seq<Coord>): (r: seq<Coord>)
    ensures forall c :: c in r <==> c in nbrs && IsInBounds(c.x, c.z)
    decreases |nbrs|
  {
    if |nbrs| == 0 then []
    else
      var init := OnMap(nbrs[..|nbrs| - 1]);
      var n := nbrs[|nbrs| - 1];
      assert nbrs == nbrs[..|nbrs| - 1] + [n];
      if IsInBounds(n.x, n.z) then init + [n] else init
  }

  /** The spreading draws exactly one roll per on-map neighbour and queues only on-map
      neighbours: none at a chance of 0 or less, every one at a chance of 100 or more. */
  lemma {:induction false} SpreadingRollsOnMap(raw: nat -> nat, pos: nat, nbrs: seq<Coord>, chance: int)
    ensures Spreading(raw, pos, nbrs, chance).1 == pos + |OnMap(nbrs)|
    ensures forall c :: c in Spreading(raw, pos, nbrs, chance).0 ==> c in OnMap(nbrs)
    ensures chance <= 0 ==> Spreading(raw, pos, nbrs, chance).0 == []
    ensures chance >= 100 ==> Spreading(raw, pos, nbrs, chance).0 == OnMap(nbrs)
    decreases |nbrs|
  {
    if |nbrs| > 0 {
      SpreadingRollsOnMap(raw, pos, nbrs[..|nbrs| - 1], chance);
    }
  }

  /** Spreading over one more neighbour is the spreading over the ones before it followed by
      that neighbour's roll, when it is on the map. */
  lemma SpreadingSnoc(raw: nat -> nat, pos: nat, nbrs: seq<Coord>, chance: int, d: int)
    requires 0 <= d < |nbrs|
    ensures var p := Spreading(raw, pos, nbrs[..d], chance);
            Spreading(raw, pos, nbrs[..d + 1], chance)
            == if IsInBounds(nbrs[d].x, nbrs[d].z)
               then (p.0 + (if Uniform(raw(p.1), 0, 99) < chance then [nbrs[d]] else []), p.1 + 1)
               else p
  {
    assert nbrs[..d + 1][..d] == nbrs[..d];
  }

  /** One spreading roll for the on-map neighbour n of the newest carved cell: n is queued
      when the roll in [0, 99] is below chance. */
  method RollNeighbor(rng: Rng, n: Coord, chance: int, q0: seq<Coord>, ghost start: Coord, ghost carved: seq<Coord>)
    returns (q: seq<Coord>)
    requires IsInBounds(n.x, n.z)
    requires |carved| > 0 && Manhattan(carved[|carved| - 1], n) == 1
    requires QueueGrounded(q0, start, carved)
    modifies rng
    ensures q == q0 + (if Uniform(rng.raw(old(rng.pos)), 0, 99) < chance then [n] else [])
    ensures rng.pos == old(rng.pos) + 1
    ensures QueueGrounded(q, start, carved)
  {
    q := q0;
    var roll := rng.UniformInt(0, 99);
    if roll < chance {
      q := q + [n];
    }
  }

  /** The spreading rolls of one carved cell over its neighbours east, west, south, north. */
  method Spread(rng: Rng, curr: Coord, spreadChance: int, q0: seq<Coord>, ghost start: Coord, ghost carved: seq<Coord>)
    returns (q: seq<Coord>)
    requires |carved| > 0 && carved[|carved| - 1] == curr
    requires QueueGrounded(q0, start, carved)
    modifies rng
    ensures q == q0 + Spreading(rng.raw, old(rng.pos), GetNeighbors4(curr.x, curr.z), spreadChance).0
    ensures rng.pos == Spreading(rng.raw, old(rng.pos), GetNeighbors4(curr.x, curr.z), spreadChance).1
    ensures QueueGrounded(q, start, carved)
    ensures |q0| <= |q| <= |q0| + 4 && q[..|q0|] == q0
    ensures old(rng.pos) <= rng.pos <= old(rng.pos) + 4
  {
    q := q0;
    var nbrs := GetNeighbors4(curr.x, curr.z);
    ghost var pos0 := rng.pos;
    var d := 0;
    while d < 4
      invariant 0 <= d <= 4
      invariant q == q0 + Spreading(rng.raw, pos0, nbrs[..d], spreadChance).0
      invariant rng.pos == Spreading(rng.raw, pos0, nbrs[..d], spreadChance).1
      invariant QueueGrounded(q, start, carved)
    {
      var n := nbrs[d];
      SpreadingSnoc(rng.raw, pos0, nbrs, spreadChance, d);
      if 0 <= n.x < WORLD_W && 0 <= n.z < WORLD_H {
        q := RollNeighbor(rng, n, spreadChance, q, start, carved);
      }
      d := d + 1;
    }
    assert nbrs[..4] == nbrs;
    assert q[..|q0|] == q0;
  }

  /** The on-map cells that are water in grid g. */
  ghost function WaterCells(g: Snapshot): iset<Coord>
    requires IsGrid(g)
  {
    iset c: Coord | IsInBounds(c.x, c.z) && g[c.x][c.z].kind == WATER
  }

  /** The flood fill's queue run, from queue q with carved already flooded and the stream at
      pos, over a grid whose water before the step is wet: it stops when the queue runs dry or
      limit cells are carved; otherwise the head is dequeued, skipped when it is water (wet or
      carved earlier), and else carved, queueing the neighbours its rolls select. The result is
      the carved cells and the stream position at the stop. */
  ghost function PondRun(raw: nat -> nat, pos: nat, q: seq<Coord>, carved: seq<Coord>, limit: int,
                         wet: iset<Coord>, chance: int): (r: (seq<Coord>, nat))
    decreases limit - |carved|, |q|
  {
    if |q| == 0 || |carved| >= limit then (carved, pos)
    else if q[0] in wet || q[0] in carved then PondRun(raw, pos, q[1..], carved, limit, wet, chance)
    else
      var s := Spreading(raw, pos, GetNeighbors4(q[0].x, q[0].z), chance);
      PondRun(raw, s.1, q[1..] + s.0, carved + [q[0]], limit, wet, chance)
  }

  /** The run only adds to the carved cells, never past the limit, and draws at most four rolls
      per cell it carves. */
  lemma {:induction false} PondRunGrows(raw: nat -> nat, pos: nat, q: seq<Coord>, carved: seq<Coord>, limit: int,
                                        wet: iset<Coord>, chance: int)
    ensures var r := PondRun(raw, pos, q, carved, limit, wet, chance);
            |carved| <= |r.0| <= Max(|carved|, limit) && r.0[..|carved|] == carved
            && pos <= r.1 <= pos + 4 * (|r.0| - |carved|)
    decreases limit - |carved|, |q|
  {
    if |q| == 0 || |carved| >= limit {
    } else if q[0] in wet || q[0] in carved {
      PondRunGrows(raw, pos, q[1..], carved, limit, wet, chance);
    } else {
      var s := Spreading(raw, pos, GetNeighbors4(q[0].x, q[0].z), chance);
      PondRunGrows(raw, s.1, q[1..] + s.0, carved + [q[0]], limit, wet, chance);
      var r := PondRun(raw, s.1, q[1..] + s.0, carved + [q[0]], limit, wet, chance);
      assert r.0[..|carved|] == r.0[..|carved| + 1][..|carved|];
    }
  }

  /** One turn of the run: a dequeued cell that is water is skipped. */
  lemma PondRunSkips(raw: nat -> nat, pos: nat, q: seq<Coord>, carved: seq<Coord>, limit: int,
                     wet: iset<Coord>, chance: int)
    requires |q| > 0 && |carved| < limit && (q[0] in wet || q[0] in carved)
    ensures PondRun(raw, pos, q, carved, limit, wet, chance) == PondRun(raw, pos, q[1..], carved, limit, wet, chance)
  {
  }

  /** One turn of the run: a dequeued dry cell is carved and queues what its rolls select. */
  lemma PondRunCarves(raw: nat -> nat, pos: nat, q: seq<Coord>, carved: seq<Coord>, limit: int,
                      wet: iset<Coord>, chance: int)
    requires |q| > 0 && |carved| < limit && q[0] !in wet && q[0] !in carved
    ensures var s := Spreading(raw, pos, GetNeighbors4(q[0].x, q[0].z), chance);
            PondRun(raw, pos, q, carved, limit, wet, chance)
            == PondRun(raw, s.1, q[1..] + s.0, carved + [q[0]], limit, wet, chance)
  {
  }

  /** A larger size limit only lets the same run go on: the pond grown under limit is a prefix
      of the pond grown under limit + 1, drawn from the same stream. */
  lemma {:induction false} PondRunLimitPrefix(raw: nat -> nat, pos: nat, q: seq<Coord>, carved: seq<Coord>,
                                              limit: int, wet: iset<Coord>, chance: int)
    requires |carved| <= limit
    ensures var small := PondRun(raw, pos, q, carved, limit, wet, chance).0;
            var large := PondRun(raw, pos, q, carved, limit + 1, wet, chance).0;
            |small| <= |large| && large[..|small|] == small
    decreases limit - |carved|, |q|
  {
    if |q| == 0 || |carved| >= limit {
      PondRunGrows(raw, pos, q, carved, limit + 1, wet, chance);
    } else if q[0] in wet || q[0] in carved {
      PondRunLimitPrefix(raw, pos, q[1..], carved, limit, wet, chance);
    } else {
      var s := Spreading(raw, pos, GetNeighbors4(q[0].x, q[0].z), chance);
      PondRunLimitPrefix(raw, s.1, q[1..] + s.0, carved + [q[0]], limit, wet, chance);
    }
  }

  /** With a spread chance of 0 or less nothing is ever queued after the start, so the pond is
      the start cell alone (or nothing, when it is water or the limit is 0), after one roll per
      on-map neighbour of the start. */
  lemma NoSpreadFloodsOnlyStart(raw: nat -> nat, pos: nat, start: Coord, limit: int, wet: iset<Coord>, chance: int)
    requires chance <= 0
    ensures var r := PondRun(raw, pos, [start], [], limit, wet, chance);
            r.0 == (if limit > 0 && start !in wet then [start] else [])
            && r.1 == pos + (if limit > 0 && start !in wet then |OnMap(GetNeighbors4(start.x, start.z))| else 0)
  {
    SpreadingRollsOnMap(raw, pos, GetNeighbors4(start.x, start.z), chance);
  }

  /** With a spread chance of 100 or more every on-map neighbour of a carved cell is queued:
      from a dry start with room for two cells, the second cell carved is the start's first
      on-map neighbour that is not water, in east, west, south, north order. */
  lemma FullSpreadTakesFirstDryNeighbour(raw: nat -> nat, pos: nat, start: Coord, limit: int, wet: iset<Coord>,
                                         chance: int, k: int)
    requires chance >= 100 && limit >= 2 && start !in wet
    requires var nb := OnMap(GetNeighbors4(start.x, start.z));
             0 <= k < |nb| && nb[k] !in wet && forall i :: 0 <= i < k ==> nb[i] in wet
    ensures var r := PondRun(raw, pos, [start], [], limit, wet, chance).0;
            |r| >= 2 && r[..2] == [start, OnMap(GetNeighbors4(start.x, start.z))[k]]
  {
    var nbrs := GetNeighbors4(start.x, start.z);
    var nb := OnMap(nbrs);
    SpreadingRollsOnMap(raw, pos, nbrs, chance);
    var s := Spreading(raw, pos, nbrs, chance);
    Neighbors4Exact(start.x, start.z);
    assert nb[k] in nbrs;
    PondRunCarves(raw, pos, [start], [], limit, wet, chance);
    assert [start][1..] + s.0 == nb && [] + [start] == [start];
    var r := PondRun(raw, s.1, nb, [start], limit, wet, chance).0;
    assert PondRun(raw, pos, [start], [], limit, wet, chance).0 == r;
    SkipToDry(raw, s.1, nb, [start], limit, wet, chance, k);
    assert r[..2] == [start] + [nb[k]] == [start, nb[k]];
  }

  /** The queue q, whose first k cells are water or already carved, is dequeued up to cell k,
      which is then carved next. */
  lemma {:induction false} SkipToDry(raw: nat -> nat, pos: nat, q: seq<Coord>, carved: seq<Coord>, limit: int,
                                     wet: iset<Coord>, chance: int, k: int)
    requires |carved| < limit && 0 <= k < |q| && q[k] !in wet && q[k] !in carved
    requires forall i :: 0 <= i < k ==> q[i] in wet || q[i] in carved
    ensures var r := PondRun(raw, pos, q, carved, limit, wet, chance).0;
            |r| > |carved| && r[..|carved| + 1] == carved + [q[k]]
    decreases k
  {
    if k > 0 {
      assert q[0] in wet || q[0] in carved;
      SkipToDry(raw, pos, q[1..], carved, limit, wet, chance, k - 1);
    } else {
      var s := Spreading(raw, pos, GetNeighbors4(q[0].x, q[0].z), chance);
      PondRunGrows(raw, s.1, q[1..] + s.0, carved + [q[0]], limit, wet, chance);
    }
  }

  /** Carving a dequeued cell that is not carved yet keeps the growth connected and distinct and
      leaves every queued cell grounded. */
  lemma AppendCarved(prev: seq<Coord>, curr: Coord, start: Coord, q: seq<Coord>)
    requires GrownFrom(prev, start) && Distinct(prev) && curr !in prev
    requires (|prev| == 0 && curr == start) || NextToCarved(curr, prev)
    requires QueueGrounded(q, start, prev) && (|prev| == 0 ==> |q| == 0)
    ensures GrownFrom(prev + [curr], start) && Distinct(prev + [curr])
    ensures QueueGrounded(q, start, prev + [curr])
  {
    var carved := prev + [curr];
    assert carved[..|prev|] == prev;
    if |prev| > 0 {
      var j :| 0 <= j < |prev| && Manhattan(prev[j], curr) == 1;
      assert carved[j] == prev[j];
      assert JoinsEarlier(carved, |prev|);
    }
    forall i | 0 < i < |prev|
      ensures JoinsEarlier(carved, i)
    {
      assert JoinsEarlier(prev, i);
      var j :| 0 <= j < i && Manhattan(prev[j], prev[i]) == 1;
      assert carved[j] == prev[j] && carved[i] == prev[i];
    }
    forall i | 0 <= i < |q|
      ensures NextToCarved(q[i], carved)
    {
      assert NextToCarved(q[i], prev);
      var j :| 0 <= j < |prev| && Manhattan(prev[j], q[i]) == 1;
      assert carved[j] == prev[j];
    }
  }

  /** The flood fill's bookkeeping: the pond grew connected and without repeats from start,
      over on-map cells that were not water before the step, and the queue is grounded. */
  predicate Growing(q: seq<Coord>, start: Coord, carved: seq<Coord>, wet: iset<Coord>)
  {
    QueueGrounded(q, start, carved) && Distinct(carved) && GrownFrom(carved, start)
    && forall i :: 0 <= i < |carved| ==> IsInBounds(carved[i].x, carved[i].z) && carved[i] !in wet
  }

  /** A dequeued cell that is not water yet joins the pond and spreads to its neighbours: the
      queue grows by exactly the neighbours its rolls select, and the bookkeeping is kept. */
  method JoinAndSpread(rng: Rng, curr: Coord, spreadChance: int, q0: seq<Coord>, ghost start: Coord,
                       ghost prev: seq<Coord>, ghost wet: iset<Coord>)
    returns (q: seq<Coord>)
    requires Growing(q0, start, prev, wet) && curr !in prev && curr !in wet && IsInBounds(curr.x, curr.z)
    requires (|prev| == 0 && curr == start) || NextToCarved(curr, prev)
    requires |prev| == 0 ==> |q0| == 0
    modifies rng
    ensures Growing(q, start, prev + [curr], wet)
    ensures q == q0 + Spreading(rng.raw, old(rng.pos), GetNeighbors4(curr.x, curr.z), spreadChance).0
    ensures rng.pos == Spreading(rng.raw, old(rng.pos), GetNeighbors4(curr.x, curr.z), spreadChance).1
  {
    AppendCarved(prev, curr, start, q0);
    q := Spread(rng, curr, spreadChance, q0, start, prev + [curr]);
    var carved := prev + [curr];
    forall i | 0 <= i < |carved|
      ensures IsInBounds(carved[i].x, carved[i].z) && carved[i] !in wet
    {
      if i < |prev| {
        assert carved[i] == prev[i];
      }
    }
  }

  /** The town's grid is g0 with the cells of carved flooded. */
  predicate FloodedFrom(town: Town, g0: Snapshot, carved: seq<Coord>)
    requires town.Valid() && IsGrid(g0)
    reads town.tiles
  {
    forall x, z :: 0 <= x < WORLD_W && 0 <= z < WORLD_H ==> town.tiles[x, z] == Flooded(carved, x, z, g0[x][z])
  }

  /** One turn of the flood fill's loop: dequeue the head; skip it when it is water, otherwise
      flood it, count it and spread from it. The turn takes the run one step further. */
  method Visit(town: Town, rng: Rng, config: TownConfig, q0: seq<Coord>, count0: int,
               ghost start: Coord, ghost carved0: seq<Coord>, ghost g0: Snapshot, ghost wet: iset<Coord>)
    returns (q: seq<Coord>, count: int, ghost carved: seq<Coord>)
    requires town.Valid() && IsGrid(g0) && wet == WaterCells(g0)
    requires |q0| > 0 && count0 == |carved0| < config.maxPondSize
    requires Growing(q0, start, carved0, wet) && FloodedFrom(town, g0, carved0)
    requires |carved0| == 0 ==> q0 == [start] || start in wet
    modifies town.tiles, rng
    ensures count == |carved| && Growing(q, start, carved, wet) && FloodedFrom(town, g0, carved)
    ensures |carved| == 0 ==> q == [start] || start in wet
    ensures (carved == carved0 && |q| < |q0|) || |carved| == |carved0| + 1
    ensures PondRun(rng.raw, rng.pos, q, carved, config.maxPondSize, wet, config.pondSpreadChance)
            == PondRun(rng.raw, old(rng.pos), q0, carved0, config.maxPondSize, wet, config.pondSpreadChance)
  {
    var curr := q0[0];
    q := q0[1..];
    count := count0;
    carved := carved0;
    assert IsInBounds(curr.x, curr.z);
    var t := town.tiles[curr.x, curr.z];
    assert t == Flooded(carved0, curr.x, curr.z, g0[curr.x][curr.z]);
    if t.kind == WATER {
      PondRunSkips(rng.raw, rng.pos, q0, carved0, config.maxPondSize, wet, config.pondSpreadChance);
      return;
    }
    PondRunCarves(rng.raw, rng.pos, q0, carved0, config.maxPondSize, wet, config.pondSpreadChance);
    town.tiles[curr.x, curr.z] := Tile(WATER, t.elevation);
    carved := carved0 + [curr];
    count := count0 + 1;
    forall x, z | 0 <= x < WORLD_W && 0 <= z < WORLD_H
      ensures town.tiles[x, z] == Flooded(carved, x, z, g0[x][z])
    {
      if x != curr.x || z != curr.z {
        assert town.tiles[x, z] == old(town.tiles[x, z]) == Flooded(carved0, x, z, g0[x][z]);
      }
    }
    q := JoinAndSpread(rng, curr, config.pondSpreadChance, q, start, carved0, wet);
  }

  /** ponds::Execute. The start column is drawn in [5, WORLD_W - 6], then the start row in
      [5, WORLD_H - 6]. A dequeued cell that is already water is skipped and not counted;
      otherwise it turns to water (its elevation stays), counts towards maxPondSize, and spreads. */
  method Execute(town: Town, rng: Rng, config: TownConfig) returns (ghost start: Coord, ghost carved: seq<Coord>)
    requires town.Valid()
    modifies town.tiles, rng
    ensures start == Coord(Uniform(rng.raw(old(rng.pos)), POND_MARGIN, WORLD_W - 1 - POND_MARGIN),
                           Uniform(rng.raw(old(rng.pos) + 1), POND_MARGIN, WORLD_H - 1 - POND_MARGIN))
    ensures POND_MARGIN <= start.x <= WORLD_W - 1 - POND_MARGIN && POND_MARGIN <= start.z <= WORLD_H - 1 - POND_MARGIN
    ensures |carved| <= Max(0, config.maxPondSize)
    ensures Distinct(carved) && GrownFrom(carved, start)
    ensures forall i :: 0 <= i < |carved| ==>
              IsInBounds(carved[i].x, carved[i].z) && old(town.tiles[carved[i].x, carved[i].z]).kind != WATER
    ensures forall x, z :: 0 <= x < WORLD_W && 0 <= z < WORLD_H ==>
              town.tiles[x, z] == Flooded(carved, x, z, old(town.tiles[x, z]))
    ensures old(rng.pos) + 2 <= rng.pos <= old(rng.pos) + 2 + 4 * |carved|
    ensures config.maxPondSize > 0 && old(town.tiles[start.x, start.z]).kind != WATER ==> |carved| > 0 && carved[0] == start
    ensures (carved, rng.pos) == PondRun(rng.raw, old(rng.pos) + 2, [start], [], config.maxPondSize,
                                         WaterCells(old(Tiles(town))), config.pondSpreadChance)
  {
    ghost var g0 := Tiles(town);
    ghost var wet := WaterCells(g0);
    var sx := rng.UniformInt(POND_MARGIN, WORLD_W - 1 - POND_MARGIN);
    var sz := rng.UniformInt(POND_MARGIN, WORLD_H - 1 - POND_MARGIN);
    var first := Coord(sx, sz);
    start := first;
    var q: seq<Coord> := [first];
    var carvedCount := 0;
    carved := [];
    ghost var run := PondRun(rng.raw, rng.pos, q, carved, config.maxPondSize, wet, config.pondSpreadChance);
    while |q| > 0 && carvedCount < config.maxPondSize
      invariant carvedCount == |carved|
      invariant Growing(q, start, carved, wet) && FloodedFrom(town, g0, carved)
      invariant |carved| == 0 ==> q == [start] || start in wet
      invariant PondRun(rng.raw, rng.pos, q, carved, config.maxPondSize, wet, config.pondSpreadChance) == run
      decreases config.maxPondSize - carvedCount, |q|
    {
      q, carvedCount, carved := Visit(town, rng, config, q, carvedCount, start, carved, g0, wet);
    }
    PondRunGrows(rng.raw, old(rng.pos) + 2, [start], [], config.maxPondSize, wet, config.pondSpreadChance);
    forall i | 0 <= i < |carved|
      ensures old(town.tiles[carved[i].x, carved[i].z]).kind != WATER
    {
      assert carved[i] !in wet;
    }
  }
}
