/** The fixed world layout, the tile data model and the pure coordinate math shared by every
    generation step: Town's layout constants, Acre::SIZE, TileType/Tile, WorldToTile (Town.cpp)
    and the inline helpers of WorldGenUtils.h/.cpp. */
module Grid {

  // ── Layout constants ─────────────────────────────────────────────────────────
  const WIDTH: int := 5            // acres across
  const HEIGHT: int := 7           // acres down; row 6 is the pure-ocean row
  const SIZE: int := 16            // tiles per acre side
  const BEACH_ACRE_ROW: int := HEIGHT - 2
  const WORLD_W: int := WIDTH * SIZE
  const WORLD_H: int := HEIGHT * SIZE

  /** One enum covering every tile kind any generation step names. */
  datatype TileType =
    | EMPTY | GRASS | DIRT | WATER | TREE | ROCK | BUILDING | CLIFF
    | SAND | OCEAN | RIVER | RIVER_MOUTH | WATERFALL | POND | RAMP

  /** A tile: its kind and its elevation tier (an int8_t in the source). */
  datatype Tile = Tile(kind: TileType, elevation: int)

  /** An integer 2D coordinate (glm::ivec2; its `y` is the world z axis). */
  datatype Coord = Coord(x: int, z: int)

  function Min(a: int, b: int): int { if a <= b then a else b }
  function Max(a: int, b: int): int { if a >= b then a else b }
  function Abs(a: int): int { if a >= 0 then a else -a }

  /** std::clamp. */
  function Clamp(v: int, lo: int, hi: int): (r: int)
    requires lo <= hi
    ensures lo <= r <= hi
  {
    if v < lo then lo else if v > hi then hi else v
  }

  /** C++ integer division, which truncates toward zero. */
  function TruncDiv(a: int, b: int): int
    requires b > 0
  {
    if a >= 0 then a / b else -((-a) / b)
  }

  /** C++ `%`, whose sign follows the dividend. */
  function TruncMod(a: int, b: int): int
    requires b > 0
  {
    a - b * TruncDiv(a, b)
  }

  // ── Coordinate conversion ────────────────────────────────────────────────────

  /** The world position of an (acre, local) address. */
  function Flatten(acre: Coord, local: Coord): Coord
  {
    Coord(acre.x * SIZE + local.x, acre.z * SIZE + local.z)
  }

  predicate IsInBounds(wx: int, wz: int)
  {
    0 <= wx < WORLD_W && 0 <= wz < WORLD_H
  }

  /** Town::WorldToTile on the already-floored position: clamp onto the map, then split into
      (acre, local). The clamped values are non-negative, so C++ and Dafny division agree. */
  function WorldToTile(x: int, z: int): (r: (Coord, Coord))
    ensures 0 <= r.0.x < WIDTH && 0 <= r.0.z < HEIGHT
    ensures 0 <= r.1.x < SIZE && 0 <= r.1.z < SIZE
  {
    var cx := Clamp(x, 0, WORLD_W - 1);
    var cz := Clamp(z, 0, WORLD_H - 1);
    (Coord(cx / SIZE, cz / SIZE), Coord(cx % SIZE, cz % SIZE))
  }

  /** WorldToTile addresses the clamped position: on the map that is (x, z) itself, and off the
      map it is the nearest edge tile. */
  lemma WorldToTileAddressesClamped(x: int, z: int)
    ensures Flatten(WorldToTile(x, z).0, WorldToTile(x, z).1)
            == Coord(Clamp(x, 0, WORLD_W - 1), Clamp(z, 0, WORLD_H - 1))
    ensures IsInBounds(x, z) ==> Flatten(WorldToTile(x, z).0, WorldToTile(x, z).1) == Coord(x, z)
  {
  }

  /** A position is on the map exactly when WorldToTile's clamp leaves it where it is. */
  lemma InBoundsIffUnclamped(x: int, z: int)
    ensures IsInBounds(x, z) <==> Flatten(WorldToTile(x, z).0, WorldToTile(x, z).1) == Coord(x, z)
  {
    WorldToTileAddressesClamped(x, z);
  }

  /** GetTileCoords: the unclamped split with C++ truncating division. */
  function GetTileCoords(wx: int, wz: int): (r: (Coord, Coord))
  {
    (Coord(TruncDiv(wx, SIZE), TruncDiv(wz, SIZE)), Coord(TruncMod(wx, SIZE), TruncMod(wz, SIZE)))
  }

  /** acre * SIZE + local always rebuilds the input; the local part lies in [0, SIZE) for a
      non-negative coordinate and in (-SIZE, 0] for a negative one. */
  lemma GetTileCoordsRoundTrip(wx: int, wz: int)
    ensures Flatten(GetTileCoords(wx, wz).0, GetTileCoords(wx, wz).1) == Coord(wx, wz)
    ensures wx >= 0 ==> 0 <= GetTileCoords(wx, wz).1.x < SIZE
    ensures wz >= 0 ==> 0 <= GetTileCoords(wx, wz).1.z < SIZE
    ensures wx < 0 ==> -SIZE < GetTileCoords(wx, wz).1.x <= 0
    ensures wz < 0 ==> -SIZE < GetTileCoords(wx, wz).1.z <= 0
  {
  }

  /** On the map the clamping and the unclamped conversions address the same tile. */
  lemma ConversionsAgreeOnMap(wx: int, wz: int)
    requires IsInBounds(wx, wz)
    ensures GetTileCoords(wx, wz) == WorldToTile(wx, wz)
    ensures 0 <= GetTileCoords(wx, wz).0.x < WIDTH && 0 <= GetTileCoords(wx, wz).0.z < HEIGHT
  {
  }

  predicate IsAnyWater(t: TileType)
  {
    t == RIVER || t == RIVER_MOUTH || t == OCEAN || t == WATERFALL || t == POND
  }

  /** The two kinds the river step carves. */
  predicate IsRiverKind(t: TileType)
  {
    t == RIVER || t == RIVER_MOUTH
  }

  // ── Neighbourhoods ───────────────────────────────────────────────────────────

  function Chebyshev(a: Coord, b: Coord): int
  {
    Max(Abs(a.x - b.x), Abs(a.z - b.z))
  }

  function Manhattan(a: Coord, b: Coord): int
  {
    Abs(a.x - b.x) + Abs(a.z - b.z)
  }

  /** GetNeighbors4: east, west, south, north. */
  function GetNeighbors4(wx: int, wz: int): (n: seq<Coord>)
  {
    [Coord(wx + 1, wz), Coord(wx - 1, wz), Coord(wx, wz + 1), Coord(wx, wz - 1)]
  }

  /** The four neighbours are exactly the positions at Manhattan distance 1. */
  lemma Neighbors4Exact(wx: int, wz: int)
    ensures |GetNeighbors4(wx, wz)| == 4
    ensures forall p :: p in GetNeighbors4(wx, wz) <==> Manhattan(p, Coord(wx, wz)) == 1
  {
    var n := GetNeighbors4(wx, wz);
    forall p | Manhattan(p, Coord(wx, wz)) == 1
      ensures p in n
    {
      if p.x == wx + 1 { assert p == n[0]; }
      else if p.x == wx - 1 { assert p == n[1]; }
      else if p.z == wz + 1 { assert p == n[2]; }
      else { assert p == n[3]; }
    }
  }

  /** The eight cells around (wx, wz) in GetNeighbors8's scan order (dz-major, then dx). */
  function Ring8(wx: int, wz: int): (r: seq<Coord>)
  {
    [Coord(wx - 1, wz - 1), Coord(wx, wz - 1), Coord(wx + 1, wz - 1),
     Coord(wx - 1, wz), Coord(wx + 1, wz),
     Coord(wx - 1, wz + 1), Coord(wx, wz + 1), Coord(wx + 1, wz + 1)]
  }

  /** The ring holds 8 distinct positions, all at Chebyshev distance 1, and every such
      position; so the centre is never among them. */
  lemma Ring8Exact(wx: int, wz: int)
    ensures |Ring8(wx, wz)| == 8
    ensures forall i :: 0 <= i < 8 ==> Chebyshev(Ring8(wx, wz)[i], Coord(wx, wz)) == 1
    ensures forall i, j :: 0 <= i < j < 8 ==> Ring8(wx, wz)[i] != Ring8(wx, wz)[j]
    ensures forall p :: Chebyshev(p, Coord(wx, wz)) == 1 ==> p in Ring8(wx, wz)
    ensures Coord(wx, wz) !in Ring8(wx, wz)
  {
    var r := Ring8(wx, wz);
    forall p | Chebyshev(p, Coord(wx, wz)) == 1
      ensures p in r
    {
      var i := (p.z - wz + 1) * 3 + (p.x - wx + 1);
      var k := if i > 4 then i - 1 else i;
      assert r[k] == p;
    }
  }

  /** GetNeighbors8: pushes every (dx, dz) in [-1, 1]^2 except (0, 0), dz-major. */
  method GetNeighbors8(wx: int, wz: int) returns (n: seq<Coord>)
    ensures n == Ring8(wx, wz)
  {
    n := [];
    var dz := -1;
    while dz <= 1
      invariant -1 <= dz <= 2
      invariant |n| == (dz + 1) * 3 - (if dz >= 1 then 1 else 0)
      invariant n == Ring8(wx, wz)[..|n|]
    {
      var dx := -1;
      while dx <= 1
        invariant -1 <= dx <= 2
        invariant |n| == (dz + 1) * 3 + (dx + 1) - (if dz >= 1 || (dz == 0 && dx >= 1) then 1 else 0)
        invariant n == Ring8(wx, wz)[..|n|]
      {
        if dx != 0 || dz != 0 {
          assert Ring8(wx, wz)[|n|] == Coord(wx + dx, wz + dz);
          n := n + [Coord(wx + dx, wz + dz)];
        }
        dx := dx + 1;
      }
      dz := dz + 1;
    }
  }
}
