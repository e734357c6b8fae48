/** Town: the grid of 5 x 7 acres of 16 x 16 tiles, its safe accessors and the reset that opens
    Town::Generate. The source stores m_acres[ax][az].tiles[lz][lx]; the model stores the same
    tiles in one array indexed by world (x, z), and TileAt is the mapping between the two. */
module TownModel {
  import opened Grid

  datatype Option<T> = None | Some(value: T)

  predicate OnMap(c: Coord)
  {
    IsInBounds(c.x, c.z)
  }

  /** GetTileSafe: the address of the tile at (wx, wz), or none off the map. The address is the
      world position the array is indexed by; the source's pointer is that tile's storage. */
  function GetTileSafe(wx: int, wz: int): (r: Option<Coord>)
    ensures r.None? <==> !IsInBounds(wx, wz)
    ensures r.Some? ==> r.value == Coord(wx, wz)
                        && Flatten(GetTileCoords(wx, wz).0, GetTileCoords(wx, wz).1) == r.value
  {
    if !IsInBounds(wx, wz) then None
    else
      GetTileCoordsRoundTrip(wx, wz);
      Some(Flatten(GetTileCoords(wx, wz).0, GetTileCoords(wx, wz).1))
  }

  /** A copy of the grid, indexed [x][z]. */
  type Snapshot = seq<seq<Tile>>

  predicate IsGrid(g: Snapshot)
  {
    |g| == WORLD_W && forall x :: 0 <= x < WORLD_W ==> |g[x]| == WORLD_H
  }

  /** The town's grid as a value. */
  function Tiles(town: Town): (g: Snapshot)
    requires town.Valid()
    reads town.tiles
    ensures IsGrid(g)
    ensures forall x, z :: 0 <= x < WORLD_W && 0 <= z < WORLD_H ==> g[x][z] == town.tiles[x, z]
  {
    seq(WORLD_W, x requires 0 <= x < WORLD_W reads town.tiles =>
      seq(WORLD_H, z requires 0 <= z < WORLD_H reads town.tiles => town.tiles[x, z]))
  }

  class Town {
    /** Every tile of the town, indexed by world (x, z). */
    const tiles: array2<Tile>

    predicate Valid()
    {
      tiles.Length0 == WORLD_W && tiles.Length1 == WORLD_H
    }

    /** A freshly constructed town holds default tiles (EMPTY, elevation 0). */
    constructor()
      ensures Valid() && fresh(tiles)
      ensures forall x, z :: 0 <= x < WORLD_W && 0 <= z < WORLD_H ==> tiles[x, z] == Tile(EMPTY, 0)
    {
      tiles := new Tile[WORLD_W, WORLD_H]((x, z) => Tile(EMPTY, 0));
    }

    /** A ghost copy of other's grid, for stating facts about an intermediate grid. */
    ghost constructor Copy(other: Town)
      requires other.Valid()
      ensures Valid() && fresh(tiles)
      ensures forall x, z :: 0 <= x < WORLD_W && 0 <= z < WORLD_H ==> tiles[x, z] == other.tiles[x, z]
    {
      tiles := new Tile[WORLD_W, WORLD_H]((x, z) reads other.tiles =>
        if 0 <= x < WORLD_W && 0 <= z < WORLD_H then other.tiles[x, z] else Tile(EMPTY, 0));
    }

    /** GetAcre(acre.x, acre.z).tiles[local.z][local.x]. */
    function TileAt(acre: Coord, local: Coord): Tile
      requires Valid()
      requires 0 <= acre.x < WIDTH && 0 <= acre.z < HEIGHT
      requires 0 <= local.x < SIZE && 0 <= local.z < SIZE
      reads tiles
    {
      tiles[acre.x * SIZE + local.x, acre.z * SIZE + local.z]
    }

    /** Town::GetElevation: -1 off the map; on the map, the elevation of the tile at (wx, wz),
        which ElevationLookup shows is the tile WorldToTile addresses. */
    function GetElevation(wx: int, wz: int): (e: int)
      requires Valid()
      reads tiles
      ensures !IsInBounds(wx, wz) ==> e == -1
    {
      if wx < 0 || wx >= WORLD_W || wz < 0 || wz >= WORLD_H then -1
      else tiles[wx, wz].elevation
    }

    /** On the map, GetElevation reads the acre and local position WorldToTile computes. */
    lemma ElevationLookup(wx: int, wz: int)
      requires Valid() && IsInBounds(wx, wz)
      ensures GetElevation(wx, wz) == TileAt(WorldToTile(wx, wz).0, WorldToTile(wx, wz).1).elevation
    {
      WorldToTileAddressesClamped(wx, wz);
    }

    /** GetTileTypeSafe: EMPTY off the map, otherwise the kind of the tile at (wx, wz), which
        KindLookup shows is the tile GetTileCoords addresses. An off-map position is therefore
        never water. */
    function GetTileTypeSafe(wx: int, wz: int): (t: TileType)
      requires Valid()
      reads tiles
      ensures !IsInBounds(wx, wz) ==> t == EMPTY
      ensures IsAnyWater(t) ==> IsInBounds(wx, wz)
    {
      if !IsInBounds(wx, wz) then EMPTY
      else tiles[wx, wz].kind
    }

    /** On the map, GetTileTypeSafe reads the acre and local position GetTileCoords computes. */
    lemma KindLookup(wx: int, wz: int)
      requires Valid() && IsInBounds(wx, wz)
      ensures GetTileTypeSafe(wx, wz) == TileAt(GetTileCoords(wx, wz).0, GetTileCoords(wx, wz).1).kind
    {
      GetTileCoordsRoundTrip(wx, wz);
      ConversionsAgreeOnMap(wx, wz);
    }

    /** Every elevation lies in [lo, hi]. */
    predicate ElevationsIn(lo: int, hi: int)
      requires Valid()
      reads tiles
    {
      forall x, z :: 0 <= x < WORLD_W && 0 <= z < WORLD_H ==> lo <= tiles[x, z].elevation <= hi
    }

    /** While elevations are tiers (never negative), the -1 of GetElevation is exactly the
        off-map sentinel; this is also utils::GetElevation in WorldGenUtils.cpp, which performs
        the same bounds test and lookup. */
    lemma SentinelOnlyOffMap(wx: int, wz: int)
      requires Valid() && ElevationsIn(0, 2)
      ensures GetElevation(wx, wz) == -1 <==> !IsInBounds(wx, wz)
      ensures IsInBounds(wx, wz) ==> 0 <= GetElevation(wx, wz) <= 2
    {
    }

    /** Step 1 of Town::Generate: every tile becomes GRASS at elevation 0. */
    method ResetTiles()
      requires Valid()
      modifies tiles
      ensures forall x, z :: 0 <= x < WORLD_W && 0 <= z < WORLD_H ==> tiles[x, z] == Tile(GRASS, 0)
    {
      var x := 0;
      while x < WORLD_W
        invariant 0 <= x <= WORLD_W
        invariant forall i, j :: 0 <= i < x && 0 <= j < WORLD_H ==> tiles[i, j] == Tile(GRASS, 0)
      {
        var z := 0;
        while z < WORLD_H
          invariant 0 <= z <= WORLD_H
          invariant forall i, j :: 0 <= i < x && 0 <= j < WORLD_H ==> tiles[i, j] == Tile(GRASS, 0)
          invariant forall j :: 0 <= j < z ==> tiles[x, j] == Tile(GRASS, 0)
        {
          tiles[x, z] := Tile(GRASS, 0);
          z := z + 1;
        }
        x := x + 1;
      }
    }
  }
}
