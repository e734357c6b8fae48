/** utils::CreateGrassTeardrop: paints a tapering, optionally curving strip of GRASS downward
    from a start row of an acre row, used for grass inlets at the coast and beside river mouths.
    Each row's width and sideways offset come from float math (a quadratic taper and a sine);
    they are an input function here. */
module GenUtils {
  import opened Grid
  import opened TownModel

  /** Row dz of a teardrop: its width and its sideways offset. */
  datatype TeardropRow = TeardropRow(width: int, offset: int)

  /** (max_width, depth, curve, dz) -> that row's shape; in the source
      width = (int)(max_width * (1 - t^2)) and offset = (int)(curve * sin(t * pi)), t = dz / depth. */
  type RowShape = (int, int, int, int) -> TeardropRow

  /** The arguments of one CreateGrassTeardrop call. curve is a float in the source; every caller
      passes -1.0 or 1.0. */
  datatype Teardrop = Teardrop(row: int, cx: int, sz: int, maxWidth: int, depth: int, curve: int,
                               totalWidth: int)

  /** Half of a row's width, rounded toward zero as C++ does. */
  function HalfWidth(shape: RowShape, td: Teardrop, dz: int): int
  {
    TruncDiv(shape(td.maxWidth, td.depth, td.curve, dz).width, 2)
  }

  /** Whether the column x lies in row dz's span [cx + off - w/2, cx + off + w/2], clipped to
      [0, totalWidth). */
  predicate InRowSpan(shape: RowShape, td: Teardrop, dz: int, x: int)
  {
    var off := shape(td.maxWidth, td.depth, td.curve, dz).offset;
    0 <= x < td.totalWidth && -HalfWidth(shape, td, dz) <= x - td.cx - off <= HalfWidth(shape, td, dz)
  }

  /** Whether the call paints (x, z): z is one of the depth rows below the start, the column is
      in that row's span, and the cell is on the map. */
  predicate InTeardrop(shape: RowShape, td: Teardrop, x: int, z: int)
  {
    var dz := z - (td.row * SIZE + td.sz);
    0 <= dz < td.depth && InRowSpan(shape, td, dz, x) && IsInBounds(x, z)
  }

  /** The tile the call leaves at (x, z), given the tile t it finds there. */
  function Painted(shape: RowShape, td: Teardrop, x: int, z: int, t: Tile): Tile
  {
    if InTeardrop(shape, td, x, z) then Tile(GRASS, t.elevation) else t
  }

  /** A teardrop writes only GRASS, never changes an elevation, touches only columns in
      [0, totalWidth) of its depth rows, paints nothing when the depth is not positive, and
      painting the same teardrop twice is painting it once. */
  lemma PaintedFacts(shape: RowShape, td: Teardrop, x: int, z: int, t: Tile)
    ensures Painted(shape, td, x, z, t).elevation == t.elevation
    ensures Painted(shape, td, x, z, t) != t ==> Painted(shape, td, x, z, t).kind == GRASS
    ensures Painted(shape, td, x, z, t) != t ==>
              0 <= x < td.totalWidth && IsInBounds(x, z)
              && td.row * SIZE + td.sz <= z < td.row * SIZE + td.sz + td.depth
    ensures td.depth <= 0 ==> Painted(shape, td, x, z, t) == t
    ensures Painted(shape, td, x, z, Painted(shape, td, x, z, t)) == Painted(shape, td, x, z, t)
  {
  }

  /** The painted-so-far region while row dz is being painted up to column offset dx (exclusive). */
  predicate PaintedSoFar(shape: RowShape, td: Teardrop, dzDone: int, dxRow: int, dxDone: int, x: int, z: int)
  {
    var dz := z - (td.row * SIZE + td.sz);
    IsInBounds(x, z) &&
    ((0 <= dz < dzDone && InRowSpan(shape, td, dz, x))
     || (dz == dxRow && 0 <= dz < td.depth && 0 <= x < td.totalWidth
         && var off := shape(td.maxWidth, td.depth, td.curve, dz).offset;
            -HalfWidth(shape, td, dz) <= x - td.cx - off < dxDone))
  }

  /** utils::CreateGrassTeardrop. */
  method CreateGrassTeardrop(town: Town, shape: RowShape, td: Teardrop)
    requires town.Valid()
    modifies town.tiles
    ensures forall x, z :: 0 <= x < WORLD_W && 0 <= z < WORLD_H ==>
              town.tiles[x, z] == Painted(shape, td, x, z, old(town.tiles[x, z]))
  {
    var dz := 0;
    while dz < td.depth
      invariant 0 <= dz || td.depth <= 0
      invariant dz <= td.depth || dz == 0
      invariant forall x, z :: 0 <= x < WORLD_W && 0 <= z < WORLD_H ==>
                  town.tiles[x, z] == (if PaintedSoFar(shape, td, dz, -1, 0, x, z)
                                       then Tile(GRASS, old(town.tiles[x, z]).elevation)
                                       else old(town.tiles[x, z]))
    {
      var r := shape(td.maxWidth, td.depth, td.curve, dz);
      var hw := HalfWidth(shape, td, dz);
      var dx := -hw;
      while dx <= hw
        invariant dx <= hw + 1 || dx == -hw
        invariant forall x, z :: 0 <= x < WORLD_W && 0 <= z < WORLD_H ==>
                    town.tiles[x, z] == (if PaintedSoFar(shape, td, dz, dz, dx, x, z)
                                         then Tile(GRASS, old(town.tiles[x, z]).elevation)
                                         else old(town.tiles[x, z]))
      {
        var finalX := td.cx + dx + r.offset;
        if 0 <= finalX < td.totalWidth {
          var at := GetTileSafe(finalX, td.row * SIZE + td.sz + dz);
          if at.Some? {
            town.tiles[at.value.x, at.value.z] := Tile(GRASS, town.tiles[at.value.x, at.value.z].elevation);
          }
        }
        dx := dx + 1;
      }
      dz := dz + 1;
    }
  }
}
