/** The dual-grid auto-tiler: each render vertex samples the 2 x 2 data points around it, packs
    the four answers into a 4-bit index (TL bit 3, TR bit 2, BL bit 1, BR bit 0) and looks the
    index up in a 16-entry table of (tile shape, rotation). */
module DualGrid {
  import opened Grid
  import opened TownModel
  import opened AutoTile

  /** The six tile shapes; their declaration order is the enum's numeric value. */
  datatype DualGridTile = EMPTY | FULL | CORNER | SIDE | DIAGONAL | INV_CORNER

  function Ordinal(t: DualGridTile): (n: int)
    ensures 0 <= n <= 5
    ensures n == 0 <==> t == DualGridTile.EMPTY
  {
    match t
    case EMPTY => 0
    case FULL => 1
    case CORNER => 2
    case SIDE => 3
    case DIAGONAL => 4
    case INV_CORNER => 5
  }

  /** A shape and its clockwise rotation in degrees. */
  datatype DualGridResult = DualGridResult(tile: DualGridTile, rotation: int)

  predicate RightAngle(r: int)
  {
    r == 0 || r == 90 || r == 180 || r == 270
  }

  /** DUAL_GRID_MAP[i], in the order of the array literal. */
  function DualGridMapEntry(i: int): (r: DualGridResult)
    requires 0 <= i < 16
    ensures RightAngle(r.rotation)
    ensures r.tile == DualGridTile.EMPTY <==> i == 0
    ensures r.tile == DualGridTile.FULL <==> i == 15
  {
    match i
    case 0 => DualGridResult(DualGridTile.EMPTY, 0)
    case 1 => DualGridResult(CORNER, 0)
    case 2 => DualGridResult(CORNER, 270)
    case 3 => DualGridResult(CORNER, 90)
    case 4 => DualGridResult(CORNER, 180)
    case 5 => DualGridResult(SIDE, 270)
    case 6 => DualGridResult(SIDE, 0)
    case 7 => DualGridResult(SIDE, 90)
    case 8 => DualGridResult(SIDE, 180)
    case 9 => DualGridResult(DIAGONAL, 0)
    case 10 => DualGridResult(DIAGONAL, 90)
    case 11 => DualGridResult(INV_CORNER, 270)
    case 12 => DualGridResult(INV_CORNER, 0)
    case 13 => DualGridResult(INV_CORNER, 90)
    case 14 => DualGridResult(INV_CORNER, 180)
    case _ => DualGridResult(DualGridTile.FULL, 0)
  }

  /** Index 0 is EMPTY and index 15 is FULL, both unrotated. */
  lemma TableEnds()
    ensures DualGridMapEntry(0) == DualGridResult(DualGridTile.EMPTY, 0)
    ensures DualGridMapEntry(15) == DualGridResult(DualGridTile.FULL, 0)
  {
  }

  /** The 4-bit index of four samples: TL(3) | TR(2) | BL(1) | BR(0). */
  function PackCorners(tl: bool, tr: bool, bl: bool, br: bool): (i: bv8)
    ensures i < 16
    ensures MaskBit(i, 3) == tl && MaskBit(i, 2) == tr && MaskBit(i, 1) == bl && MaskBit(i, 0) == br
    ensures i == 0 <==> !tl && !tr && !bl && !br
    ensures i == 15 <==> tl && tr && bl && br
  {
    (if tl then 8 else 0) | (if tr then 4 else 0) | (if bl then 2 else 0) | (if br then 1 else 0)
  }

  /** CalculateDualGridIndex: the predicate at (x, z), (x + 1, z), (x, z + 1), (x + 1, z + 1),
      packed TL, TR, BL, BR. */
  function CalculateDualGridIndex(x: int, z: int, shouldConnect: (int, int) -> bool): (i: bv8)
    ensures i < 16
    ensures MaskBit(i, 3) == shouldConnect(x, z) && MaskBit(i, 2) == shouldConnect(x + 1, z)
    ensures MaskBit(i, 1) == shouldConnect(x, z + 1) && MaskBit(i, 0) == shouldConnect(x + 1, z + 1)
  {
    PackCorners(shouldConnect(x, z), shouldConnect(x + 1, z), shouldConnect(x, z + 1), shouldConnect(x + 1, z + 1))
  }

  /** GetDualGridTile: the table entry of the low four bits, so no index over-reads the table. */
  function GetDualGridTile(index: bv8): (r: DualGridResult)
    ensures RightAngle(r.rotation)
    ensures r.tile == DualGridTile.EMPTY <==> index & 15 == 0
    ensures r.tile == DualGridTile.FULL <==> index & 15 == 15
  {
    DualGridMapEntry((index & 15) as int)
  }

  /** Only the low four bits matter. */
  lemma LookupMasksIndex(index: bv8)
    ensures GetDualGridTile(index) == GetDualGridTile(index & 15)
    ensures index < 16 ==> GetDualGridTile(index) == DualGridMapEntry(index as int)
  {
  }

  /** CalculateWaterDualGrid: water samples; a vertex whose four samples are all off the map is
      EMPTY. */
  function CalculateWaterDualGrid(town: Town, x: int, z: int): (r: DualGridResult)
    requires town.Valid()
    reads town.tiles
    ensures r.tile == DualGridTile.EMPTY <==>
              !WaterAt(town, x, z) && !WaterAt(town, x + 1, z) && !WaterAt(town, x, z + 1) && !WaterAt(town, x + 1, z + 1)
    ensures r.tile == DualGridTile.FULL <==>
              WaterAt(town, x, z) && WaterAt(town, x + 1, z) && WaterAt(town, x, z + 1) && WaterAt(town, x + 1, z + 1)
    ensures !IsInBounds(x, z) && !IsInBounds(x + 1, z) && !IsInBounds(x, z + 1) && !IsInBounds(x + 1, z + 1) ==>
              r == DualGridResult(DualGridTile.EMPTY, 0)
  {
    GetDualGridTile(PackCorners(WaterAt(town, x, z), WaterAt(town, x + 1, z),
                                WaterAt(town, x, z + 1), WaterAt(town, x + 1, z + 1)))
  }

  /** The cliff predicate: GetElevation at or above the given level. Off the map GetElevation
      is -1, so an off-map sample counts for any level <= -1. */
  predicate AtOrAbove(town: Town, nx: int, nz: int, elevation: int)
    requires town.Valid()
    reads town.tiles
  {
    town.GetElevation(nx, nz) >= elevation
  }

  /** CalculateCliffDualGrid. */
  function CalculateCliffDualGrid(town: Town, x: int, z: int, elevation: int): (r: DualGridResult)
    requires town.Valid()
    reads town.tiles
    ensures r.tile == DualGridTile.EMPTY <==>
              !AtOrAbove(town, x, z, elevation) && !AtOrAbove(town, x + 1, z, elevation)
              && !AtOrAbove(town, x, z + 1, elevation) && !AtOrAbove(town, x + 1, z + 1, elevation)
    ensures r.tile == DualGridTile.FULL <==>
              AtOrAbove(town, x, z, elevation) && AtOrAbove(town, x + 1, z, elevation)
              && AtOrAbove(town, x, z + 1, elevation) && AtOrAbove(town, x + 1, z + 1, elevation)
    ensures elevation <= -1 && town.ElevationsIn(0, 2) ==> r.tile == DualGridTile.FULL
  {
    GetDualGridTile(PackCorners(AtOrAbove(town, x, z, elevation), AtOrAbove(town, x + 1, z, elevation),
                                AtOrAbove(town, x, z + 1, elevation), AtOrAbove(town, x + 1, z + 1, elevation)))
  }

  /** The generic predicate: GetTileTypeSafe equals the target kind. Off the map it reads EMPTY,
      so for target EMPTY off-map samples count. */
  predicate KindAt(town: Town, nx: int, nz: int, target: TileType)
    requires town.Valid()
    reads town.tiles
  {
    town.GetTileTypeSafe(nx, nz) == target
  }

  /** CalculateBeachDualGrid: the generic calculation with target SAND. */
  function CalculateBeachDualGrid(town: Town, x: int, z: int): (r: DualGridResult)
    requires town.Valid()
    reads town.tiles
    ensures r.tile == DualGridTile.EMPTY <==>
              !KindAt(town, x, z, SAND) && !KindAt(town, x + 1, z, SAND)
              && !KindAt(town, x, z + 1, SAND) && !KindAt(town, x + 1, z + 1, SAND)
    ensures r.tile == DualGridTile.FULL <==>
              KindAt(town, x, z, SAND) && KindAt(town, x + 1, z, SAND)
              && KindAt(town, x, z + 1, SAND) && KindAt(town, x + 1, z + 1, SAND)
    ensures !IsInBounds(x, z) && !IsInBounds(x + 1, z) && !IsInBounds(x, z + 1) && !IsInBounds(x + 1, z + 1) ==>
              r == DualGridResult(DualGridTile.EMPTY, 0)
  {
    GetDualGridTile(PackCorners(KindAt(town, x, z, SAND), KindAt(town, x + 1, z, SAND),
                                KindAt(town, x, z + 1, SAND), KindAt(town, x + 1, z + 1, SAND)))
  }

  /** CalculateTerrainDualGrid. */
  function CalculateTerrainDualGrid(town: Town, x: int, z: int, target: TileType): (r: DualGridResult)
    requires town.Valid()
    reads town.tiles
    ensures r.tile == DualGridTile.EMPTY <==>
              !KindAt(town, x, z, target) && !KindAt(town, x + 1, z, target)
              && !KindAt(town, x, z + 1, target) && !KindAt(town, x + 1, z + 1, target)
    ensures r.tile == DualGridTile.FULL <==>
              KindAt(town, x, z, target) && KindAt(town, x + 1, z, target)
              && KindAt(town, x, z + 1, target) && KindAt(town, x + 1, z + 1, target)
    ensures (target == TileType.EMPTY && !IsInBounds(x, z) && !IsInBounds(x + 1, z)
             && !IsInBounds(x, z + 1) && !IsInBounds(x + 1, z + 1)) ==> r == DualGridResult(DualGridTile.FULL, 0)
  {
    GetDualGridTile(PackCorners(KindAt(town, x, z, target), KindAt(town, x + 1, z, target),
                                KindAt(town, x, z + 1, target), KindAt(town, x + 1, z + 1, target)))
  }

  /** The blob-mask cardinal bits: N = 2, W = 8, E = 16, S = 64. */
  const CARDINALS: bv8 := 2 | 8 | 16 | 64

  /** The dual index BlobMaskToDualGrid derives: a corner is set only when both cardinals
      beside it are set. */
  function BlobDualIndex(blobMask: bv8): (i: bv8)
    ensures i < 16
    ensures MaskBit(i, 3) <==> MaskBit(blobMask, 1) && MaskBit(blobMask, 3)
    ensures MaskBit(i, 2) <==> MaskBit(blobMask, 1) && MaskBit(blobMask, 4)
    ensures MaskBit(i, 1) <==> MaskBit(blobMask, 6) && MaskBit(blobMask, 3)
    ensures MaskBit(i, 0) <==> MaskBit(blobMask, 6) && MaskBit(blobMask, 4)
  {
    var n, s := blobMask & 2 != 0, blobMask & 64 != 0;
    var w, e := blobMask & 8 != 0, blobMask & 16 != 0;
    PackCorners(n && w, n && e, s && w, s && e)
  }

  /** BlobMaskToDualGrid. */
  function BlobMaskToDualGrid(blobMask: bv8): (r: DualGridResult)
    ensures RightAngle(r.rotation)
  {
    GetDualGridTile(BlobDualIndex(blobMask))
  }

  /** BlobMaskToDualGrid reads only the four cardinal bits; no cardinal gives EMPTY and all four
      give FULL. */
  lemma BlobMaskToDualGridFacts(blobMask: bv8)
    ensures BlobMaskToDualGrid(blobMask) == BlobMaskToDualGrid(blobMask & CARDINALS)
    ensures blobMask & CARDINALS == 0 ==> BlobMaskToDualGrid(blobMask) == DualGridResult(DualGridTile.EMPTY, 0)
    ensures blobMask & CARDINALS == CARDINALS ==> BlobMaskToDualGrid(blobMask) == DualGridResult(DualGridTile.FULL, 0)
  {
    assert BlobDualIndex(blobMask) == BlobDualIndex(blobMask & CARDINALS);
  }

  /** The deprecated CalculatePondBlobIndex: the water shape's enum value, 0 exactly when no
      sample is water. */
  function CalculatePondBlobIndex(town: Town, x: int, z: int): (r: int)
    requires town.Valid()
    reads town.tiles
    ensures 0 <= r <= 5
    ensures r == 0 <==>
              !WaterAt(town, x, z) && !WaterAt(town, x + 1, z) && !WaterAt(town, x, z + 1) && !WaterAt(town, x + 1, z + 1)
  {
    Ordinal(CalculateWaterDualGrid(town, x, z).tile)
  }

  // ── The table's order against its own comments ─────────────────────────────

  /** The number of set bits of a 4-bit index, peeled off from the top bit down. */
  function CornerCount(i: int): (n: int)
    requires 0 <= i < 16
    ensures 0 <= n <= 4
  {
    var tl := if i >= 8 then 1 else 0;
    var tr := if i - 8 * tl >= 4 then 1 else 0;
    var bl := if i - 8 * tl - 4 * tr >= 2 then 1 else 0;
    tl + tr + bl + (i - 8 * tl - 4 * tr - 2 * bl)
  }

  /** The shape a 2 x 2 pattern calls for, from the enum's own descriptions: no corner EMPTY, one
      CORNER, two adjacent SIDE, two opposite (TR + BL = 0110, TL + BR = 1001) DIAGONAL, three
      INV_CORNER, four FULL. */
  function ShapeFor(i: int): (t: DualGridTile)
    requires 0 <= i < 16
  {
    var n := CornerCount(i);
    if n == 0 then DualGridTile.EMPTY
    else if n == 1 then CORNER
    else if n == 2 then (if i == 6 || i == 9 then DIAGONAL else SIDE)
    else if n == 3 then INV_CORNER
    else DualGridTile.FULL
  }

  /** A 4-bit index is one of the sixteen literals. */
  lemma EnumerateIndex(i: int)
    requires 0 <= i < 16
    ensures i == 0 || i == 1 || i == 2 || i == 3 || i == 4 || i == 5 || i == 6 || i == 7
            || i == 8 || i == 9 || i == 10 || i == 11 || i == 12 || i == 13 || i == 14 || i == 15
  {
  }

  /** As written, index 3 (0011, both bottom corners) gets a single-corner tile. */
  lemma LiteralIndexThreeIsACorner()
    ensures CornerCount(3) == 2 && ShapeFor(3) == SIDE
    ensures GetDualGridTile(3).tile == CORNER
  {
  }

  /** As written, the table gives the shape the pattern calls for at exactly ten of the
      sixteen indices: 3, 6, 7, 8, 10 and 12 get a wrong shape. */
  lemma LiteralTableMisorders(i: int)
    requires 0 <= i < 16
    ensures DualGridMapEntry(i).tile == ShapeFor(i) <==> !(i == 3 || i == 6 || i == 7 || i == 8 || i == 10 || i == 12)
  {
    EnumerateIndex(i);
  }

  /** The table its comments describe, each (shape, rotation) placed at the index its words
      name: BR 0001, BL 0010, TR 0100, TL 1000, bottom 0011, right 0101, top 1100, left 1010,
      TR + BL 0110, TL + BR 1001, and the three-corner cases by their grass corner. */
  function IntendedDualGridEntry(i: int): (r: DualGridResult)
    requires 0 <= i < 16
  {
    match i
    case 0 => DualGridResult(DualGridTile.EMPTY, 0)
    case 1 => DualGridResult(CORNER, 0)
    case 2 => DualGridResult(CORNER, 270)
    case 3 => DualGridResult(SIDE, 270)
    case 4 => DualGridResult(CORNER, 90)
    case 5 => DualGridResult(SIDE, 0)
    case 6 => DualGridResult(DIAGONAL, 0)
    case 7 => DualGridResult(INV_CORNER, 270)
    case 8 => DualGridResult(CORNER, 180)
    case 9 => DualGridResult(DIAGONAL, 90)
    case 10 => DualGridResult(SIDE, 180)
    case 11 => DualGridResult(INV_CORNER, 0)
    case 12 => DualGridResult(SIDE, 90)
    case 13 => DualGridResult(INV_CORNER, 90)
    case 14 => DualGridResult(INV_CORNER, 180)
    case _ => DualGridResult(DualGridTile.FULL, 0)
  }

  /** The corrected table gives every index the shape its corner pattern calls for, with a
      right-angle rotation. */
  lemma IntendedTableClassifies(i: int)
    requires 0 <= i < 16
    ensures IntendedDualGridEntry(i).tile == ShapeFor(i)
    ensures RightAngle(IntendedDualGridEntry(i).rotation)
  {
    EnumerateIndex(i);
  }

  /** The corrected table is a reordering of the literal one: distinct indices hold distinct
      entries, and each literal entry sits at some index. */
  lemma IntendedTableIsReordering(i: int, j: int)
    requires 0 <= i < 16 && 0 <= j < 16
    ensures i != j ==> IntendedDualGridEntry(i) != IntendedDualGridEntry(j)
    ensures exists k :: 0 <= k < 16 && IntendedDualGridEntry(k) == DualGridMapEntry(i)
  {
    EnumerateIndex(i);
    EnumerateIndex(j);
    var k := if i == 3 then 4 else if i == 4 then 8 else if i == 5 then 3 else if i == 6 then 5
             else if i == 7 then 12 else if i == 8 then 10 else if i == 9 then 6 else if i == 10 then 9
             else if i == 11 then 7 else if i == 12 then 11 else i;
    assert IntendedDualGridEntry(k) == DualGridMapEntry(i);
  }

  /** The water shape under the corrected table. */
  function IntendedWaterDualGrid(town: Town, x: int, z: int): (r: DualGridResult)
    requires town.Valid()
    reads town.tiles
    ensures var i := PackCorners(WaterAt(town, x, z), WaterAt(town, x + 1, z),
                                 WaterAt(town, x, z + 1), WaterAt(town, x + 1, z + 1));
            r.tile == ShapeFor(i as int)
  {
    var i := PackCorners(WaterAt(town, x, z), WaterAt(town, x + 1, z),
                         WaterAt(town, x, z + 1), WaterAt(town, x + 1, z + 1));
    IntendedTableClassifies(i as int);
    IntendedDualGridEntry(PackCorners(WaterAt(town, x, z), WaterAt(town, x + 1, z),
                                      WaterAt(town, x, z + 1), WaterAt(town, x + 1, z + 1)) as int)
  }
}
