/** The 47-tile blob auto-tiler: an 8-neighbour bitmask and a 256-entry lookup table. */
module AutoTile {
  import opened Grid
  import opened TownModel

  /** BLOB_MAP[mask], entry for entry: 256 entries, one for each mask, in the source's eight
      lines of 32 (line mask / 32, column mask % 32); every entry is a blob index. */
  function BlobMapEntry(mask: int): (r: int)
    requires 0 <= mask < 256
    ensures 0 <= r <= 46
  {
    if mask / 32 == 0 then
      match mask % 32
        case 0 => 0
        case 1 => 1
        case 2 => 0
        case 3 => 1
        case 4 => 2
        case 5 => 3
        case 6 => 2
        case 7 => 3
        case 8 => 0
        case 9 => 1
        case 10 => 0
        case 11 => 1
        case 12 => 2
        case 13 => 3
        case 14 => 2
        case 15 => 3
        case 16 => 4
        case 17 => 5
        case 18 => 4
        case 19 => 5
        case 20 => 6
        case 21 => 7
        case 22 => 6
        case 23 => 7
        case 24 => 4
        case 25 => 5
        case 26 => 4
        case 27 => 5
        case 28 => 6
        case 29 => 7
        case 30 => 6
        case _ => 7
    else if mask / 32 == 1 then
      match mask % 32
        case 0 => 0
        case 1 => 1
        case 2 => 0
        case 3 => 1
        case 4 => 2
        case 5 => 3
        case 6 => 2
        case 7 => 3
        case 8 => 0
        case 9 => 1
        case 10 => 0
        case 11 => 1
        case 12 => 2
        case 13 => 3
        case 14 => 2
        case 15 => 3
        case 16 => 4
        case 17 => 5
        case 18 => 4
        case 19 => 5
        case 20 => 6
        case 21 => 7
        case 22 => 6
        case 23 => 7
        case 24 => 4
        case 25 => 5
        case 26 => 4
        case 27 => 5
        case 28 => 6
        case 29 => 7
        case 30 => 6
        case _ => 7
    else if mask / 32 == 2 then
      match mask % 32
        case 0 => 8
        case 1 => 9
        case 2 => 8
        case 3 => 9
        case 4 => 10
        case 5 => 11
        case 6 => 10
        case 7 => 11
        case 8 => 8
        case 9 => 9
        case 10 => 8
        case 11 => 9
        case 12 => 10
        case 13 => 11
        case 14 => 10
        case 15 => 11
        case 16 => 12
        case 17 => 13
        case 18 => 12
        case 19 => 13
        case 20 => 14
        case 21 => 15
        case 22 => 14
        case 23 => 15
        case 24 => 12
        case 25 => 13
        case 26 => 12
        case 27 => 13
        case 28 => 14
        case 29 => 15
        case 30 => 14
        case _ => 15
    else if mask / 32 == 3 then
      match mask % 32
        case 0 => 8
        case 1 => 9
        case 2 => 8
        case 3 => 9
        case 4 => 10
        case 5 => 11
        case 6 => 10
        case 7 => 11
        case 8 => 8
        case 9 => 9
        case 10 => 8
        case 11 => 9
        case 12 => 10
        case 13 => 11
        case 14 => 10
        case 15 => 11
        case 16 => 12
        case 17 => 13
        case 18 => 12
        case 19 => 13
        case 20 => 14
        case 21 => 15
        case 22 => 14
        case 23 => 15
        case 24 => 12
        case 25 => 13
        case 26 => 12
        case 27 => 13
        case 28 => 14
        case 29 => 15
        case 30 => 14
        case _ => 15
    else if mask / 32 == 4 then
      match mask % 32
        case 0 => 16
        case 1 => 17
        case 2 => 16
        case 3 => 17
        case 4 => 18
        case 5 => 19
        case 6 => 18
        case 7 => 19
        case 8 => 16
        case 9 => 17
        case 10 => 16
        case 11 => 17
        case 12 => 18
        case 13 => 19
        case 14 => 18
        case 15 => 19
        case 16 => 20
        case 17 => 21
        case 18 => 20
        case 19 => 21
        case 20 => 22
        case 21 => 23
        case 22 => 22
        case 23 => 23
        case 24 => 20
        case 25 => 21
        case 26 => 20
        case 27 => 21
        case 28 => 22
        case 29 => 23
        case 30 => 22
        case _ => 23
    else if mask / 32 == 5 then
      match mask % 32
        case 0 => 16
        case 1 => 17
        case 2 => 16
        case 3 => 17
        case 4 => 18
        case 5 => 19
        case 6 => 18
        case 7 => 19
        case 8 => 16
        case 9 => 17
        case 10 => 16
        case 11 => 17
        case 12 => 18
        case 13 => 19
        case 14 => 18
        case 15 => 19
        case 16 => 20
        case 17 => 21
        case 18 => 20
        case 19 => 21
        case 20 => 22
        case 21 => 23
        case 22 => 22
        case 23 => 23
        case 24 => 20
        case 25 => 21
        case 26 => 20
        case 27 => 21
        case 28 => 22
        case 29 => 23
        case 30 => 22
        case _ => 23
    else if mask / 32 == 6 then
      match mask % 32
        case 0 => 24
        case 1 => 25
        case 2 => 24
        case 3 => 25
        case 4 => 26
        case 5 => 27
        case 6 => 26
        case 7 => 27
        case 8 => 24
        case 9 => 25
        case 10 => 24
        case 11 => 25
        case 12 => 26
        case 13 => 27
        case 14 => 26
        case 15 => 27
        case 16 => 28
        case 17 => 29
        case 18 => 28
        case 19 => 29
        case 20 => 30
        case 21 => 31
        case 22 => 30
        case 23 => 31
        case 24 => 28
        case 25 => 29
        case 26 => 28
        case 27 => 29
        case 28 => 30
        case 29 => 31
        case 30 => 30
        case _ => 31
    else
      match mask % 32
        case 0 => 32
        case 1 => 33
        case 2 => 32
        case 3 => 33
        case 4 => 34
        case 5 => 35
        case 6 => 34
        case 7 => 35
        case 8 => 36
        case 9 => 37
        case 10 => 36
        case 11 => 37
        case 12 => 38
        case 13 => 39
        case 14 => 38
        case 15 => 39
        case 16 => 40
        case 17 => 41
        case 18 => 40
        case 19 => 41
        case 20 => 42
        case 21 => 43
        case 22 => 42
        case 23 => 43
        case 24 => 44
        case 25 => 45
        case 26 => 44
        case 27 => 45
        case 28 => 46
        case 29 => 46
        case 30 => 46
        case _ => 46
  }

  /** Every blob index in 0..46 is the entry of some mask: the table reaches all 47 tiles. */
  lemma BlobMapCoversAllTiles(v: int)
    requires 0 <= v <= 46
    ensures exists mask :: 0 <= mask < 256 && BlobMapEntry(mask) == v
  {
    assert BlobMapEntry(0) == 0;
    assert BlobMapEntry(1) == 1;
    assert BlobMapEntry(4) == 2;
    assert BlobMapEntry(5) == 3;
    assert BlobMapEntry(16) == 4;
    assert BlobMapEntry(17) == 5;
    assert BlobMapEntry(20) == 6;
    assert BlobMapEntry(21) == 7;
    assert BlobMapEntry(64) == 8;
    assert BlobMapEntry(65) == 9;
    assert BlobMapEntry(68) == 10;
    assert BlobMapEntry(69) == 11;
    assert BlobMapEntry(80) == 12;
    assert BlobMapEntry(81) == 13;
    assert BlobMapEntry(84) == 14;
    assert BlobMapEntry(85) == 15;
    assert BlobMapEntry(128) == 16;
    assert BlobMapEntry(129) == 17;
    assert BlobMapEntry(132) == 18;
    assert BlobMapEntry(133) == 19;
    assert BlobMapEntry(144) == 20;
    assert BlobMapEntry(145) == 21;
    assert BlobMapEntry(148) == 22;
    assert BlobMapEntry(149) == 23;
    assert BlobMapEntry(192) == 24;
    assert BlobMapEntry(193) == 25;
    assert BlobMapEntry(196) == 26;
    assert BlobMapEntry(197) == 27;
    assert BlobMapEntry(208) == 28;
    assert BlobMapEntry(209) == 29;
    assert BlobMapEntry(212) == 30;
    assert BlobMapEntry(213) == 31;
    assert BlobMapEntry(224) == 32;
    assert BlobMapEntry(225) == 33;
    assert BlobMapEntry(228) == 34;
    assert BlobMapEntry(229) == 35;
    assert BlobMapEntry(232) == 36;
    assert BlobMapEntry(233) == 37;
    assert BlobMapEntry(236) == 38;
    assert BlobMapEntry(237) == 39;
    assert BlobMapEntry(240) == 40;
    assert BlobMapEntry(241) == 41;
    assert BlobMapEntry(244) == 42;
    assert BlobMapEntry(245) == 43;
    assert BlobMapEntry(248) == 44;
    assert BlobMapEntry(249) == 45;
    assert BlobMapEntry(252) == 46;
  }

  /** Bit k of a mask (bit 0 is the least significant). */
  predicate MaskBit(m: bv8, k: nat)
    requires k < 8
  {
    m & (1 << k) != 0
  }

  /** The mask with bit k set exactly when sample k holds. */
  function PackSamples(s: seq<bool>): (m: bv8)
    requires |s| == 8
    ensures forall k :: 0 <= k < 8 ==> (MaskBit(m, k) <==> s[k])
  {
    (if s[0] then 1 else 0) | (if s[1] then 2 else 0) | (if s[2] then 4 else 0)
    | (if s[3] then 8 else 0) | (if s[4] then 16 else 0) | (if s[5] then 32 else 0)
    | (if s[6] then 64 else 0) | (if s[7] then 128 else 0)
  }

  /** Calculate8BitMask: the predicate sampled at the eight neighbours in the order NW, N, NE,
      W, E, SW, S, SE, which is the order of Ring8. */
  function Calculate8BitMask(x: int, z: int, shouldConnect: (int, int) -> bool): (m: bv8)
    ensures forall k :: 0 <= k < 8 ==>
              (MaskBit(m, k) <==> shouldConnect(Ring8(x, z)[k].x, Ring8(x, z)[k].z))
  {
    PackSamples(seq(8, k requires 0 <= k < 8 => shouldConnect(Ring8(x, z)[k].x, Ring8(x, z)[k].z)))
  }

  /** The mask depends on the predicate only at the eight neighbours; the centre is never
      sampled. */
  lemma MaskIgnoresCentre(x: int, z: int, p: (int, int) -> bool, q: (int, int) -> bool)
    requires forall k :: 0 <= k < 8 ==> p(Ring8(x, z)[k].x, Ring8(x, z)[k].z) == q(Ring8(x, z)[k].x, Ring8(x, z)[k].z)
    ensures Calculate8BitMask(x, z, p) == Calculate8BitMask(x, z, q)
  {
    var m, n := Calculate8BitMask(x, z, p), Calculate8BitMask(x, z, q);
    assert forall k :: 0 <= k < 8 ==> (MaskBit(m, k) <==> MaskBit(n, k));
    assert m == n by {
      MaskDeterminedByBits(m, n);
    }
  }

  /** Two masks with the same eight bits are equal. */
  lemma MaskDeterminedByBits(m: bv8, n: bv8)
    requires forall k :: 0 <= k < 8 ==> (MaskBit(m, k) <==> MaskBit(n, k))
    ensures m == n
  {
    assert MaskBit(m, 0) == MaskBit(n, 0) && MaskBit(m, 1) == MaskBit(n, 1);
    assert MaskBit(m, 2) == MaskBit(n, 2) && MaskBit(m, 3) == MaskBit(n, 3);
    assert MaskBit(m, 4) == MaskBit(n, 4) && MaskBit(m, 5) == MaskBit(n, 5);
    assert MaskBit(m, 6) == MaskBit(n, 6) && MaskBit(m, 7) == MaskBit(n, 7);
  }

  /** GetBlobIndex: the table entry of the mask, always a blob index. */
  function GetBlobIndex(mask: bv8): (r: int)
    ensures 0 <= r <= 46
  {
    BlobMapEntry(mask as int)
  }

  /** A tile with no connected neighbour is the isolated blob 0, and one connected on all eight
      sides is the interior blob 46. */
  lemma BlobExtremes(x: int, z: int, p: (int, int) -> bool)
    ensures (forall k :: 0 <= k < 8 ==> !p(Ring8(x, z)[k].x, Ring8(x, z)[k].z)) ==>
              Calculate8BitMask(x, z, p) == 0 && GetBlobIndex(Calculate8BitMask(x, z, p)) == 0
    ensures (forall k :: 0 <= k < 8 ==> p(Ring8(x, z)[k].x, Ring8(x, z)[k].z)) ==>
              Calculate8BitMask(x, z, p) == 255 && GetBlobIndex(Calculate8BitMask(x, z, p)) == 46
  {
    var m := Calculate8BitMask(x, z, p);
    if forall k :: 0 <= k < 8 ==> !p(Ring8(x, z)[k].x, Ring8(x, z)[k].z) {
      MaskDeterminedByBits(m, 0);
    }
    if forall k :: 0 <= k < 8 ==> p(Ring8(x, z)[k].x, Ring8(x, z)[k].z) {
      MaskDeterminedByBits(m, 255);
    }
  }

  /** The table does not tell a lone north or west neighbour from no neighbour at all: masks
      0, 2 (N) and 8 (W) all select the isolated blob. */
  lemma LoneCardinalLooksIsolated()
    ensures GetBlobIndex(2) == GetBlobIndex(8) == GetBlobIndex(0) == 0
  {
  }

  /** Whether the pond predicate holds at (nx, nz): water there, and off the map never. */
  predicate WaterAt(town: Town, nx: int, nz: int)
    requires town.Valid()
    reads town.tiles
  {
    IsAnyWater(town.GetTileTypeSafe(nx, nz))
  }

  /** The pond mask: Calculate8BitMask with the pond predicate. */
  function PondMask(town: Town, x: int, z: int): (m: bv8)
    requires town.Valid()
    reads town.tiles
    ensures forall k :: 0 <= k < 8 ==> (MaskBit(m, k) <==> WaterAt(town, Ring8(x, z)[k].x, Ring8(x, z)[k].z))
    ensures forall k :: 0 <= k < 8 && !OnMap(Ring8(x, z)[k]) ==> !MaskBit(m, k)
  {
    PackSamples(seq(8, k requires 0 <= k < 8 reads town.tiles =>
                         WaterAt(town, Ring8(x, z)[k].x, Ring8(x, z)[k].z)))
  }

  /** CalculatePondBlobIndex: a blob index in 0..46, isolated when no neighbour is water. */
  function CalculatePondBlobIndex(town: Town, x: int, z: int): (r: int)
    requires town.Valid()
    reads town.tiles
    ensures 0 <= r <= 46
    ensures (forall k :: 0 <= k < 8 ==> !WaterAt(town, Ring8(x, z)[k].x, Ring8(x, z)[k].z)) ==> r == 0
  {
    var m := PondMask(town, x, z);
    if forall k :: 0 <= k < 8 ==> !WaterAt(town, Ring8(x, z)[k].x, Ring8(x, z)[k].z) then
      MaskDeterminedByBits(m, 0);
      GetBlobIndex(m)
    else
      GetBlobIndex(m)
  }
}
