/** The river's route: the downhill path test for one acre row and the per-acre-row column
    targets (rivers::CheckPathValid and the first half of rivers::Execute). Within acre row az
    the river runs south along its entry column's connection x for local rows 0..2, turns at
    local row 3 toward the exit column's connection x, and runs south along it for rows 4..15. */
module RiverPaths {
  import opened Grid
  import opened Random
  import opened Config
  import opened TownModel

  /** The x of the river's connection point in acre column col. */
  function ConnX(col: int): int
  {
    col * SIZE + RIVER_CONNECTION_POINT_OFFSET
  }

  /** How many cells a path from entryX to exitX visits. */
  function PathLength(entryX: int, exitX: int): int
  {
    SIZE + Abs(exitX - entryX)
  }

  /** Cell k of the path through the acre row starting at world row baseZ: local rows 0..3 at
      entryX, then the bend row toward exitX, then local rows 4..15 at exitX. */
  function PathCell(baseZ: int, entryX: int, exitX: int, k: int): Coord
  {
    var steps := Abs(exitX - entryX);
    if k <= RIVER_CONNECTION_POINT_OFFSET then Coord(entryX, baseZ + k)
    else if k <= RIVER_CONNECTION_POINT_OFFSET + steps then
      var along := k - RIVER_CONNECTION_POINT_OFFSET;
      Coord(if exitX >= entryX then entryX + along else entryX - along, baseZ + RIVER_CONNECTION_POINT_OFFSET)
    else Coord(exitX, baseZ + k - steps)
  }

  /** Consecutive path cells are 4-neighbours, the path starts at the entry connection point of
      the acre row's first row and ends at the exit connection point of its last row. */
  lemma PathIsConnected(baseZ: int, entryX: int, exitX: int)
    ensures PathCell(baseZ, entryX, exitX, 0) == Coord(entryX, baseZ)
    ensures PathCell(baseZ, entryX, exitX, PathLength(entryX, exitX) - 1)
            == Coord(exitX, baseZ + SIZE - 1)
    ensures forall k :: 0 <= k < PathLength(entryX, exitX) - 1 ==>
              Manhattan(PathCell(baseZ, entryX, exitX, k), PathCell(baseZ, entryX, exitX, k + 1)) == 1
  {
    var steps := Abs(exitX - entryX);
    forall k | 0 <= k < PathLength(entryX, exitX) - 1
      ensures Manhattan(PathCell(baseZ, entryX, exitX, k), PathCell(baseZ, entryX, exitX, k + 1)) == 1
    {
      if k == RIVER_CONNECTION_POINT_OFFSET + steps {
        assert PathCell(baseZ, entryX, exitX, k).x == exitX;
      }
    }
  }

  /** The elevation (GetElevation, so -1 off the map) of path cell k. */
  function CellElevation(town: Town, baseZ: int, entryX: int, exitX: int, k: int): int
    requires town.Valid()
    reads town.tiles
  {
    var c := PathCell(baseZ, entryX, exitX, k);
    town.GetElevation(c.x, c.z)
  }

  /** Cell k is on the map and no higher than the cell before it. */
  predicate CellDescends(town: Town, baseZ: int, entryX: int, exitX: int, k: int)
    requires town.Valid()
    reads town.tiles
  {
    CellElevation(town, baseZ, entryX, exitX, k) != -1
    && (k > 0 ==> CellElevation(town, baseZ, entryX, exitX, k) <= CellElevation(town, baseZ, entryX, exitX, k - 1))
  }

  /** The first n cells are on the map and each is no higher than the one before it. */
  predicate PrefixDescends(town: Town, baseZ: int, entryX: int, exitX: int, n: int)
    requires town.Valid()
    reads town.tiles
    decreases n
  {
    n <= 0 || (PrefixDescends(town, baseZ, entryX, exitX, n - 1) && CellDescends(town, baseZ, entryX, exitX, n - 1))
  }

  /** Every cell of a descending prefix descends. */
  lemma {:induction false} PrefixCell(town: Town, baseZ: int, entryX: int, exitX: int, n: int, k: int)
    requires town.Valid()
    requires 0 <= k < n
    ensures PrefixDescends(town, baseZ, entryX, exitX, n) ==> CellDescends(town, baseZ, entryX, exitX, k)
    decreases n
  {
    if k < n - 1 {
      PrefixCell(town, baseZ, entryX, exitX, n - 1, k);
    }
  }

  /** Water can follow the whole path: it never leaves the map and never flows uphill. */
  predicate PathDescends(town: Town, baseZ: int, entryX: int, exitX: int)
    requires town.Valid()
    reads town.tiles
  {
    PrefixDescends(town, baseZ, entryX, exitX, PathLength(entryX, exitX))
  }

  /** The path through acre row acreZ entering at column `from` and leaving at column `to`
      descends. */
  predicate MoveDescends(town: Town, acreZ: int, from: int, to: int)
    requires town.Valid()
    reads town.tiles
  {
    PathDescends(town, acreZ * SIZE, ConnX(from), ConnX(to))
  }

  /** In a descending prefix no cell is higher than any cell before it: the river's running
      minimum never rises. */
  lemma {:induction false} RunningMinimum(town: Town, baseZ: int, entryX: int, exitX: int, n: int, i: int, j: int)
    requires town.Valid()
    requires PrefixDescends(town, baseZ, entryX, exitX, n)
    requires 0 <= i <= j < n
    ensures CellElevation(town, baseZ, entryX, exitX, j) <= CellElevation(town, baseZ, entryX, exitX, i)
    decreases j - i
  {
    if i < j {
      RunningMinimum(town, baseZ, entryX, exitX, n, i, j - 1);
      PrefixCell(town, baseZ, entryX, exitX, n, j);
    }
  }

  /** Every cell of a descending prefix is on the map. */
  lemma DescendingPathOnMap(town: Town, baseZ: int, entryX: int, exitX: int, n: int, k: int)
    requires town.Valid()
    requires PrefixDescends(town, baseZ, entryX, exitX, n)
    requires 0 <= k < n
    ensures OnMap(PathCell(baseZ, entryX, exitX, k))
  {
    PrefixCell(town, baseZ, entryX, exitX, n, k);
    assert CellElevation(town, baseZ, entryX, exitX, k) != -1;
  }

  /** The path test fails when the entry point is off the map. */
  lemma OffMapEntryFails(town: Town, baseZ: int, entryX: int, exitX: int)
    requires town.Valid()
    requires !IsInBounds(entryX, baseZ)
    ensures !PathDescends(town, baseZ, entryX, exitX)
  {
    PrefixCell(town, baseZ, entryX, exitX, PathLength(entryX, exitX), 0);
  }

  /** A descending prefix grows by one cell that is on the map and no higher than the last. */
  lemma ExtendPrefix(town: Town, baseZ: int, entryX: int, exitX: int, n: int)
    requires town.Valid()
    requires n >= 0 && PrefixDescends(town, baseZ, entryX, exitX, n)
    requires CellElevation(town, baseZ, entryX, exitX, n) != -1
    requires n > 0 ==> CellElevation(town, baseZ, entryX, exitX, n) <= CellElevation(town, baseZ, entryX, exitX, n - 1)
    ensures PrefixDescends(town, baseZ, entryX, exitX, n + 1)
  {
  }

  /** A cell that is off the map or higher than the one before it spoils the whole path. */
  lemma BadCellSpoilsPath(town: Town, baseZ: int, entryX: int, exitX: int, n: int)
    requires town.Valid()
    requires 0 <= n < PathLength(entryX, exitX)
    requires CellElevation(town, baseZ, entryX, exitX, n) == -1
             || (n > 0 && CellElevation(town, baseZ, entryX, exitX, n) > CellElevation(town, baseZ, entryX, exitX, n - 1))
    ensures !PathDescends(town, baseZ, entryX, exitX)
  {
    PrefixCell(town, baseZ, entryX, exitX, PathLength(entryX, exitX), n);
  }

  /** The update lambda of CheckPathValid: the cell must be on the map and no higher than the
      river so far; the river's level becomes the cell's. */
  method Update(town: Town, x: int, z: int, riverElev: int) returns (ok: bool, newElev: int)
    requires town.Valid()
    ensures ok <==> town.GetElevation(x, z) != -1 && town.GetElevation(x, z) <= riverElev
    ensures ok ==> newElev == town.GetElevation(x, z)
  {
    var elev := town.GetElevation(x, z);
    if elev == -1 || elev > riverElev {
      return false, riverElev;
    }
    return true, Min(riverElev, elev);
  }

  /** The first leg of CheckPathValid: local rows 0..3 at entryX (the last is the bend point),
      starting from the river's level at the entry point. */
  method DescendEntryLeg(town: Town, baseZ: int, entryX: int, exitX: int, riverElev0: int)
    returns (ok: bool, riverElev: int)
    requires town.Valid()
    requires riverElev0 == CellElevation(town, baseZ, entryX, exitX, 0)
    ensures ok ==> PrefixDescends(town, baseZ, entryX, exitX, RIVER_CONNECTION_POINT_OFFSET + 1)
    ensures ok ==> riverElev == CellElevation(town, baseZ, entryX, exitX, RIVER_CONNECTION_POINT_OFFSET)
    ensures !ok ==> !PathDescends(town, baseZ, entryX, exitX)
  {
    riverElev := riverElev0;
    var lz := 0;
    while lz <= RIVER_CONNECTION_POINT_OFFSET
      invariant 0 <= lz <= RIVER_CONNECTION_POINT_OFFSET + 1
      invariant PrefixDescends(town, baseZ, entryX, exitX, lz)
      invariant riverElev == CellElevation(town, baseZ, entryX, exitX, if lz == 0 then 0 else lz - 1)
    {
      assert PathCell(baseZ, entryX, exitX, lz) == Coord(entryX, baseZ + lz);
      var good;
      good, riverElev := Update(town, entryX, baseZ + lz, riverElev);
      if !good {
        BadCellSpoilsPath(town, baseZ, entryX, exitX, lz);
        return false, riverElev;
      }
      ExtendPrefix(town, baseZ, entryX, exitX, lz);
      lz := lz + 1;
    }
    return true, riverElev;
  }

  /** The second leg: one step at a time along the bend row from entryX to exitX. */
  method DescendBendLeg(town: Town, baseZ: int, entryX: int, exitX: int, riverElev0: int)
    returns (ok: bool, riverElev: int)
    requires town.Valid()
    requires PrefixDescends(town, baseZ, entryX, exitX, RIVER_CONNECTION_POINT_OFFSET + 1)
    requires riverElev0 == CellElevation(town, baseZ, entryX, exitX, RIVER_CONNECTION_POINT_OFFSET)
    ensures ok ==> PrefixDescends(town, baseZ, entryX, exitX, RIVER_CONNECTION_POINT_OFFSET + 1 + Abs(exitX - entryX))
    ensures ok ==> riverElev == CellElevation(town, baseZ, entryX, exitX, RIVER_CONNECTION_POINT_OFFSET + Abs(exitX - entryX))
    ensures !ok ==> !PathDescends(town, baseZ, entryX, exitX)
  {
    riverElev := riverElev0;
    var dx := if exitX > entryX then 1 else if exitX < entryX then -1 else 0;
    var steps := Abs(exitX - entryX);
    var currX := entryX;
    var i := 0;
    while i < steps
      invariant 0 <= i <= steps
      invariant currX == if exitX >= entryX then entryX + i else entryX - i
      invariant PrefixDescends(town, baseZ, entryX, exitX, RIVER_CONNECTION_POINT_OFFSET + 1 + i)
      invariant riverElev == CellElevation(town, baseZ, entryX, exitX, RIVER_CONNECTION_POINT_OFFSET + i)
    {
      currX := currX + dx;
      assert PathCell(baseZ, entryX, exitX, RIVER_CONNECTION_POINT_OFFSET + 1 + i)
             == Coord(currX, baseZ + RIVER_CONNECTION_POINT_OFFSET);
      var good;
      good, riverElev := Update(town, currX, baseZ + RIVER_CONNECTION_POINT_OFFSET, riverElev);
      if !good {
        BadCellSpoilsPath(town, baseZ, entryX, exitX, RIVER_CONNECTION_POINT_OFFSET + 1 + i);
        return false, riverElev;
      }
      ExtendPrefix(town, baseZ, entryX, exitX, RIVER_CONNECTION_POINT_OFFSET + 1 + i);
      i := i + 1;
    }
    return true, riverElev;
  }

  /** The last leg: local rows 4..15 at exitX. */
  method DescendExitLeg(town: Town, baseZ: int, entryX: int, exitX: int, riverElev0: int)
    returns (ok: bool)
    requires town.Valid()
    requires PrefixDescends(town, baseZ, entryX, exitX, RIVER_CONNECTION_POINT_OFFSET + 1 + Abs(exitX - entryX))
    requires riverElev0 == CellElevation(town, baseZ, entryX, exitX, RIVER_CONNECTION_POINT_OFFSET + Abs(exitX - entryX))
    ensures ok <==> PathDescends(town, baseZ, entryX, exitX)
  {
    var riverElev := riverElev0;
    var steps := Abs(exitX - entryX);
    var lz := RIVER_CONNECTION_POINT_OFFSET + 1;
    while lz < SIZE
      invariant RIVER_CONNECTION_POINT_OFFSET + 1 <= lz <= SIZE
      invariant PrefixDescends(town, baseZ, entryX, exitX, lz + steps)
      invariant riverElev == CellElevation(town, baseZ, entryX, exitX, lz + steps - 1)
    {
      ghost var k := lz + steps;
      assert PathCell(baseZ, entryX, exitX, k) == Coord(exitX, baseZ + lz);
      assert CellElevation(town, baseZ, entryX, exitX, k) == town.GetElevation(exitX, baseZ + lz);
      var good;
      good, riverElev := Update(town, exitX, baseZ + lz, riverElev);
      if !good {
        BadCellSpoilsPath(town, baseZ, entryX, exitX, k);
        return false;
      }
      ExtendPrefix(town, baseZ, entryX, exitX, k);
      lz := lz + 1;
    }
    assert lz + steps == PathLength(entryX, exitX);
    return true;
  }

  /** rivers::CheckPathValid: true exactly when the path descends. */
  method CheckPathValid(town: Town, acreZ: int, entryCol: int, exitCol: int) returns (ok: bool)
    requires town.Valid()
    ensures ok <==> MoveDescends(town, acreZ, entryCol, exitCol)
  {
    var entryX := ConnX(entryCol);
    var exitX := ConnX(exitCol);
    var baseZ := acreZ * SIZE;
    var riverElev := town.GetElevation(entryX, baseZ);
    if riverElev == -1 {
      BadCellSpoilsPath(town, baseZ, entryX, exitX, 0);
      return false;
    }
    assert riverElev == CellElevation(town, baseZ, entryX, exitX, 0);
    ok, riverElev := DescendEntryLeg(town, baseZ, entryX, exitX, riverElev);
    if !ok {
      return false;
    }
    ok, riverElev := DescendBendLeg(town, baseZ, entryX, exitX, riverElev);
    if !ok {
      return false;
    }
    ok := DescendExitLeg(town, baseZ, entryX, exitX, riverElev);
  }

  // ── Column targets ───────────────────────────────────────────────────────────

  /** After this many acre rows in a straight line the river is pushed to meander. */
  const MAX_CONSECUTIVE_STRAIGHT: int := 2

  /** Unit move s of a rightward run from col descends. */
  predicate RightStepDescends(town: Town, acreZ: int, col: int, s: int)
    requires town.Valid()
    reads town.tiles
  {
    MoveDescends(town, acreZ, col + s, col + s + 1)
  }

  /** Unit move s of a leftward run from col descends. */
  predicate LeftStepDescends(town: Town, acreZ: int, col: int, s: int)
    requires town.Valid()
    reads town.tiles
  {
    MoveDescends(town, acreZ, col - s, col - s - 1)
  }

  /** Each of the `change` unit moves rightward from col through acre row acreZ descends. */
  predicate RightRunValid(town: Town, acreZ: int, col: int, change: int)
    requires town.Valid()
    reads town.tiles
  {
    forall s :: 0 <= s < change ==> RightStepDescends(town, acreZ, col, s)
  }

  /** Each of the `change` unit moves leftward from col through acre row acreZ descends. */
  predicate LeftRunValid(town: Town, acreZ: int, col: int, change: int)
    requires town.Valid()
    reads town.tiles
  {
    forall s :: 0 <= s < change ==> LeftStepDescends(town, acreZ, col, s)
  }

  /** The river could move one column from col, staying inside the town's columns. */
  predicate SomeUnitMove(town: Town, acreZ: int, col: int)
    requires town.Valid()
    reads town.tiles
  {
    (col > 0 && MoveDescends(town, acreZ, col, col - 1))
    || (col < WIDTH - 1 && MoveDescends(town, acreZ, col, col + 1))
  }

  /** The rightward probe of rivers::Execute: unit moves tried one at a time, stopping at the
      first that fails. */
  method TryRightRun(town: Town, acreZ: int, col: int, change: int) returns (valid: bool)
    requires town.Valid()
    ensures valid <==> RightRunValid(town, acreZ, col, change)
  {
    valid := true;
    var testCol := col;
    var step := 0;
    while step < change && valid
      invariant valid ==> step >= 0 && testCol == col + step && RightRunValid(town, acreZ, col, step)
      invariant !valid ==> !RightRunValid(town, acreZ, col, change)
      decreases change - step, valid
    {
      var ok := CheckPathValid(town, acreZ, testCol, testCol + 1);
      if !ok {
        assert !RightStepDescends(town, acreZ, col, step);
        valid := false;
      } else {
        assert RightStepDescends(town, acreZ, col, step);
        testCol := testCol + 1;
        step := step + 1;
      }
    }
  }

  /** The leftward probe, the mirror image of TryRightRun. */
  method TryLeftRun(town: Town, acreZ: int, col: int, change: int) returns (valid: bool)
    requires town.Valid()
    ensures valid <==> LeftRunValid(town, acreZ, col, change)
  {
    valid := true;
    var testCol := col;
    var step := 0;
    while step < change && valid
      invariant valid ==> step >= 0 && testCol == col - step && LeftRunValid(town, acreZ, col, step)
      invariant !valid ==> !LeftRunValid(town, acreZ, col, change)
      decreases change - step, valid
    {
      var ok := CheckPathValid(town, acreZ, testCol, testCol - 1);
      if !ok {
        assert !LeftStepDescends(town, acreZ, col, step);
        valid := false;
      } else {
        assert LeftStepDescends(town, acreZ, col, step);
        testCol := testCol - 1;
        step := step + 1;
      }
    }
  }

  /** A candidate exit column: another column within reach whose run of unit moves descends. */
  predicate GoodMove(town: Town, acreZ: int, col: int, next: int)
    requires town.Valid()
    reads town.tiles
  {
    0 <= next < WIDTH && next != col && Abs(next - col) <= 3
    && (next > col ==> RightRunValid(town, acreZ, col, next - col))
    && (next < col ==> LeftRunValid(town, acreZ, col, col - next))
  }

  /** The single-column moves from col that descend, left first. */
  function UnitMoves(town: Town, acreZ: int, col: int): seq<int>
    requires town.Valid()
    reads town.tiles
  {
    (if col > 0 && MoveDescends(town, acreZ, col, col - 1) then [col - 1] else [])
    + (if col < WIDTH - 1 && MoveDescends(town, acreZ, col, col + 1) then [col + 1] else [])
  }

  /** The runs of `change` columns, right first, that stay inside the town and descend. */
  function RunMoves(town: Town, acreZ: int, col: int, change: int): seq<int>
    requires town.Valid()
    reads town.tiles
  {
    (if col + change < WIDTH && RightRunValid(town, acreZ, col, change) then [col + change] else [])
    + (if col - change >= 0 && LeftRunValid(town, acreZ, col, change) then [col - change] else [])
  }

  /** The candidate exit columns of one turn: the valid runs of `change` columns, and failing
      both, the single-column moves that descend. */
  function Candidates(town: Town, acreZ: int, col: int, change: int): seq<int>
    requires town.Valid()
    reads town.tiles
  {
    if |RunMoves(town, acreZ, col, change)| > 0 then RunMoves(town, acreZ, col, change)
    else UnitMoves(town, acreZ, col)
  }

  /** Every candidate is a good move exactly `change` or one column away, and there is a
      candidate exactly when some single-column move descends. */
  lemma CandidatesAreGoodMoves(town: Town, acreZ: int, col: int, change: int)
    requires town.Valid()
    requires 0 <= col < WIDTH && 1 <= change <= 3
    ensures forall c :: c in Candidates(town, acreZ, col, change) ==>
              GoodMove(town, acreZ, col, c) && (Abs(c - col) == change || Abs(c - col) == 1)
    ensures |Candidates(town, acreZ, col, change)| > 0 <==> SomeUnitMove(town, acreZ, col)
  {
    var runs := RunMoves(town, acreZ, col, change);
    if col + change < WIDTH && RightRunValid(town, acreZ, col, change) {
      assert RightStepDescends(town, acreZ, col, 0);
    }
    if col - change >= 0 && LeftRunValid(town, acreZ, col, change) {
      assert LeftStepDescends(town, acreZ, col, 0);
    }
    if col > 0 && MoveDescends(town, acreZ, col, col - 1) {
      assert LeftStepDescends(town, acreZ, col, 0);
    }
    if col < WIDTH - 1 && MoveDescends(town, acreZ, col, col + 1) {
      assert RightStepDescends(town, acreZ, col, 0);
    }
  }

  /** The candidate exit columns of one turn of rivers::Execute: a run of `change` columns to
      the right and to the left when it stays inside the town and every unit move descends, and
      failing both, the single-column moves that descend. Every candidate is a good move, and
      there is one whenever some single-column move descends. */
  method FindCandidates(town: Town, acreZ: int, col: int, change: int) returns (candidates: seq<int>)
    requires town.Valid()
    requires 0 <= col < WIDTH && 1 <= change <= 3
    ensures candidates == Candidates(town, acreZ, col, change)
    ensures |candidates| <= 2
    ensures forall c :: c in candidates ==> GoodMove(town, acreZ, col, c)
    ensures SomeUnitMove(town, acreZ, col) ==> |candidates| > 0
  {
    candidates := [];
    if col + change < WIDTH {
      var valid := TryRightRun(town, acreZ, col, change);
      if valid {
        candidates := candidates + [col + change];
      }
    }
    if col - change >= 0 {
      var valid := TryLeftRun(town, acreZ, col, change);
      if valid {
        candidates := candidates + [col - change];
      }
    }
    assert candidates == RunMoves(town, acreZ, col, change);
    if |candidates| == 0 {
      candidates := FindUnitMoves(town, acreZ, col);
    }
  }

  /** The fallback of FindCandidates: the single-column moves, left first, that descend. */
  method FindUnitMoves(town: Town, acreZ: int, col: int) returns (candidates: seq<int>)
    requires town.Valid()
    requires 0 <= col < WIDTH
    ensures candidates == UnitMoves(town, acreZ, col)
    ensures |candidates| <= 2
    ensures forall c :: c in candidates ==> GoodMove(town, acreZ, col, c)
    ensures SomeUnitMove(town, acreZ, col) ==> |candidates| > 0
  {
    candidates := [];
    if col > 0 {
      var valid := CheckPathValid(town, acreZ, col, col - 1);
      if valid {
        assert LeftStepDescends(town, acreZ, col, 0);
        candidates := [col - 1];
      }
    }
    if col < WIDTH - 1 {
      var valid := CheckPathValid(town, acreZ, col, col + 1);
      if valid {
        assert RightStepDescends(town, acreZ, col, 0);
        candidates := candidates + [col + 1];
      }
    }
  }

  /** What one turn of the column loop decides: the exit column, the straight count after it
      and the stream position after its draws. */
  datatype ExitOutcome = ExitOutcome(next: int, straight: int, pos: nat)

  /** Whether the river looks for a turn on the turn whose draws start at pos: its straight path
      is blocked, the meander draw asks for one or it has run straight too long. */
  predicate WantsTurn(town: Town, raw: nat -> nat, pos: nat, config: TownConfig, acreZ: int, col: int, straight: int)
    requires town.Valid()
    reads town.tiles
  {
    !MoveDescends(town, acreZ, col, col)
    || Uniform(raw(pos), 0, 99) < config.riverMeanderChance
    || straight >= MAX_CONSECUTIVE_STRAIGHT
  }

  /** Whether the horizontal draw of a turn starting at pos asks for a long run. */
  predicate WantsLongRun(raw: nat -> nat, pos: nat, config: TownConfig)
  {
    Uniform(raw(pos + 1), 0, 99) < config.riverHorizontalChance
  }

  /** The run length a turn starting at pos tries: drawn from [1, 3] after a long-run draw,
      1 otherwise. */
  function RunLength(raw: nat -> nat, pos: nat, config: TownConfig): (change: int)
    ensures 1 <= change <= 3
  {
    if WantsLongRun(raw, pos, config) then Uniform(raw(pos + 2), 1, 3) else 1
  }

  /** One turn of the column loop of rivers::Execute on the raw stream from pos: without a
      wanted turn the river keeps its column after one draw; otherwise two or three more draws
      fix the run length, and the exit column is the candidate the shuffle puts first (one
      index draw among two candidates, none for one); with no candidate the river keeps its
      column. */
  function ExitStep(town: Town, raw: nat -> nat, pos: nat, config: TownConfig, acreZ: int, col: int, straight: int): ExitOutcome
    requires town.Valid()
    reads town.tiles
  {
    if !WantsTurn(town, raw, pos, config, acreZ, col, straight) then ExitOutcome(col, straight + 1, pos + 1)
    else
      var p := if WantsLongRun(raw, pos, config) then pos + 3 else pos + 2;
      var candidates := Candidates(town, acreZ, col, RunLength(raw, pos, config));
      if |candidates| == 0 then ExitOutcome(col, straight + 1, p)
      else if |candidates| == 1 then ExitOutcome(candidates[0], 0, p)
      else ExitOutcome(candidates[Uniform(raw(p), 0, |candidates| - 1)], 0, p + 1)
  }

  /** What a turn means: the river leaves its column exactly when it wants a turn and some
      single-column move descends; it then makes a good move of the drawn run length or of one
      column, one of the turn's candidates, and restarts its straight count, which otherwise
      counts up; a turn takes one to four draws. */
  lemma ExitStepMeaning(town: Town, raw: nat -> nat, pos: nat, config: TownConfig, acreZ: int, col: int, straight: int)
    requires town.Valid()
    requires 0 <= col < WIDTH
    ensures var o := ExitStep(town, raw, pos, config, acreZ, col, straight);
            && (o.next != col <==> WantsTurn(town, raw, pos, config, acreZ, col, straight) && SomeUnitMove(town, acreZ, col))
            && ColumnStep(town, acreZ, col, o.next, straight, o.straight)
            && (o.next != col ==> o.next in Candidates(town, acreZ, col, RunLength(raw, pos, config)))
            && (o.next != col ==> Abs(o.next - col) == RunLength(raw, pos, config) || Abs(o.next - col) == 1)
            && pos + 1 <= o.pos <= pos + 4
  {
    CandidatesAreGoodMoves(town, acreZ, col, RunLength(raw, pos, config));
  }

  /** One iteration of the column loop of rivers::Execute: the exit column for acre row acreZ,
      entered at column col after `straight` acre rows without a turn, as ExitStep gives it. The
      river stays put unless its straight path is blocked, the meander draw asks for a turn or
      it has run straight too long; it turns only along descending paths, by the drawn run
      length or by one column, and when it wants to turn and a one-column move descends, it
      does turn. */
  method ChooseExitColumn(town: Town, rng: Rng, config: TownConfig, acreZ: int, col: int, straight: int)
    returns (next: int, newStraight: int)
    requires town.Valid()
    requires 0 <= col < WIDTH
    modifies rng
    ensures ExitOutcome(next, newStraight, rng.pos) == ExitStep(town, rng.raw, old(rng.pos), config, acreZ, col, straight)
    ensures next == col || GoodMove(town, acreZ, col, next)
    ensures 0 <= next < WIDTH
    ensures newStraight == if next == col then straight + 1 else 0
    ensures ((straight >= MAX_CONSECUTIVE_STRAIGHT || !MoveDescends(town, acreZ, col, col))
             && SomeUnitMove(town, acreZ, col)) ==> next != col
    ensures (Uniform(rng.raw(old(rng.pos)), 0, 99) < config.riverMeanderChance && SomeUnitMove(town, acreZ, col))
            ==> next != col
    ensures (MoveDescends(town, acreZ, col, col) && straight < MAX_CONSECUTIVE_STRAIGHT
             && !(Uniform(rng.raw(old(rng.pos)), 0, 99) < config.riverMeanderChance))
            ==> next == col && rng.pos == old(rng.pos) + 1
    ensures next != col ==> Abs(next - col) == RunLength(rng.raw, old(rng.pos), config) || Abs(next - col) == 1
    ensures old(rng.pos) + 1 <= rng.pos <= old(rng.pos) + 4
  {
    ghost var pos := rng.pos;
    var straightOk := CheckPathValid(town, acreZ, col, col);
    var meanderRoll := rng.UniformInt(0, 99);
    var wantsMeander := meanderRoll < config.riverMeanderChance;
    var forceMeander := straight >= MAX_CONSECUTIVE_STRAIGHT;
    next := col;
    newStraight := straight + 1;
    if !straightOk || wantsMeander || forceMeander {
      next, newStraight := Turn(town, rng, config, acreZ, col, straight, pos);
    }
    ExitStepMeaning(town, rng.raw, pos, config, acreZ, col, straight);
  }

  /** The turn branch of ChooseExitColumn, after the meander draw at pos: the run-length draws,
      the candidates and the shuffle draw. */
  method Turn(town: Town, rng: Rng, config: TownConfig, acreZ: int, col: int, straight: int, ghost pos: nat)
    returns (next: int, newStraight: int)
    requires town.Valid()
    requires 0 <= col < WIDTH
    requires rng.pos == pos + 1 && WantsTurn(town, rng.raw, pos, config, acreZ, col, straight)
    modifies rng
    ensures ExitOutcome(next, newStraight, rng.pos) == ExitStep(town, rng.raw, pos, config, acreZ, col, straight)
  {
    var horizontalRoll := rng.UniformInt(0, 99);
    var change := 1;
    if horizontalRoll < config.riverHorizontalChance {
      change := rng.UniformInt(1, 3);
    }
    assert change == RunLength(rng.raw, pos, config);
    var candidates := FindCandidates(town, acreZ, col, change);
    next := col;
    newStraight := straight + 1;
    if |candidates| > 0 {
      var pick := 0;
      if |candidates| > 1 {
        pick := rng.UniformInt(0, |candidates| - 1);
      }
      next := candidates[pick];
      newStraight := 0;
    }
  }

  /** How acre row az's exit column t1 follows its entry column t0, entered after s0 straight
      acre rows and leaving with count s1: the river keeps its column or makes a good move, the
      count restarts on a turn, and a blocked or overlong straight run turns when it can. */
  predicate ColumnStep(town: Town, az: int, t0: int, t1: int, s0: int, s1: int)
    requires town.Valid()
    reads town.tiles
  {
    0 <= t1 < WIDTH
    && (t1 == t0 || GoodMove(town, az, t0, t1))
    && s1 == (if t1 == t0 then s0 + 1 else 0)
    && (((s0 >= MAX_CONSECUTIVE_STRAIGHT || !MoveDescends(town, az, t0, t0)) && SomeUnitMove(town, az, t0)) ==> t1 != t0)
  }

  /** Every acre row's exit column follows its entry column as ColumnStep says. */
  predicate ColumnsChosen(town: Town, targets: seq<int>, straights: seq<int>)
    requires town.Valid()
    reads town.tiles
  {
    |targets| == HEIGHT && |straights| == HEIGHT
    && forall az :: 0 <= az < HEIGHT - 1 ==>
         ColumnStep(town, az, targets[az], targets[az + 1], straights[az], straights[az + 1])
  }

  /** Acre row az, entered at column t0 with straight count s0 and its draws starting at p0,
      leaves at column t1 with count s1 and the stream at p1, as ExitStep says. */
  predicate RowDrawn(town: Town, raw: nat -> nat, config: TownConfig, az: int, t0: int, t1: int, s0: int, s1: int,
                     p0: nat, p1: nat)
    requires town.Valid()
    reads town.tiles
  {
    ExitStep(town, raw, p0, config, az, t0, s0) == ExitOutcome(t1, s1, p1)
  }

  /** Every acre row's exit column, straight count and stream position follow from its entry
      ones by ExitStep on the raw stream: positions[az] is where acre row az's draws start. */
  predicate ColumnsDrawn(town: Town, raw: nat -> nat, config: TownConfig, targets: seq<int>, straights: seq<int>,
                         positions: seq<nat>)
    requires town.Valid()
    reads town.tiles
  {
    |targets| == HEIGHT && |straights| == HEIGHT && |positions| == HEIGHT
    && forall az :: 0 <= az < HEIGHT - 1 ==>
         RowDrawn(town, raw, config, az, targets[az], targets[az + 1], straights[az], straights[az + 1],
                  positions[az], positions[az + 1])
  }

  /** The column loop of rivers::Execute: a target column per acre row, the first drawn
      uniformly, each next one chosen by ChooseExitColumn. straights records how many acre rows
      the river had run straight on entering each row, positions where each row's draws start. */
  method ChooseColumns(town: Town, rng: Rng, config: TownConfig)
    returns (targets: seq<int>, ghost straights: seq<int>, ghost positions: seq<nat>)
    requires town.Valid()
    modifies rng
    ensures |targets| == HEIGHT && |straights| == HEIGHT && |positions| == HEIGHT
    ensures targets[0] == Uniform(rng.raw(old(rng.pos)), 0, WIDTH - 1)
    ensures 0 <= targets[0] < WIDTH && straights[0] == 0
    ensures positions[0] == old(rng.pos) + 1 && positions[HEIGHT - 1] == rng.pos
    ensures ColumnsChosen(town, targets, straights)
    ensures ColumnsDrawn(town, rng.raw, config, targets, straights, positions)
    ensures old(rng.pos) + HEIGHT <= rng.pos <= old(rng.pos) + 1 + 4 * (HEIGHT - 1)
  {
    var currentCol := rng.UniformInt(0, WIDTH - 1);
    targets := [currentCol];
    straights := [0];
    positions := [rng.pos];
    var consecutiveStraight := 0;
    var az := 0;
    while az < HEIGHT - 1
      invariant 0 <= az <= HEIGHT - 1
      invariant |targets| == az + 1 && |straights| == az + 1 && |positions| == az + 1
      invariant targets[0] == Uniform(rng.raw(old(rng.pos)), 0, WIDTH - 1)
      invariant 0 <= targets[0] < WIDTH && straights[0] == 0 && positions[0] == old(rng.pos) + 1
      invariant currentCol == targets[az] && consecutiveStraight == straights[az] && 0 <= currentCol < WIDTH
      invariant positions[az] == rng.pos
      invariant forall k :: 0 <= k < az ==>
                  RowDrawn(town, rng.raw, config, k, targets[k], targets[k + 1], straights[k], straights[k + 1],
                           positions[k], positions[k + 1])
      invariant old(rng.pos) + 1 + az <= rng.pos <= old(rng.pos) + 1 + 4 * az
    {
      var nextCol;
      nextCol, consecutiveStraight := ChooseExitColumn(town, rng, config, az, currentCol, consecutiveStraight);
      assert RowDrawn(town, rng.raw, config, az, currentCol, nextCol, straights[az], consecutiveStraight,
                      positions[az], rng.pos);
      targets := targets + [nextCol];
      straights := straights + [consecutiveStraight];
      positions := positions + [rng.pos];
      currentCol := nextCol;
      az := az + 1;
    }
    DrawnColumnsChosen(town, rng.raw, config, targets, straights, positions);
  }

  /** A drawn column sequence follows the row rules of ColumnStep. */
  lemma DrawnColumnsChosen(town: Town, raw: nat -> nat, config: TownConfig, targets: seq<int>, straights: seq<int>,
                           positions: seq<nat>)
    requires town.Valid()
    requires ColumnsDrawn(town, raw, config, targets, straights, positions)
    requires 0 <= targets[0] < WIDTH
    ensures ColumnsChosen(town, targets, straights)
  {
    forall az | 0 <= az < HEIGHT - 1
      ensures ColumnStep(town, az, targets[az], targets[az + 1], straights[az], straights[az + 1])
    {
      DrawnColumnsInRange(town, raw, config, targets, straights, positions, az);
      assert RowDrawn(town, raw, config, az, targets[az], targets[az + 1], straights[az], straights[az + 1],
                      positions[az], positions[az + 1]);
      ExitStepMeaning(town, raw, positions[az], config, az, targets[az], straights[az]);
    }
  }

  /** What every acre row of a drawn column sequence means: the river leaves its column exactly
      when it wants a turn and a single-column move descends, and then moves by the run length
      its draws give or by one column, to one of that turn's candidates. */
  lemma DrawnRowMeaning(town: Town, raw: nat -> nat, config: TownConfig, targets: seq<int>, straights: seq<int>,
                        positions: seq<nat>, az: int)
    requires town.Valid()
    requires ColumnsDrawn(town, raw, config, targets, straights, positions)
    requires 0 <= targets[0] < WIDTH
    requires 0 <= az < HEIGHT - 1
    ensures 0 <= targets[az] < WIDTH
    ensures targets[az + 1] != targets[az]
            <==> WantsTurn(town, raw, positions[az], config, az, targets[az], straights[az])
                 && SomeUnitMove(town, az, targets[az])
    ensures targets[az + 1] != targets[az] ==>
              targets[az + 1] in Candidates(town, az, targets[az], RunLength(raw, positions[az], config))
              && (Abs(targets[az + 1] - targets[az]) == RunLength(raw, positions[az], config)
                  || Abs(targets[az + 1] - targets[az]) == 1)
    ensures positions[az] + 1 <= positions[az + 1] <= positions[az] + 4
  {
    DrawnColumnsInRange(town, raw, config, targets, straights, positions, az);
    assert RowDrawn(town, raw, config, az, targets[az], targets[az + 1], straights[az], straights[az + 1],
                    positions[az], positions[az + 1]);
    ExitStepMeaning(town, raw, positions[az], config, az, targets[az], straights[az]);
  }

  /** Every drawn target column up to acre row az lies inside the town. */
  lemma {:induction false} DrawnColumnsInRange(town: Town, raw: nat -> nat, config: TownConfig, targets: seq<int>,
                                               straights: seq<int>, positions: seq<nat>, az: int)
    requires town.Valid()
    requires ColumnsDrawn(town, raw, config, targets, straights, positions)
    requires 0 <= targets[0] < WIDTH
    requires 0 <= az < HEIGHT
    ensures 0 <= targets[az] < WIDTH
    decreases az
  {
    if az > 0 {
      DrawnColumnsInRange(town, raw, config, targets, straights, positions, az - 1);
      assert RowDrawn(town, raw, config, az - 1, targets[az - 1], targets[az], straights[az - 1], straights[az],
                      positions[az - 1], positions[az]);
      ExitStepMeaning(town, raw, positions[az - 1], config, az - 1, targets[az - 1], straights[az - 1]);
    }
  }

  /** Every target column lies inside the town, and neighbouring acre rows' targets are at most
      three columns apart. */
  lemma {:induction false} TargetsInRange(town: Town, targets: seq<int>, straights: seq<int>)
    requires town.Valid()
    requires |targets| == HEIGHT && |straights| == HEIGHT && 0 <= targets[0] < WIDTH
    requires forall az :: 0 <= az < HEIGHT - 1 ==>
               ColumnStep(town, az, targets[az], targets[az + 1], straights[az], straights[az + 1])
    ensures forall az :: 0 <= az < HEIGHT ==> 0 <= targets[az] < WIDTH
    ensures forall az :: 0 <= az < HEIGHT - 1 ==> Abs(targets[az + 1] - targets[az]) <= 3
  {
    forall az | 0 <= az < HEIGHT
      ensures 0 <= targets[az] < WIDTH
    {
      if az > 0 {
        assert ColumnStep(town, az - 1, targets[az - 1], targets[az], straights[az - 1], straights[az]);
      }
    }
    forall az | 0 <= az < HEIGHT - 1
      ensures Abs(targets[az + 1] - targets[az]) <= 3
    {
      assert ColumnStep(town, az, targets[az], targets[az + 1], straights[az], straights[az + 1]);
    }
  }

  /** The river never runs straight through more than MAX_CONSECUTIVE_STRAIGHT + 1 acre rows in
      a row while a single-column move would descend: the straight count stays at most
      MAX_CONSECUTIVE_STRAIGHT on entering any row from which the river could turn. */
  lemma StraightRunsAreBroken(town: Town, targets: seq<int>, straights: seq<int>, az: int)
    requires town.Valid()
    requires |targets| == HEIGHT && |straights| == HEIGHT
    requires forall k :: 0 <= k < HEIGHT - 1 ==>
               ColumnStep(town, k, targets[k], targets[k + 1], straights[k], straights[k + 1])
    requires 0 <= az < HEIGHT - 1 && straights[az] >= MAX_CONSECUTIVE_STRAIGHT
    requires SomeUnitMove(town, az, targets[az])
    ensures targets[az + 1] != targets[az] && straights[az + 1] == 0
  {
    assert ColumnStep(town, az, targets[az], targets[az + 1], straights[az], straights[az + 1]);
  }

  // ── Centre line ──────────────────────────────────────────────────────────────

  /** The acre row whose target column world row z follows: rows above the bend follow their
      own acre row, rows from the bend down follow the next one (the last acre row its own). */
  function TargetRow(z: int): int
    requires 0 <= z < WORLD_H
  {
    if z % SIZE < RIVER_CONNECTION_POINT_OFFSET then z / SIZE else Min(z / SIZE + 1, HEIGHT - 1)
  }

  /** The centre-line loop of rivers::Execute: the river's centre x on every world row. */
  method BuildCenterLine(targets: seq<int>) returns (centers: seq<int>)
    requires |targets| == HEIGHT
    ensures |centers| == WORLD_H
    ensures forall z :: 0 <= z < WORLD_H ==> centers[z] == ConnX(targets[TargetRow(z)])
  {
    centers := [];
    var z := 0;
    while z < WORLD_H
      invariant 0 <= z <= WORLD_H && |centers| == z
      invariant forall k :: 0 <= k < z ==> centers[k] == ConnX(targets[TargetRow(k)])
    {
      var currAcre := z / SIZE;
      var nextAcre := Min(currAcre + 1, HEIGHT - 1);
      var localZ := z % SIZE;
      var targetCol := if localZ < RIVER_CONNECTION_POINT_OFFSET then targets[currAcre] else targets[nextAcre];
      centers := centers + [ConnX(targetCol)];
      z := z + 1;
    }
  }

  /** Within acre row az the centre line is the path CheckPathValid tested: its rows above the
      bend sit at the entry column's connection x and its rows from the bend on at the exit
      column's, so the line only jumps on bend rows. */
  lemma CenterLineFollowsPaths(targets: seq<int>, z: int)
    requires |targets| == HEIGHT
    requires 0 <= z < WORLD_H
    ensures z / SIZE < HEIGHT - 1 ==>
              TargetRow(z) == if z % SIZE < RIVER_CONNECTION_POINT_OFFSET then z / SIZE else z / SIZE + 1
    ensures z / SIZE == HEIGHT - 1 ==> TargetRow(z) == HEIGHT - 1
    ensures 0 < z && z % SIZE != RIVER_CONNECTION_POINT_OFFSET ==> TargetRow(z) == TargetRow(z - 1)
  {
  }
}
