/** The 4x4 board of optional units, stored as one row-major list of cells (Board.kt). */
module Boards {
  import opened Wrappers
  import opened Core

  /** A placed unit. `level` starts at 1 and grows only by merging. */
  datatype UnitInstance = UnitInstance(id: string, role: string, cooldownMs: int, level: int)

  type Cell = Option<UnitInstance>

  predicate IsEmptyCell(c: Cell)
  {
    c.None?
  }

  datatype Board = Board(rows: int, cols: int, cells: seq<Cell>)

  /** `Board()`: the default 4x4 board with every cell empty. */
  function EmptyBoard(): (b: Board)
    ensures b.rows == 4 && b.cols == 4 && |b.cells| == 16
    ensures forall i :: 0 <= i < |b.cells| ==> b.cells[i].None?
  {
    Board(BOARD_ROWS, BOARD_COLS, seq(BOARD_ROWS * BOARD_COLS, _ => None))
  }

  /** Number of occupied cells. */
  function OccupiedCount(cells: seq<Cell>): (n: nat)
    ensures n <= |cells|
  {
    if cells == [] then 0
    else OccupiedCount(cells[..|cells| - 1]) + (if cells[|cells| - 1].Some? then 1 else 0)
  }

  /** The occupants of `cells` in order (`filterNotNull`). */
  function Occupants(cells: seq<Cell>): (us: seq<UnitInstance>)
  {
    if cells == [] then []
    else Occupants(cells[..|cells| - 1]) + (if cells[|cells| - 1].Some? then [cells[|cells| - 1].value] else [])
  }

  /** `allUnits()`: the units on the board, in row-major order, one per occupied cell. */
  function AllUnits(b: Board): (us: seq<UnitInstance>)
    ensures |us| == OccupiedCount(b.cells)
  {
    OccupantsLength(b.cells);
    Occupants(b.cells)
  }

  lemma {:induction false} OccupantsLength(cells: seq<Cell>)
    ensures |Occupants(cells)| == OccupiedCount(cells)
  {
    if cells != [] {
      OccupantsLength(cells[..|cells| - 1]);
    }
  }

  /** The rank of cell `i` among the occupied cells: how many occupied cells precede it. */
  function Rank(cells: seq<Cell>, i: nat): nat
    requires i <= |cells|
  {
    OccupiedCount(cells[..i])
  }

  /** Ranks never decrease along the board. */
  lemma {:induction false} RankMonotone(cells: seq<Cell>, i: nat, j: nat)
    requires i <= j <= |cells|
    ensures Rank(cells, i) <= Rank(cells, j)
  {
    if i < j {
      RankMonotone(cells, i, j - 1);
      assert cells[..j][..j - 1] == cells[..j - 1];
    }
  }

  /** Rank steps up by one exactly across an occupied cell. */
  lemma RankStep(cells: seq<Cell>, i: nat)
    requires i < |cells|
    ensures Rank(cells, i + 1) == Rank(cells, i) + (if cells[i].Some? then 1 else 0)
  {
    assert cells[..i + 1][..i] == cells[..i];
  }

  /**
   * `allUnits()` lists exactly the occupied cells in row-major order: the
   * occupant of the cell of rank k is the k-th unit.
   */
  lemma {:induction false} AllUnitsAt(cells: seq<Cell>, i: nat)
    requires i < |cells| && cells[i].Some?
    ensures Rank(cells, i) < |Occupants(cells)|
    ensures Occupants(cells)[Rank(cells, i)] == cells[i].value
  {
    var n := |cells| - 1;
    var front := cells[..n];
    OccupantsLength(cells);
    OccupantsLength(front);
    if i == n {
      assert cells[..i] == front;
    } else {
      AllUnitsAt(front, i);
      assert front[..i] == cells[..i];
    }
  }

  /** What `withUpdatedUnits(units)` leaves in cell `i`. */
  function UpdatedCell(cells: seq<Cell>, units: seq<UnitInstance>, i: nat): Cell
    requires i < |cells|
  {
    if cells[i].None? then None
    else if Rank(cells, i) < |units| then Some(units[Rank(cells, i)])
    else cells[i]
  }

  /** The board `withUpdatedUnits(units)` returns: every cell as `UpdatedCell` gives it. */
  function UpdatedBoard(b: Board, units: seq<UnitInstance>): Board
  {
    b.(cells := seq(|b.cells|, i requires 0 <= i < |b.cells| => UpdatedCell(b.cells, units, i)))
  }

  /**
   * `withUpdatedUnits(units)`: writes `units` into the occupied cells in
   * order, stopping when the list runs out; empty cells stay empty.
   */
  method WithUpdatedUnits(b: Board, units: seq<UnitInstance>) returns (r: Board)
    ensures r.rows == b.rows && r.cols == b.cols && |r.cells| == |b.cells|
    ensures forall i :: 0 <= i < |b.cells| ==> r.cells[i] == UpdatedCell(b.cells, units, i)
    ensures forall i :: 0 <= i < |b.cells| ==> (r.cells[i].None? <==> b.cells[i].None?)
    ensures units == AllUnits(b) ==> r == b
    ensures r == UpdatedBoard(b, units)
  {
    var updatedCells := b.cells;
    var unitIdx := 0;
    var index := 0;
    while index < |updatedCells|
      invariant 0 <= index <= |b.cells| == |updatedCells|
      invariant unitIdx == Rank(b.cells, index) && unitIdx <= |units|
      invariant forall j :: 0 <= j < index ==> updatedCells[j] == UpdatedCell(b.cells, units, j)
      invariant forall j :: index <= j < |b.cells| ==> updatedCells[j] == b.cells[j]
    {
      RankStep(b.cells, index);
      if updatedCells[index].Some? {
        if unitIdx >= |units| {
          forall j | index <= j < |b.cells|
            ensures updatedCells[j] == UpdatedCell(b.cells, units, j)
          {
            RankMonotone(b.cells, index, j);
          }
          break;
        }
        updatedCells := updatedCells[index := Some(units[unitIdx])];
        unitIdx := unitIdx + 1;
      }
      index := index + 1;
    }
    r := b.(cells := updatedCells);
    if units == AllUnits(b) {
      forall i | 0 <= i < |b.cells| ensures r.cells[i] == b.cells[i] {
        UpdatedCellWithOwnUnits(b.cells, i);
      }
    }
  }

  /** Writing a board's own units back leaves every cell as it was. */
  lemma UpdatedCellWithOwnUnits(cells: seq<Cell>, i: nat)
    requires i < |cells|
    ensures UpdatedCell(cells, Occupants(cells), i) == cells[i]
  {
    if cells[i].Some? {
      AllUnitsAt(cells, i);
    }
  }

  /** Two boards with the same occupied cells have the same occupied count. */
  lemma {:induction false} SameOccupancySameCount(a: seq<Cell>, b: seq<Cell>)
    requires |a| == |b|
    requires forall i :: 0 <= i < |a| ==> (a[i].None? <==> b[i].None?)
    ensures OccupiedCount(a) == OccupiedCount(b)
  {
    if a != [] {
      SameOccupancySameCount(a[..|a| - 1], b[..|b| - 1]);
    }
  }

  /** Overwriting one cell changes the occupied count by the change in that cell's occupancy. */
  lemma {:induction false} OccupiedCountUpdate(cells: seq<Cell>, i: nat, c: Cell)
    requires i < |cells|
    ensures OccupiedCount(cells[i := c]) + (if cells[i].Some? then 1 else 0)
         == OccupiedCount(cells) + (if c.Some? then 1 else 0)
  {
    var n := |cells| - 1;
    assert cells[i := c][..n] == if i == n then cells[..n] else cells[..n][i := c];
    if i < n {
      OccupiedCountUpdate(cells[..n], i, c);
    }
  }
}
