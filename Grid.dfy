/**
 * The fold of the linear day sequence into the city's 14 x 26 grid
 * (src/app/components/GithubCity.tsx, the row/column loops of `TerrainMesh`).
 */
module Grid {

  const Rows: nat := 14
  const Cols: nat := 26
  /** 14 * 26: the number of cells, and of days the grid can show. */
  const CellCount: nat := 364

  datatype Cell = Cell(row: nat, col: nat)

  predicate InGrid(c: Cell) { c.row < Rows && c.col < Cols }

  /** `col * 2 + Math.floor(row / 7) + (row % 7) * 52`: the day shown at a cell. */
  function DataIndex(c: Cell): nat {
    c.col * 2 + c.row / 7 + (c.row % 7) * 52
  }

  /** The cell that shows day i: the inverse of DataIndex. */
  function CellOfDay(i: nat): Cell {
    Cell((i % 52) % 2 * 7 + i / 52, (i % 52) / 2)
  }

  /** Every cell of the grid reads a day in [0, 364). */
  lemma DataIndexInRange(c: Cell)
    requires InGrid(c)
    ensures DataIndex(c) < CellCount
  {
  }

  /** CellOfDay undoes DataIndex: no two cells read the same day. */
  lemma CellOfDataIndex(c: Cell)
    requires InGrid(c)
    ensures CellOfDay(DataIndex(c)) == c
  {
    var i := DataIndex(c);
    var h, q := c.row / 7, c.row % 7;
    assert c.row == h * 7 + q;
    assert i == q * 52 + (c.col * 2 + h);
    assert c.col * 2 + h < 52;
    assert i / 52 == q && i % 52 == c.col * 2 + h;
    assert (c.col * 2 + h) % 2 == h && (c.col * 2 + h) / 2 == c.col;
  }

  /** DataIndex undoes CellOfDay: every day in [0, 364) is read by some cell. */
  lemma DataIndexOfCell(i: nat)
    requires i < CellCount
    ensures InGrid(CellOfDay(i)) && DataIndex(CellOfDay(i)) == i
  {
    var q, m := i / 52, i % 52;
    var c := CellOfDay(i);
    assert i == q * 52 + m;
    assert c.row == m % 2 * 7 + q && c.col == m / 2;
    assert c.row / 7 == m % 2 && c.row % 7 == q;
    assert m == m / 2 * 2 + m % 2;
  }

  /** The fold is one-to-one on the grid. */
  lemma DataIndexInjective(c1: Cell, c2: Cell)
    requires InGrid(c1) && InGrid(c2)
    requires DataIndex(c1) == DataIndex(c2)
    ensures c1 == c2
  {
    CellOfDataIndex(c1);
    CellOfDataIndex(c2);
  }

  // ---------------------------------------------------------------------------
  // The cells that hold a building

  /** The k-th cell visited by the row-major `for (row ...) for (col ...)` loops. */
  function CellAt(k: nat): Cell { Cell(k / 26, k % 26) }

  /** The position of a cell in the row-major visiting order. */
  function Visit(c: Cell): nat { c.row * 26 + c.col }

  lemma CellAtVisit(c: Cell)
    requires InGrid(c)
    ensures CellAt(Visit(c)) == c
  {
  }

  lemma VisitCellAt(k: nat)
    requires k < CellCount
    ensures InGrid(CellAt(k)) && Visit(CellAt(k)) == k
  {
  }

  /**
   * The cells among the first k visited whose day index falls inside a sequence
   * of n days, in visiting order: the cells for which a building is made.
   */
  function PresentCells(n: nat, k: nat): seq<Cell>
    requires k <= CellCount
  {
    if k == 0 then []
    else PresentCells(n, k - 1) + (if DataIndex(CellAt(k - 1)) < n then [CellAt(k - 1)] else [])
  }

  /** Which cells PresentCells holds: the grid cells visited so far whose day index is below n. */
  lemma {:induction false} PresentCellsMembers(n: nat, k: nat)
    requires k <= CellCount
    ensures forall c :: c in PresentCells(n, k) <==> InGrid(c) && Visit(c) < k && DataIndex(c) < n
  {
    if k > 0 {
      PresentCellsMembers(n, k - 1);
      VisitCellAt(k - 1);
      forall c | InGrid(c) && Visit(c) == k - 1
        ensures c == CellAt(k - 1)
      {
        CellAtVisit(c);
      }
    }
  }

  /** PresentCells lists its cells in visiting order, so no cell twice. */
  lemma {:induction false} PresentCellsOrdered(n: nat, k: nat)
    requires k <= CellCount
    ensures forall i, j :: 0 <= i < j < |PresentCells(n, k)| ==>
              Visit(PresentCells(n, k)[i]) < Visit(PresentCells(n, k)[j])
  {
    if k > 0 {
      PresentCellsOrdered(n, k - 1);
      PresentCellsMembers(n, k - 1);
      VisitCellAt(k - 1);
      var P := PresentCells(n, k - 1);
      forall i | 0 <= i < |P|
        ensures Visit(P[i]) < k - 1
      {
        assert P[i] in P;
      }
    }
  }

  /**
   * The cells among the first `col` of grid row `row` whose day index falls inside
   * a sequence of n days: what one pass of the inner loop makes buildings for.
   */
  function RowCells(n: nat, row: nat, col: nat): seq<Cell> {
    if col == 0 then []
    else RowCells(n, row, col - 1) + (if DataIndex(Cell(row, col - 1)) < n then [Cell(row, col - 1)] else [])
  }

  lemma {:induction false} RowCellsMembers(n: nat, row: nat, col: nat)
    ensures forall c :: c in RowCells(n, row, col) <==> c.row == row && c.col < col && DataIndex(c) < n
  {
    if col > 0 {
      RowCellsMembers(n, row, col - 1);
    }
  }

  /** Visiting the grid row by row: the cells of the k = row * 26 cells before row `row`, then those of row `row`. */
  lemma {:induction false} PresentCellsByRow(n: nat, row: nat, k: nat, col: nat)
    requires row < Rows && k == row * 26 && col <= Cols
    ensures PresentCells(n, k + col) == PresentCells(n, k) + RowCells(n, row, col)
  {
    if col > 0 {
      PresentCellsByRow(n, row, k, col - 1);
      assert CellAt(k + col - 1) == Cell(row, col - 1);
      var extra := if DataIndex(Cell(row, col - 1)) < n then [Cell(row, col - 1)] else [];
      assert PresentCells(n, k + col) == PresentCells(n, k + (col - 1)) + extra;
      assert RowCells(n, row, col) == RowCells(n, row, col - 1) + extra;
      assert PresentCells(n, k) + RowCells(n, row, col - 1) + extra
          == PresentCells(n, k) + (RowCells(n, row, col - 1) + extra);
    }
  }

  /** The days shown by a list of cells, in the same order. */
  function DaysOf(cells: seq<Cell>): (days: seq<nat>)
    ensures |days| == |cells|
  {
    if cells == [] then [] else DaysOf(cells[..|cells| - 1]) + [DataIndex(cells[|cells| - 1])]
  }

  lemma {:induction false} DaysOfAt(cells: seq<Cell>, i: nat)
    requires i < |cells|
    ensures DaysOf(cells)[i] == DataIndex(cells[i])
  {
    if i < |cells| - 1 {
      DaysOfAt(cells[..|cells| - 1], i);
    }
  }

  /** No day is shown by two present cells. */
  lemma PresentDaysDistinct(n: nat)
    ensures forall i, j :: 0 <= i < j < |DaysOf(PresentCells(n, CellCount))| ==>
              DaysOf(PresentCells(n, CellCount))[i] != DaysOf(PresentCells(n, CellCount))[j]
  {
    var P := PresentCells(n, CellCount);
    var D := DaysOf(P);
    PresentCellsMembers(n, CellCount);
    PresentCellsOrdered(n, CellCount);
    forall i, j | 0 <= i < j < |P|
      ensures D[i] != D[j]
    {
      DaysOfAt(P, i);
      DaysOfAt(P, j);
      assert P[i] in P && P[j] in P;
      if D[i] == D[j] {
        DataIndexInjective(P[i], P[j]);
      }
    }
  }

  /** The present cells show exactly the days below min(n, 364). */
  lemma PresentDaysAreAll(n: nat)
    ensures forall d: nat :: d in DaysOf(PresentCells(n, CellCount)) <==> d < n && d < CellCount
  {
    var D := DaysOf(PresentCells(n, CellCount));
    forall d: nat
      ensures d in D <==> d < n && d < CellCount
    {
      if d in D {
        var i :| 0 <= i < |D| && D[i] == d;
        PresentDayInRange(n, i);
      }
      if d < n && d < CellCount {
        PresentDayShown(n, d);
      }
    }
  }

  lemma PresentDayInRange(n: nat, i: nat)
    requires i < |PresentCells(n, CellCount)|
    ensures DaysOf(PresentCells(n, CellCount))[i] < n && DaysOf(PresentCells(n, CellCount))[i] < CellCount
  {
    var P := PresentCells(n, CellCount);
    PresentCellsMembers(n, CellCount);
    DaysOfAt(P, i);
    assert P[i] in P;
    DataIndexInRange(P[i]);
  }

  lemma PresentDayShown(n: nat, d: nat)
    requires d < n && d < CellCount
    ensures d in DaysOf(PresentCells(n, CellCount))
  {
    var P := PresentCells(n, CellCount);
    PresentCellsMembers(n, CellCount);
    DataIndexOfCell(d);
    var c := CellOfDay(d);
    assert c in P;
    var i :| 0 <= i < |P| && P[i] == c;
    DaysOfAt(P, i);
  }

  /** The number of buildings: one per day, up to the 364 cells of the grid. */
  lemma PresentCellCount(n: nat)
    ensures |PresentCells(n, CellCount)| == if n < CellCount then n else CellCount
  {
    var D := DaysOf(PresentCells(n, CellCount));
    var m := if n < CellCount then n else CellCount;
    PresentDaysDistinct(n);
    PresentDaysAreAll(n);
    var all: seq<nat> := seq(m, i requires 0 <= i < m => i);
    assert (set d: nat | d in D) == (set d: nat | d in all) by {
      forall d: nat
        ensures d in D <==> d in all
      {
        if 0 <= d < m { assert all[d] == d; }
      }
    }
    DistinctSetSize(D);
    DistinctSetSize(all);
  }

  lemma {:induction false} DistinctSetSize<T>(s: seq<T>)
    requires forall i, j :: 0 <= i < j < |s| ==> s[i] != s[j]
    ensures |set x | x in s| == |s|
  {
    if s != [] {
      var front, last := s[..|s| - 1], s[|s| - 1];
      DistinctSetSize(front);
      assert s == front + [last];
      assert last !in front by {
        forall i | 0 <= i < |front| ensures front[i] != last { assert front[i] == s[i]; }
      }
      assert (set x | x in s) == (set x | x in front) + {last};
    }
  }
}
