/** The pure arithmetic of GridManager: row-major index <-> (row, column) <-> cell
    centre, and the bounds test that guards GetGridIndex.  Floats are exact reals. */
module Geometry {
  import opened Common

  /** A Vector3. */
  datatype Point = Point(x: real, y: real, z: real)

  /** A grid cell by row (along z) and column (along x). */
  datatype Cell = Cell(row: int, col: int)

  /** The inspector-set shape of a GridManager: numOfRows, numOfColumns,
      gridCellSize and the (never reassigned) origin. */
  datatype Layout = Layout(numOfRows: int, numOfColumns: int, gridCellSize: real, origin: Point)
  {
    predicate WellFormed()
    {
      numOfRows > 0 && numOfColumns > 0 && gridCellSize > 0.0
    }

    function Cells(): int
    {
      numOfRows * numOfColumns
    }

    predicate InRange(c: Cell)
    {
      0 <= c.row < numOfRows && 0 <= c.col < numOfColumns
    }

    /** The row-major index of a cell. */
    function IndexOf(c: Cell): int
    {
      c.row * numOfColumns + c.col
    }

    /** GetRow: `index / numOfColumns` with C# truncating division. */
    function GetRow(index: int): int
      requires numOfColumns > 0
    {
      CsDiv(index, numOfColumns)
    }

    /** GetColumn: `index % numOfColumns` with C# remainder. */
    function GetColumn(index: int): int
      requires numOfColumns > 0
    {
      CsRem(index, numOfColumns)
    }

    /** The cell GetRow/GetColumn read out of an index (also for index -1). */
    function CellOf(index: int): Cell
      requires numOfColumns > 0
    {
      Cell(GetRow(index), GetColumn(index))
    }

    /** The world position of a cell's lower-left corner. */
    function CornerOf(c: Cell): Point
    {
      Point(origin.x + Offset(c.col, gridCellSize), origin.y, origin.z + Offset(c.row, gridCellSize))
    }

    /** The world position of a cell's centre. */
    function CentreOf(c: Cell): Point
    {
      var p := CornerOf(c);
      Point(p.x + gridCellSize / 2.0, p.y, p.z + gridCellSize / 2.0)
    }

    function GetGridCellPosition(index: int): Point
      requires numOfColumns > 0
    {
      CornerOf(CellOf(index))
    }

    function GetGridCellCenter(index: int): Point
      requires numOfColumns > 0
    {
      CentreOf(CellOf(index))
    }

    /** The x/z extent of cell `c` holds `p`: its corner inclusive, its far edges exclusive. */
    predicate CellHolds(c: Cell, p: Point)
    {
      && origin.x + Offset(c.col, gridCellSize) <= p.x < origin.x + Offset(c.col + 1, gridCellSize)
      && origin.z + Offset(c.row, gridCellSize) <= p.z < origin.z + Offset(c.row + 1, gridCellSize)
    }

    /** IsInBounds as the source writes it: the far edges are INCLUSIVE. */
    predicate IsInBoundsAsWritten(p: Point)
    {
      var width := Offset(numOfColumns, gridCellSize);
      var height := Offset(numOfRows, gridCellSize);
      p.x >= origin.x && p.x <= origin.x + width && p.z <= origin.z + height && p.z >= origin.z
    }

    /** IsInBounds with the far edges excluded, the box the grid's cells tile. */
    predicate IsInBounds(p: Point)
    {
      var width := Offset(numOfColumns, gridCellSize);
      var height := Offset(numOfRows, gridCellSize);
      p.x >= origin.x && p.x < origin.x + width && p.z < origin.z + height && p.z >= origin.z
    }

    /** The column/row arithmetic of GetGridIndex once its bounds test has passed. */
    function IndexAt(p: Point): int
      requires gridCellSize > 0.0
    {
      var col := Truncate((p.x - origin.x) / gridCellSize);
      var row := Truncate((p.z - origin.z) / gridCellSize);
      row * numOfColumns + col
    }

    /** GetGridIndex as the source writes it, with the inclusive bounds test. */
    function GetGridIndexAsWritten(p: Point): int
      requires gridCellSize > 0.0
    {
      if !IsInBoundsAsWritten(p) then -1 else IndexAt(p)
    }

    /** GetGridIndex with the half-open bounds test: -1 exactly outside the grid,
        otherwise the index of the one cell that holds the point. */
    function GetGridIndex(p: Point): (i: int)
      requires WellFormed()
      ensures i == -1 <==> !IsInBounds(p)
      ensures IsInBounds(p) ==> 0 <= i < Cells() && InRange(CellOf(i)) && CellHolds(CellOf(i), p)
    {
      if !IsInBounds(p) then -1
      else
        var c := CellHolding(p);
        RowColumnRoundTrip(c.row, c.col);
        IndexAt(p)
    }

    /** The cell whose extent holds an in-bounds point. */
    function CellHolding(p: Point): (c: Cell)
      requires WellFormed() && IsInBounds(p)
      ensures InRange(c) && CellHolds(c, p)
      ensures IndexAt(p) == IndexOf(c)
    {
      var s := gridCellSize;
      var dx := p.x - origin.x;
      var dz := p.z - origin.z;
      DivThenScale(dx, s);
      DivThenScale(dz, s);
      ScaledFloor(dx / s, s, numOfColumns);
      ScaledFloor(dz / s, s, numOfRows);
      Cell(Truncate(dz / s), Truncate(dx / s))
    }

    /** Row and column read back the cell an in-range index was built from. */
    lemma {:induction false} RowColumnRoundTrip(row: int, col: int)
      requires WellFormed() && InRange(Cell(row, col))
      ensures 0 <= IndexOf(Cell(row, col)) < Cells()
      ensures GetRow(IndexOf(Cell(row, col))) == row
      ensures GetColumn(IndexOf(Cell(row, col))) == col
    {
      var n := numOfColumns;
      MulMonotone(0, row, n);
      MulMonotone(row + 1, numOfRows, n);
      DivUnique(row * n + col, n, row, col);
    }

    /** The cell of an in-range index is in range and re-encodes to the index. */
    lemma {:induction false} CellOfIndex(i: int)
      requires WellFormed() && 0 <= i < Cells()
      ensures InRange(CellOf(i)) && IndexOf(CellOf(i)) == i
    {
      var n := numOfColumns;
      var r := GetRow(i);
      MulMonotone(r, -1, n);
      MulMonotone(numOfRows, r, n);
    }

    /** GetGridIndex of a cell's centre gives back that cell's index. */
    lemma {:induction false} CentreRoundTrip(c: Cell)
      requires WellFormed() && InRange(c)
      ensures IsInBounds(CentreOf(c))
      ensures GetGridIndex(CentreOf(c)) == IndexOf(c)
      ensures CellOf(GetGridIndex(CentreOf(c))) == c
    {
      var s := gridCellSize;
      var q := CentreOf(c);
      OffsetStep(c.col, s);
      OffsetStep(c.row, s);
      OffsetMonotone(c.col + 1, numOfColumns, s);
      OffsetMonotone(c.row + 1, numOfRows, s);
      OffsetMonotone(0, c.col, s);
      OffsetMonotone(0, c.row, s);
      var h := CellHolding(q);
      CellsDisjoint(h, c, q);
      RowColumnRoundTrip(c.row, c.col);
    }

    /** The grid index of an in-range index's centre is that index. */
    lemma {:induction false} IndexCentreRoundTrip(i: int)
      requires WellFormed() && 0 <= i < Cells()
      ensures GetGridIndex(GetGridCellCenter(i)) == i
    {
      CellOfIndex(i);
      CentreRoundTrip(CellOf(i));
    }

    /** Snapping an in-bounds point to its cell centre moves it by at most half a
        cell on each axis, and snapping again changes nothing. */
    lemma {:induction false} SnapIsIdempotent(p: Point)
      requires WellFormed() && IsInBounds(p)
      ensures var q := GetGridCellCenter(GetGridIndex(p));
        && -gridCellSize / 2.0 <= q.x - p.x <= gridCellSize / 2.0
        && -gridCellSize / 2.0 <= q.z - p.z <= gridCellSize / 2.0
        && GetGridIndex(q) == GetGridIndex(p)
    {
      var i := GetGridIndex(p);
      var c := CellOf(i);
      assert CellHolds(c, p);
      CellOfIndex(i);
      CentreRoundTrip(c);
      OffsetStep(c.col, gridCellSize);
      OffsetStep(c.row, gridCellSize);
    }

    /** Centres of two different cells are different points: positions compare
        equal exactly when the cells do. */
    lemma {:induction false} CentreInjective(a: Cell, b: Cell)
      requires WellFormed()
      ensures CentreOf(a) == CentreOf(b) <==> a == b
    {
      var s := gridCellSize;
      OffsetMonotone(a.col, b.col, s);
      OffsetMonotone(b.col, a.col, s);
      OffsetMonotone(a.row, b.row, s);
      OffsetMonotone(b.row, a.row, s);
    }

    /** At most one cell holds a point. */
    lemma {:induction false} CellsDisjoint(a: Cell, b: Cell, p: Point)
      requires WellFormed() && CellHolds(a, p) && CellHolds(b, p)
      ensures a == b
    {
      var s := gridCellSize;
      OffsetMonotone(a.col + 1, b.col, s);
      OffsetMonotone(b.col + 1, a.col, s);
      OffsetMonotone(a.row + 1, b.row, s);
      OffsetMonotone(b.row + 1, a.row, s);
    }

    /** With the inclusive test a point on the right edge of row 0 is accepted and
        aliases to column 0 of row 1; the half-open test rejects it. */
    lemma RightEdgeAliasesNextRow()
      requires WellFormed() && numOfRows >= 2
      ensures var p := Point(origin.x + Offset(numOfColumns, gridCellSize), origin.y, origin.z);
        && IsInBoundsAsWritten(p)
        && GetGridIndexAsWritten(p) == numOfColumns
        && CellOf(GetGridIndexAsWritten(p)) == Cell(1, 0)
        && GetGridIndex(p) == -1
    {
      var p := Point(origin.x + Offset(numOfColumns, gridCellSize), origin.y, origin.z);
      assert (p.x - origin.x) / gridCellSize == numOfColumns as real;
      RowColumnRoundTrip(1, 0);
    }

    /** With the inclusive test a point on the top edge is accepted and yields an
        index past the last cell; the half-open test rejects it. */
    lemma TopEdgeOverflowsGrid()
      requires WellFormed()
      ensures var p := Point(origin.x, origin.y, origin.z + Offset(numOfRows, gridCellSize));
        && IsInBoundsAsWritten(p)
        && GetGridIndexAsWritten(p) == Cells()
        && !InRange(CellOf(GetGridIndexAsWritten(p)))
        && GetGridIndex(p) == -1
    {
      var p := Point(origin.x, origin.y, origin.z + Offset(numOfRows, gridCellSize));
      assert (p.z - origin.z) / gridCellSize == numOfRows as real;
      DivUnique(Cells(), numOfColumns, numOfRows, 0);
    }

    /** Off the far edges the two tests agree: they differ only on the edges. */
    lemma {:induction false} BoundsTestsDifferOnlyOnEdges(p: Point)
      requires WellFormed()
      ensures IsInBounds(p) ==> IsInBoundsAsWritten(p) && GetGridIndexAsWritten(p) == GetGridIndex(p)
      ensures IsInBoundsAsWritten(p) && !IsInBounds(p) ==>
        p.x == origin.x + Offset(numOfColumns, gridCellSize) || p.z == origin.z + Offset(numOfRows, gridCellSize)
    {
    }
  }

  /** Euclidean division is determined by quotient and remainder. */
  lemma {:induction false} DivUnique(a: int, n: int, q: int, r: int)
    requires n > 0 && 0 <= r < n && a == q * n + r
    ensures a / n == q && a % n == r
  {
    var q' := a / n;
    MulMonotone(q' + 1, q, n);
    MulMonotone(q + 1, q', n);
  }

  /** A distance of `n` cells of side `size` (`n * gridCellSize`). */
  function Offset(n: int, size: real): real
  {
    Scale(n as real, size)
  }

  lemma OffsetStep(n: int, size: real)
    ensures Offset(n + 1, size) == Offset(n, size) + size
  {
  }

  lemma OffsetMonotone(m: int, n: int, size: real)
    ensures m <= n && size >= 0.0 ==> Offset(m, size) <= Offset(n, size)
    ensures m < n && size > 0.0 ==> Offset(m, size) < Offset(n, size)
  {
    ScaleMonotone(m as real, n as real, size);
  }

  /** For 0 <= u*size < k cells the truncation of u lies in [0, k) and its cell
      brackets u*size. */
  lemma {:induction false} ScaledFloor(u: real, size: real, k: int)
    requires size > 0.0 && 0.0 <= Scale(u, size) < Offset(k, size)
    ensures 0 <= Truncate(u) < k
    ensures Offset(Truncate(u), size) <= Scale(u, size) < Offset(Truncate(u) + 1, size)
  {
    ScaleMonotone(u, 0.0, size);
    ScaleMonotone(k as real, u, size);
    var t := Truncate(u);
    ScaleMonotone(t as real, u, size);
    ScaleMonotone(u, (t + 1) as real, size);
  }

}
