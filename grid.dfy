/** GridManager.cs: the grid of search nodes, its obstacle survey, and the
    neighbourhoods the A* search expands. */
module Grid {
  import opened Common
  import opened Geometry
  import opened Nodes

  /** The block row of the `k`-th cell: `k / 3` for 0 <= k < 9, written without
      division. */
  function BlockRow(k: int): int
  {
    if k < 3 then 0 else if k < 6 then 1 else 2
  }

  /** The `k`-th cell (0 <= k < 9) of the 3x3 block centred on `c`, in row-major
      order: the order of GetNeighbours' nested loops. */
  function BlockCell(c: Cell, k: int): Cell
  {
    Cell(c.row - 1 + BlockRow(k), c.col - 1 + (k - 3 * BlockRow(k)))
  }

  /** The first `n` cells of the 3x3 block around `c`, skipping the centre
      (k == 4), as the diagonal loops try them. */
  function Block(c: Cell, n: nat): seq<Cell>
    requires n <= 9
  {
    if n == 0 then []
    else Block(c, n - 1) + (if n - 1 == 4 then [] else [BlockCell(c, n - 1)])
  }

  lemma BlockStep(c: Cell, a: int, b: int)
    requires 0 <= a < 3 && 0 <= b < 3
    ensures 3 * a + b == 4 <==> a == 1 && b == 1
    ensures BlockCell(c, 3 * a + b) == Cell(c.row - 1 + a, c.col - 1 + b)
  {
  }

  /** The cells GetNeighbours tries around `c`, in the order it tries them:
      the 3x3 block without its centre, or up, down, left, right. */
  function CandidateCells(c: Cell, allowDiagonal: bool): seq<Cell>
  {
    if allowDiagonal then Block(c, 9)
    else [Cell(c.row - 1, c.col), Cell(c.row + 1, c.col), Cell(c.row, c.col - 1), Cell(c.row, c.col + 1)]
  }

  function Abs(x: int): nat
  {
    if x < 0 then -x else x
  }

  /** The neighbourhood relation, defined independently of the loops: a king's
      move with diagonals, a rook's single step without. */
  predicate Adjacent(a: Cell, b: Cell, allowDiagonal: bool)
  {
    if allowDiagonal then a != b && Abs(b.row - a.row) <= 1 && Abs(b.col - a.col) <= 1
    else Abs(b.row - a.row) + Abs(b.col - a.col) == 1
  }

  lemma AdjacentSymmetric(a: Cell, b: Cell, allowDiagonal: bool)
    ensures Adjacent(a, b, allowDiagonal) <==> Adjacent(b, a, allowDiagonal)
  {
  }

  lemma {:induction false} BlockShape(c: Cell, n: nat)
    requires n <= 9
    ensures |Block(c, n)| == if n > 4 then n - 1 else n
    ensures forall d :: d in Block(c, n) ==> Adjacent(c, d, true)
    ensures forall k :: 0 <= k < n && k != 4 ==> BlockCell(c, k) in Block(c, n)
  {
    if n > 0 {
      BlockShape(c, n - 1);
    }
  }

  /** The cell to the left is tried in either neighbourhood. */
  lemma LeftIsCandidate(c: Cell, allowDiagonal: bool)
    ensures Cell(c.row, c.col - 1) in CandidateCells(c, allowDiagonal)
  {
    if allowDiagonal {
      BlockShape(c, 9);
      assert BlockCell(c, 3) == Cell(c.row, c.col - 1);
    }
  }

  /** The cell above is tried in either neighbourhood. */
  lemma UpIsCandidate(c: Cell, allowDiagonal: bool)
    ensures Cell(c.row - 1, c.col) in CandidateCells(c, allowDiagonal)
  {
    if allowDiagonal {
      BlockShape(c, 9);
      assert BlockCell(c, 1) == Cell(c.row - 1, c.col);
    }
  }

  /** The candidates are exactly the adjacent cells: none is the centre, there are
      8 or 4 of them, and every adjacent cell is among them. */
  lemma {:induction false} CandidatesAreAdjacent(c: Cell, allowDiagonal: bool)
    ensures |CandidateCells(c, allowDiagonal)| == if allowDiagonal then 8 else 4
    ensures forall d :: d in CandidateCells(c, allowDiagonal) <==> Adjacent(c, d, allowDiagonal)
  {
    if allowDiagonal {
      BlockShape(c, 9);
      forall d | Adjacent(c, d, true)
        ensures d in Block(c, 9)
      {
        var k := 3 * (d.row - c.row + 1) + (d.col - c.col + 1);
        assert BlockRow(k) == d.row - c.row + 1;
        assert BlockCell(c, k) == d;
      }
    }
  }

  /** AssignNeighbour's guard as written: it rejects -1 but no other negative. */
  predicate GuardAsWritten(layout: Layout, row: int, column: int)
  {
    row != -1 && column != -1 && row < layout.numOfRows && column < layout.numOfColumns
  }

  /** Around an in-range centre no candidate is below -1, so the written guard is
      exactly the range test. */
  lemma {:induction false} GuardSufficesInRange(layout: Layout, c: Cell, allowDiagonal: bool, d: Cell)
    requires layout.InRange(c) && d in CandidateCells(c, allowDiagonal)
    ensures GuardAsWritten(layout, d.row, d.col) <==> layout.InRange(d)
  {
    CandidatesAreAdjacent(c, allowDiagonal);
  }

  /** A node outside the grid is snapped to index -1, which GetRow/GetColumn read as
      cell (0, -1); its candidate (0, -2) passes the written guard and would index
      `nodes[-2, 0]`. */
  lemma GuardAsWrittenAdmitsNegativeColumn(layout: Layout)
    requires layout.WellFormed() && layout.numOfColumns >= 2
    ensures layout.CellOf(-1) == Cell(0, -1)
    ensures Cell(0, -2) in CandidateCells(Cell(0, -1), true)
    ensures GuardAsWritten(layout, 0, -2) && !layout.InRange(Cell(0, -2))
  {
    DivUnique(1, layout.numOfColumns, 0, 1);
    BlockShape(Cell(0, -1), 9);
    assert BlockCell(Cell(0, -1), 3) == Cell(0, -2);
  }

  /** The obstacle centres CalculateObstacles lists after visiting the first `n`
      cells in row-major order. */
  function ObstacleCentres(layout: Layout, probe: Point -> bool, n: nat): seq<Point>
    requires layout.numOfColumns > 0
  {
    if n == 0 then []
    else
      var p := layout.GetGridCellCenter(n - 1);
      ObstacleCentres(layout, probe, n - 1) + (if probe(p) then [p] else [])
  }

  /** The list holds exactly the centres, among the first `n` cells, whose probe hits
      an obstacle, each once. */
  lemma {:induction false} ObstacleCentresExact(layout: Layout, probe: Point -> bool, n: nat, p: Point)
    requires layout.numOfColumns > 0
    ensures |ObstacleCentres(layout, probe, n)| <= n
    ensures p in ObstacleCentres(layout, probe, n) <==>
      probe(p) && exists k :: 0 <= k < n && p == layout.GetGridCellCenter(k)
  {
    if n > 0 {
      ObstacleCentresExact(layout, probe, n - 1, p);
      var q := layout.GetGridCellCenter(n - 1);
      if probe(p) && (exists k :: 0 <= k < n && p == layout.GetGridCellCenter(k)) {
        var k :| 0 <= k < n && p == layout.GetGridCellCenter(k);
        if k < n - 1 {
          assert p in ObstacleCentres(layout, probe, n - 1);
        } else {
          assert p == q;
        }
      }
    }
  }

  class GridManager {
    const layout: Layout
    const allowDiagonal: bool
    /** `nodes[column, row]`. */
    var nodes: array2<Node?>
    var obstacleBlockList: seq<Point>
    /** The nodes stored in `nodes`. */
    ghost var NodeSet: set<Node>

    ghost predicate Valid()
      reads this, nodes
    {
      && layout.WellFormed()
      && nodes.Length0 == layout.numOfColumns
      && nodes.Length1 == layout.numOfRows
      && (forall j, i :: 0 <= j < nodes.Length0 && 0 <= i < nodes.Length1 ==> nodes[j, i] != null && nodes[j, i] in NodeSet)
      // Each node sits at its cell's centre. The trigger keeps this fact out of
      // proofs that read the array but never speak of positions.
      && (forall c {:trigger layout.CentreOf(c)} :: layout.InRange(c) ==>
           nodes[c.col, c.row] != null && nodes[c.col, c.row].position == layout.CentreOf(c))
    }

    /** The node stored for an in-range cell. */
    function NodeAt(c: Cell): (n: Node)
      requires Valid() && layout.InRange(c)
      reads this, nodes
      ensures n in NodeSet && n.position == layout.CentreOf(c)
    {
      nodes[c.col, c.row]
    }

    /** Different cells hold different nodes. */
    lemma NodeAtInjective(a: Cell, b: Cell)
      requires Valid() && layout.InRange(a) && layout.InRange(b)
      ensures NodeAt(a) == NodeAt(b) <==> a == b
    {
      layout.CentreInjective(a, b);
    }

    /** Awake: an empty obstacle list, then CalculateObstacles. `probe` stands for
        the downward raycast from above a centre hitting an object tagged
        "Obstacle". */
    constructor (layout: Layout, allowDiagonal: bool, probe: Point -> bool)
      requires layout.WellFormed()
      ensures this.layout == layout && this.allowDiagonal == allowDiagonal
      ensures Valid() && fresh(NodeSet)
      ensures forall c :: layout.InRange(c) ==> Surveyed(NodeAt(c), probe)
      ensures obstacleBlockList == ObstacleCentres(layout, probe, layout.Cells())
    {
      this.layout := layout;
      this.allowDiagonal := allowDiagonal;
      nodes := new Node?[0, 0];
      obstacleBlockList := [];
      new;
      CalculateObstacles(probe);
    }

    method CalculateObstacles(probe: Point -> bool)
      requires layout.WellFormed()
      modifies this
      ensures Valid() && fresh(nodes) && fresh(NodeSet)
      ensures forall c :: layout.InRange(c) ==> Surveyed(NodeAt(c), probe)
      ensures obstacleBlockList == old(obstacleBlockList) + ObstacleCentres(layout, probe, layout.Cells())
    {
      var rows, cols := layout.numOfRows, layout.numOfColumns;
      var grid := new Node?[cols, rows];
      ghost var placed: set<Node> := {};
      var found := obstacleBlockList;
      var index := 0;
      var i := 0;
      while i < rows
        invariant 0 <= i <= rows && index == i * cols
        invariant fresh(placed)
        invariant forall n :: n in placed ==> Surveyed(n, probe)
        invariant PlacedBefore(grid, placed, i, 0)
        invariant found == old(obstacleBlockList) + ObstacleCentres(layout, probe, index)
      {
        placed, found, index := SurveyRow(grid, i, index, placed, found, probe, old(obstacleBlockList));
        assert index == (i + 1) * cols by { MulStep(i, cols); }
        i := i + 1;
      }
      nodes := grid;
      NodeSet := placed;
      obstacleBlockList := found;
      assert index == layout.Cells();
      forall j', i' | 0 <= j' < cols && 0 <= i' < rows
        ensures nodes[j', i'] != null && nodes[j', i'] in NodeSet
      {
        assert PlacedIn(grid, placed, j', i');
      }
      forall c | layout.InRange(c)
        ensures nodes[c.col, c.row] != null && nodes[c.col, c.row].position == layout.CentreOf(c)
      {
        assert PlacedIn(grid, placed, c.col, c.row);
      }
    }

    /** CalculateObstacles' inner loop: survey the cells of row `i`, column by
        column, counting the grid index on from `index`. */
    method SurveyRow(grid: array2<Node?>, i: int, index: int, ghost placed: set<Node>, found: seq<Point>,
                     probe: Point -> bool, ghost base: seq<Point>)
      returns (ghost placed': set<Node>, found': seq<Point>, index': int)
      requires layout.WellFormed() && 0 <= i < layout.numOfRows
      requires grid.Length0 == layout.numOfColumns && grid.Length1 == layout.numOfRows
      requires index == i * layout.numOfColumns
      requires forall n :: n in placed ==> Surveyed(n, probe)
      requires PlacedBefore(grid, placed, i, 0)
      requires found == base + ObstacleCentres(layout, probe, index)
      modifies grid
      ensures index' == index + layout.numOfColumns
      ensures fresh(placed' - placed) && placed <= placed'
      ensures forall n :: n in placed' ==> Surveyed(n, probe)
      ensures PlacedBefore(grid, placed', i + 1, 0)
      ensures found' == base + ObstacleCentres(layout, probe, index')
    {
      var cols := layout.numOfColumns;
      placed', found', index' := placed, found, index;
      var j := 0;
      while j < cols
        invariant 0 <= j <= cols && index' == index + j
        invariant fresh(placed' - placed) && placed <= placed'
        invariant forall n :: n in placed' ==> Surveyed(n, probe)
        invariant PlacedBefore(grid, placed', i, j)
        invariant found' == base + ObstacleCentres(layout, probe, index')
      {
        label Top:
        ghost var prev := placed';
        layout.RowColumnRoundTrip(i, j);
        var cellPos := layout.GetGridCellCenter(index');
        var node := NewSurveyedNode(cellPos, probe);
        grid[j, i] := node;
        placed' := placed' + {node};
        forall j', i' | 0 <= j' < cols && 0 <= i' < layout.numOfRows && (i' < i || (i' == i && j' <= j))
          ensures PlacedIn(grid, placed', j', i')
        {
          if i' < i || j' < j {
            assert old@Top(PlacedIn(grid, prev, j', i'));
          }
        }
        if probe(cellPos) {
          found' := found' + [cellPos];
        }
        index' := index' + 1;
        j := j + 1;
      }
      forall j', i' | 0 <= j' < cols && 0 <= i' < layout.numOfRows && i' < i + 1
        ensures PlacedIn(grid, placed', j', i')
      {
        assert i' < i || (i' == i && j' < j);
      }
    }

    /** Every cell before (row i, column j) in row-major order is placed. */
    ghost predicate PlacedBefore(grid: array2<Node?>, placed: set<Node>, i: int, j: int)
      reads grid
    {
      forall j', i' :: 0 <= j' < grid.Length0 && 0 <= i' < grid.Length1 && (i' < i || (i' == i && j' < j)) ==>
        PlacedIn(grid, placed, j', i')
    }

    /** Cell (row i, column j) of `grid` holds a node of `placed` at its centre. */
    ghost predicate PlacedIn(grid: array2<Node?>, placed: set<Node>, j: int, i: int)
      reads grid
    {
      0 <= j < grid.Length0 && 0 <= i < grid.Length1 &&
      grid[j, i] != null && grid[j, i] in placed && grid[j, i].position == layout.CentreOf(Cell(i, j))
    }

    /** The body of CalculateObstacles' loop for one cell: a fresh node at the
        centre, flagged when the probe there hits an obstacle. */
    method NewSurveyedNode(cellPos: Point, probe: Point -> bool) returns (node: Node)
      ensures fresh(node) && node.position == cellPos && Surveyed(node, probe)
    {
      node := new Node.At(cellPos);
      if probe(cellPos) {
        node.MarkAsObstacle();
      }
    }

    /** A node as CalculateObstacles leaves it: constructor defaults, and flagged
        exactly when its centre's probe hits an obstacle. */
    ghost predicate Surveyed(n: Node?, probe: Point -> bool)
      reads n
    {
      n != null && n.g == 1.0 && n.h == 0.0 && n.f == n.g + n.h && n.parent == null && n.bObstacle == probe(n.position)
    }

    /** What AssignNeighbour appends for one cell: its node when the cell is in range
        and not an obstacle. The array bounds and membership tests hold on a valid
        grid; they let the definition stand without that precondition. */
    ghost function AcceptOne(d: Cell): seq<Node>
      reads this, nodes, NodeSet`bObstacle
    {
      if layout.InRange(d) && d.col < nodes.Length0 && d.row < nodes.Length1 then
        var n := nodes[d.col, d.row];
        if n != null && n in NodeSet && !n.bObstacle then [n] else []
      else []
    }

    /** What a run of AssignNeighbour calls over `cells` appends. */
    ghost function Accept(cells: seq<Cell>): seq<Node>
      reads this, nodes, NodeSet`bObstacle
    {
      if cells == [] then []
      else Accept(cells[..|cells| - 1]) + AcceptOne(cells[|cells| - 1])
    }

    /** The neighbours GetNeighbours appends for a node in cell `c`. */
    ghost function NeighbourNodes(c: Cell): seq<Node>
      reads this, nodes, NodeSet`bObstacle
    {
      Accept(CandidateCells(c, allowDiagonal))
    }

    lemma AcceptSnoc(cells: seq<Cell>, d: Cell)
      ensures Accept(cells + [d]) == Accept(cells) + AcceptOne(d)
    {
      assert (cells + [d])[..|cells|] == cells;
    }

    /** AcceptSnoc behind a prefix, grouped as successive appends group. */
    lemma AcceptSnocAfter(prefix: seq<Node>, cells: seq<Cell>, d: Cell)
      ensures prefix + Accept(cells + [d]) == prefix + Accept(cells) + AcceptOne(d)
    {
      AcceptSnoc(cells, d);
    }

    /** GetNeighbours' four explicit calls without diagonals: up, down, left, right. */
    lemma AcceptCross(row: int, column: int, prefix: seq<Node>)
      requires !allowDiagonal
      ensures prefix + NeighbourNodes(Cell(row, column)) ==
        prefix + AcceptOne(Cell(row - 1, column)) + AcceptOne(Cell(row + 1, column)) +
        AcceptOne(Cell(row, column - 1)) + AcceptOne(Cell(row, column + 1))
    {
      var up, down, left, right := Cell(row - 1, column), Cell(row + 1, column), Cell(row, column - 1), Cell(row, column + 1);
      assert [up, down, left] + [right] == CandidateCells(Cell(row, column), false);
      AcceptSnocAfter(prefix, [up, down, left], right);
      assert [up, down] + [left] == [up, down, left];
      AcceptSnocAfter(prefix, [up, down], left);
      assert [up] + [down] == [up, down];
      AcceptSnocAfter(prefix, [up], down);
      assert [] + [up] == [up];
      AcceptSnocAfter(prefix, [], up);
      assert prefix + Accept([]) == prefix;
    }

    /** Every accepted node is the node of an in-range, non-obstacle cell of the
        run; there are no more of them than cells; and every such cell's node is
        accepted. */
    lemma {:induction false} AcceptExact(cells: seq<Cell>)
      requires Valid()
      ensures |Accept(cells)| <= |cells|
      ensures forall n :: n in Accept(cells) ==>
        n in NodeSet && !n.bObstacle && exists d :: d in cells && layout.InRange(d) && n == NodeAt(d)
      ensures forall d :: d in cells && layout.InRange(d) && !NodeAt(d).bObstacle ==> NodeAt(d) in Accept(cells)
    {
      if cells != [] {
        var init := cells[..|cells| - 1];
        AcceptExact(init);
        assert cells == init + [cells[|cells| - 1]];
      }
    }

    /** GetNeighbours is sound and complete for the adjacency relation: it lists
        the node of every in-range, non-obstacle cell adjacent to `c` and nothing
        else, at most 8 (or 4) of them. */
    lemma NeighboursExact(c: Cell)
      requires Valid()
      ensures |NeighbourNodes(c)| <= if allowDiagonal then 8 else 4
      ensures forall n :: n in NeighbourNodes(c) ==>
        n in NodeSet && !n.bObstacle &&
        exists d :: layout.InRange(d) && Adjacent(c, d, allowDiagonal) && n == NodeAt(d)
      ensures forall d :: layout.InRange(d) && Adjacent(c, d, allowDiagonal) && !NodeAt(d).bObstacle ==>
        NodeAt(d) in NeighbourNodes(c)
    {
      CandidatesAreAdjacent(c, allowDiagonal);
      AcceptExact(CandidateCells(c, allowDiagonal));
    }

    /** A grid node is never its own neighbour. */
    lemma NeighboursExcludeSelf(c: Cell)
      requires Valid() && layout.InRange(c)
      ensures NodeAt(c) !in NeighbourNodes(c)
    {
      NeighboursExact(c);
      if NodeAt(c) in NeighbourNodes(c) {
        var d :| layout.InRange(d) && Adjacent(c, d, allowDiagonal) && NodeAt(c) == NodeAt(d);
        NodeAtInjective(c, d);
      }
    }

    /** Between non-obstacle cells the neighbour relation is symmetric. */
    lemma NeighboursSymmetric(a: Cell, b: Cell)
      requires Valid() && layout.InRange(a) && layout.InRange(b)
      requires !NodeAt(a).bObstacle && !NodeAt(b).bObstacle
      ensures NodeAt(b) in NeighbourNodes(a) <==> NodeAt(a) in NeighbourNodes(b)
    {
      NeighboursExact(a);
      NeighboursExact(b);
      AdjacentSymmetric(a, b, allowDiagonal);
      if NodeAt(b) in NeighbourNodes(a) {
        var d :| layout.InRange(d) && Adjacent(a, d, allowDiagonal) && NodeAt(b) == NodeAt(d);
        NodeAtInjective(b, d);
      }
      if NodeAt(a) in NeighbourNodes(b) {
        var d :| layout.InRange(d) && Adjacent(b, d, allowDiagonal) && NodeAt(a) == NodeAt(d);
        NodeAtInjective(a, d);
      }
    }

    /** The cell GetNeighbours reads off a node's position: GetRow and GetColumn
        of its grid index. */
    ghost function CellOfPosition(p: Point): Cell
      requires layout.WellFormed()
    {
      layout.CellOf(layout.GetGridIndex(p))
    }

    /** AssignNeighbour with the full range test; see GuardAsWritten for the
        guard the source writes. */
    method AssignNeighbour(row: int, column: int, neighbors: seq<Node>) returns (result: seq<Node>)
      requires Valid()
      ensures result == neighbors + AcceptOne(Cell(row, column))
    {
      result := neighbors;
      if 0 <= row && 0 <= column && row < layout.numOfRows && column < layout.numOfColumns {
        var nodeToAdd := nodes[column, row];
        if !nodeToAdd.bObstacle {
          result := result + [nodeToAdd];
        }
      }
    }

    method GetNeighbours(node: Node, neighbors: seq<Node>) returns (result: seq<Node>)
      requires Valid()
      ensures result == neighbors + NeighbourNodes(CellOfPosition(node.position))
    {
      var neighborIndex := layout.GetGridIndex(node.position);
      var row := layout.GetRow(neighborIndex);
      var column := layout.GetColumn(neighborIndex);
      result := AssignAround(row, column, neighbors);
    }

    /** The body of GetNeighbours once the node's row and column are known:
        the 3x3 block, or the four calls up, down, left, right. */
    method AssignAround(row: int, column: int, neighbors: seq<Node>) returns (result: seq<Node>)
      requires Valid()
      ensures result == neighbors + NeighbourNodes(Cell(row, column))
    {
      if allowDiagonal {
        result := AssignBlock(row, column, neighbors);
        AcceptBlockIsAccept(Cell(row, column), 9);
      } else {
        AcceptCross(row, column, neighbors);
        result := neighbors;
        result := AssignNeighbour(row - 1, column, result);
        result := AssignNeighbour(row + 1, column, result);
        result := AssignNeighbour(row, column - 1, result);
        result := AssignNeighbour(row, column + 1, result);
      }
    }

    /** GetNeighbours' nested loops over the 3x3 block around (row, column),
        skipping the centre; `k` counts the cells tried. */
    method AssignBlock(row: int, column: int, neighbors: seq<Node>) returns (result: seq<Node>)
      requires Valid()
      ensures result == neighbors + AcceptBlock(Cell(row, column), 9)
    {
      ghost var c, k := Cell(row, column), 0;
      result := neighbors;
      var i := row - 1;
      while i <= row + 1
        invariant row - 1 <= i <= row + 2 && k == 3 * (i - row + 1)
        invariant result == neighbors + AcceptBlock(c, k)
      {
        result := AssignBlockRow(row, column, i, neighbors, result, k);
        k := k + 3;
        i := i + 1;
      }
    }

    /** One pass of AssignBlock's outer loop: the inner loop over row `i` of
        the block. */
    method AssignBlockRow(row: int, column: int, i: int, neighbors: seq<Node>, result: seq<Node>, ghost k: nat)
      returns (result': seq<Node>)
      requires Valid()
      requires row - 1 <= i <= row + 1 && k == 3 * (i - row + 1)
      requires result == neighbors + AcceptBlock(Cell(row, column), k)
      ensures result' == neighbors + AcceptBlock(Cell(row, column), k + 3)
    {
      result' := result;
      ghost var m := k;
      var j := column - 1;
      while j <= column + 1
        invariant column - 1 <= j <= column + 2 && m == k + (j - column + 1)
        invariant result' == neighbors + AcceptBlock(Cell(row, column), m)
      {
        result' := AssignBlockCell(row, column, i, j, neighbors, result', m);
        m := m + 1;
        j := j + 1;
      }
    }

    /** One pass of AssignBlock's inner loop: cell (i, j) of the block, the
        `k`-th in row-major order, is offered to AssignNeighbour unless it is
        the centre. */
    method AssignBlockCell(row: int, column: int, i: int, j: int, neighbors: seq<Node>, result: seq<Node>, ghost k: nat)
      returns (result': seq<Node>)
      requires Valid()
      requires row - 1 <= i <= row + 1 && column - 1 <= j <= column + 1 && k == 3 * (i - row + 1) + (j - column + 1)
      requires result == neighbors + AcceptBlock(Cell(row, column), k)
      ensures result' == neighbors + AcceptBlock(Cell(row, column), k + 1)
    {
      BlockStep(Cell(row, column), i - row + 1, j - column + 1);
      if !((i == row) && (j == column)) {
        result' := AssignNeighbour(i, j, result);
        AcceptBlockStep(neighbors, Cell(row, column), k);
      } else {
        result' := result;
      }
    }

    /** One more cell of the block, grouped as successive appends group. */
    lemma AcceptBlockStep(prefix: seq<Node>, c: Cell, k: nat)
      requires k < 9 && k != 4
      ensures prefix + AcceptBlock(c, k + 1) == prefix + AcceptBlock(c, k) + AcceptOne(BlockCell(c, k))
    {
    }

    /** What AssignBlock's loops have appended once they have tried the first
        `n` cells of the block around `c`. */
    ghost function AcceptBlock(c: Cell, n: nat): seq<Node>
      requires n <= 9
      reads this, nodes, NodeSet`bObstacle
    {
      if n == 0 then []
      else AcceptBlock(c, n - 1) + (if n - 1 == 4 then [] else AcceptOne(BlockCell(c, n - 1)))
    }

    lemma {:induction false} AcceptBlockIsAccept(c: Cell, n: nat)
      requires n <= 9
      ensures AcceptBlock(c, n) == Accept(Block(c, n))
    {
      if n > 0 {
        AcceptBlockIsAccept(c, n - 1);
        if n - 1 != 4 {
          AcceptSnoc(Block(c, n - 1), BlockCell(c, n - 1));
        } else {
          assert Block(c, n) == Block(c, n - 1);
        }
      }
    }
  }
}
