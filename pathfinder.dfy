/** Pathfinder.cs: the component that snaps the monster's and the player's
    positions to grid-cell centres, runs A* between them, and replans on a
    timer. The two tracked transforms are the `monster` and `player`
    parameters; the grid is the scene's one GridManager. */
module Pathfinding {
  import opened Common
  import opened Geometry
  import opened Nodes
  import opened Grid
  import opened AStar

  /** `GetGridCellCenter(GetGridIndex(p))`: the centre of the cell holding an
      in-bounds point. For a point off the grid, GetGridIndex answers -1 and the
      centre of the cell GetRow(-1)/GetColumn(-1) names comes back: a cell
      outside the grid. */
  function Snap(layout: Layout, p: Point): (q: Point)
    requires layout.WellFormed()
    ensures layout.IsInBounds(p) ==> forall c :: layout.CellHolds(c, p) ==> layout.InRange(c) && q == layout.CentreOf(c)
    ensures !layout.IsInBounds(p) ==> q == layout.CentreOf(layout.CellOf(-1)) && !layout.InRange(layout.CellOf(-1))
  {
    var i := layout.GetGridIndex(p);
    MinusOneOffGrid(layout);
    if layout.IsInBounds(p) then
      assert forall c :: layout.CellHolds(c, p) ==> c == layout.CellOf(i) by {
        forall c | layout.CellHolds(c, p) ensures c == layout.CellOf(i) {
          layout.CellsDisjoint(c, layout.CellOf(i), p);
        }
      }
      layout.GetGridCellCenter(i)
    else
      layout.GetGridCellCenter(i)
  }

  /** GetRow and GetColumn of -1 name a cell outside the grid: row 0, column -1
      with more than one column, row -1 with a single one. */
  lemma MinusOneOffGrid(layout: Layout)
    requires layout.WellFormed()
    ensures layout.numOfColumns > 1 ==> layout.CellOf(-1) == Cell(0, -1)
    ensures layout.numOfColumns == 1 ==> layout.CellOf(-1) == Cell(-1, 0)
    ensures !layout.InRange(layout.CellOf(-1))
  {
    var n := layout.numOfColumns;
    if n > 1 {
      DivUnique(1, n, 0, 1);
    }
  }

  /** Two in-bounds points of one cell snap to the same centre, and snapping a
      centre again leaves it where it is. */
  lemma SnapSameCell(layout: Layout, p: Point, r: Point)
    requires layout.WellFormed() && layout.IsInBounds(p) && layout.IsInBounds(r)
    requires layout.GetGridIndex(p) == layout.GetGridIndex(r)
    ensures Snap(layout, p) == Snap(layout, r)
    ensures Snap(layout, Snap(layout, p)) == Snap(layout, p)
  {
    layout.SnapIsIdempotent(p);
    var q := Snap(layout, p);
    var i := layout.GetGridIndex(p);
    layout.CellOfIndex(i);
    layout.CentreRoundTrip(layout.CellOf(i));
    assert layout.IsInBounds(q);
  }

  /** GetNeighbours reads a node off the grid as the cell CellOf(-1), and
      around that cell AssignNeighbour's written guard lets a cell through that
      is outside the array: (0, -2), or (-2, 0) for a single column, which the
      guard tries in either neighbourhood. `nodes[column, row]` then throws. */
  lemma OffGridStartEscapesGuard(layout: Layout, allowDiagonal: bool)
    requires layout.WellFormed()
    ensures layout.numOfColumns > 1 ==>
      Cell(0, -2) in CandidateCells(layout.CellOf(-1), allowDiagonal) && GuardAsWritten(layout, 0, -2) && !layout.InRange(Cell(0, -2))
    ensures layout.numOfColumns == 1 ==>
      Cell(-2, 0) in CandidateCells(layout.CellOf(-1), allowDiagonal) && GuardAsWritten(layout, -2, 0) && !layout.InRange(Cell(-2, 0))
  {
    MinusOneOffGrid(layout);
    if layout.numOfColumns > 1 {
      LeftIsCandidate(layout.CellOf(-1), allowDiagonal);
    } else {
      UpIsCandidate(layout.CellOf(-1), allowDiagonal);
    }
  }

  /** AStar.FindPath expands its start node first unless that node already
      sits on the goal. When the monster is off the grid its start node is at
      the centre of CellOf(-1), whose neighbourhood throws (see
      OffGridStartEscapesGuard), so FindPath ends before line 78 assigns
      pathArray. */
  predicate SearchThrows(layout: Layout, monster: Point, player: Point)
    requires layout.WellFormed()
  {
    !layout.IsInBounds(monster) && Snap(layout, monster) != Snap(layout, player)
  }

  /** The search throws exactly when the monster is off the grid and the
      player on it: two off-grid points snap to one centre, and an off-grid
      centre is never an in-range one. */
  lemma SearchThrowsWhen(layout: Layout, monster: Point, player: Point)
    requires layout.WellFormed()
    ensures SearchThrows(layout, monster, player) <==> !layout.IsInBounds(monster) && layout.IsInBounds(player)
  {
    if !layout.IsInBounds(monster) && layout.IsInBounds(player) {
      var c := layout.CellOf(layout.GetGridIndex(player));
      layout.CentreInjective(layout.CellOf(-1), c);
    }
  }

  class Pathfinder {
    const grid: GridManager
    /** The inspector-set replanning interval, 1.0 by default. */
    const intervalTime: real
    var startNode: Node?
    var goalNode: Node?
    /** The last A* answer; `None` is C#'s null. */
    var pathArray: Option<seq<Node>>
    var elapsedTime: real
    /** What the last search saw: the neighbour lists and the nodes it closed. */
    ghost var last: Trace

    /** The fields as the component is created, before Start. */
    constructor (grid: GridManager, intervalTime: real)
      ensures this.grid == grid && this.intervalTime == intervalTime
      ensures startNode == null && goalNode == null && pathArray == None && elapsedTime == 0.0
    {
      this.grid := grid;
      this.intervalTime := intervalTime;
      startNode, goalNode := null, null;
      pathArray := None;
      elapsedTime := 0.0;
      last := Trace(map[], {});
    }

    /** Lines 75-76: endpoint nodes at the snapped positions. */
    ghost predicate Snapped(monster: Point, player: Point)
      requires grid.layout.WellFormed()
      reads this
    {
      && startNode != null && goalNode != null
      && startNode.position == Snap(grid.layout, monster)
      && goalNode.position == Snap(grid.layout, player)
    }

    /** What FindPath leaves behind when the search returns: `last.nb` is the
        grid's neighbour relation, and A*'s answer is a walk along it from the
        start node to a node on the goal's position, or `None` once the search
        has closed a region around the start, free of the goal, that no
        neighbour link leaves (see NoPlanMeansUnreachable). */
    ghost predicate Planned(monster: Point, player: Point)
      requires grid.layout.WellFormed()
      reads this, grid, grid.nodes, grid.NodeSet`bObstacle
    {
      && Snapped(monster, player)
      && last.nb == NeighbourMap(grid, grid.NodeSet + {startNode})
      && (pathArray.Some? ==> Leads(last.nb, startNode, goalNode.position, pathArray.value))
      && (pathArray.None? ==> Exhausted(last, startNode, goalNode.position))
      && (startNode.position == goalNode.position ==> pathArray == Some([startNode]))
    }

    /** Lines 22-23: an empty path list, then one search. */
    method Start(monster: Point, player: Point, cost: (Point, Point) -> real)
      requires grid.Valid()
      modifies this, grid.NodeSet`g, grid.NodeSet`h, grid.NodeSet`f, grid.NodeSet`parent
      ensures grid.Valid() && elapsedTime == old(elapsedTime)
      ensures fresh(startNode) && fresh(goalNode) && Snapped(monster, player)
      ensures SearchThrows(grid.layout, monster, player) ==> pathArray == Some([])
      ensures !SearchThrows(grid.layout, monster, player) ==> Planned(monster, player)
    {
      pathArray := Some([]);
      FindPath(monster, player, cost);
    }

    /** Lines 26-31: the timer runs up by the frame time and, once it reaches
        the interval, is reset and a new path is searched. */
    method Update(dt: real, monster: Point, player: Point, cost: (Point, Point) -> real)
      requires grid.Valid()
      modifies this, grid.NodeSet`g, grid.NodeSet`h, grid.NodeSet`f, grid.NodeSet`parent
      ensures grid.Valid()
      ensures old(elapsedTime) + dt >= intervalTime ==>
        elapsedTime == 0.0 && fresh(startNode) && fresh(goalNode) && Snapped(monster, player)
      ensures old(elapsedTime) + dt >= intervalTime && SearchThrows(grid.layout, monster, player) ==>
        pathArray == old(pathArray)
      ensures old(elapsedTime) + dt >= intervalTime && !SearchThrows(grid.layout, monster, player) ==>
        Planned(monster, player)
      ensures old(elapsedTime) + dt < intervalTime ==>
        elapsedTime == old(elapsedTime) + dt && elapsedTime < intervalTime
        && startNode == old(startNode) && goalNode == old(goalNode) && pathArray == old(pathArray)
    {
      elapsedTime := elapsedTime + dt;
      if elapsedTime >= intervalTime {
        elapsedTime := 0.0;
        FindPath(monster, player, cost);
      }
    }

    /** Lines 71-79. Both endpoints become new nodes at their cell centres and
        the A* answer replaces the path list wholesale. Nothing checks that the
        endpoints are on the grid: with the monster off it and the player on
        it, the search throws and the old path list stays. */
    method FindPath(monster: Point, player: Point, cost: (Point, Point) -> real)
      requires grid.Valid()
      modifies this, grid.NodeSet`g, grid.NodeSet`h, grid.NodeSet`f, grid.NodeSet`parent
      ensures grid.Valid() && elapsedTime == old(elapsedTime)
      ensures fresh(startNode) && fresh(goalNode) && Snapped(monster, player)
      ensures SearchThrows(grid.layout, monster, player) ==> pathArray == old(pathArray)
      ensures !SearchThrows(grid.layout, monster, player) ==> Planned(monster, player)
    {
      var from := new Node.At(Snap(grid.layout, monster));
      var to := new Node.At(Snap(grid.layout, player));
      startNode, goalNode := from, to;
      if SearchThrows(grid.layout, monster, player) {
        return;
      }
      var path, seen, closed := Search(grid, from, to, cost);
      Store(path, Trace(seen, closed), grid.NodeSet + {from});
    }

    /** Line 78 once the search has returned: the answer replaces the path
        list, and the search's view of the grid is recorded with it. */
    method Store(path: Option<seq<Node>>, ghost t: Trace, ghost u: set<Node>)
      requires grid.layout.WellFormed() && startNode != null && goalNode != null
      requires u == grid.NodeSet + {startNode} && t.nb == NeighbourMap(grid, u)
      modifies this
      ensures pathArray == path && last == t
      ensures startNode == old(startNode) && goalNode == old(goalNode) && elapsedTime == old(elapsedTime)
      ensures u == grid.NodeSet + {startNode} && last.nb == NeighbourMap(grid, u)
    {
      pathArray, last := path, t;
      assert unchanged(grid, grid.nodes, grid.NodeSet`bObstacle);
    }
  }

  /** `AStar.FindPath(startNode, goalNode)` as Pathfinder uses it: over the
      grid's neighbour relation `nb`, a parent chain from the start to a node
      on the goal's position, the start alone when the two positions agree,
      and `None` only after closing every node reachable from the start. */
  method Search(grid: GridManager, start: Node, goal: Node, cost: (Point, Point) -> real)
    returns (path: Option<seq<Node>>, ghost nb: Neighbours, ghost explored: set<Node>)
    requires grid.Valid() && start !in grid.NodeSet && start.parent == null
    modifies grid.NodeSet`g, grid.NodeSet`h, grid.NodeSet`f, grid.NodeSet`parent, start`g, start`h, start`f
    ensures grid.Valid() && nb == NeighbourMap(grid, grid.NodeSet + {start})
    ensures path.Some? ==> ParentChain(nb, cost, start, path.value)
    ensures path.Some? ==> Leads(nb, start, goal.position, path.value)
    ensures path.None? ==> start in explored && AwayFrom(explored, goal.position) && Expanded(nb, explored, explored)
    ensures start.position == goal.position ==> path == Some([start])
  {
    path, nb, explored := AStar.FindPath(grid, start, goal, cost);
    NeighbourMapSnapshot(grid, grid.NodeSet + {start});
  }

  /** The neighbour lists a search saw and the nodes it closed. */
  datatype Trace = Trace(nb: Neighbours, explored: set<Node>)

  /** The search closed a region holding `start`, off `goal`, that no
      neighbour link leaves. */
  ghost predicate Exhausted(t: Trace, start: Node, goal: Point)
  {
    start in t.explored && AwayFrom(t.explored, goal) && Expanded(t.nb, t.explored, t.explored)
  }

  /** `p` walks along neighbour links from `start` to a node on `goal`. */
  ghost predicate Leads(nb: Neighbours, start: Node, goal: Point, p: seq<Node>)
  {
    |p| != 0 && p[0] == start && Walk(nb, p) && p[|p| - 1].position == goal
  }

  /** Every node of a planned path after the start is a grid node that is not
      an obstacle. */
  lemma PlannedAvoidsObstacles(p: Pathfinder, monster: Point, player: Point)
    requires p.grid.Valid() && p.Planned(monster, player) && p.pathArray.Some?
    ensures forall k :: 0 < k < |p.pathArray.value| ==>
      p.pathArray.value[k] in p.grid.NodeSet && !p.pathArray.value[k].bObstacle
  {
    NeighbourMapSnapshot(p.grid, p.grid.NodeSet + {p.startNode});
    PathAvoidsObstacles(p.grid, p.last.nb, p.startNode, p.pathArray.value);
  }

  /** When the plan is `None`, no walk along neighbour links from the start
      node reaches the goal's position. */
  lemma NoPlanMeansUnreachable(p: Pathfinder, monster: Point, player: Point, w: seq<Node>)
    requires p.grid.layout.WellFormed() && p.Planned(monster, player) && p.pathArray.None?
    requires |w| != 0 && w[0] == p.startNode && Walk(p.last.nb, w)
    ensures w[|w| - 1].position != p.goalNode.position
  {
    NoWalkReachesGoal(p.last.nb, p.startNode, p.goalNode.position, p.last.explored, w);
  }

  /** Monster and player in one cell: the search answers the start node alone. */
  lemma SameCellPath(p: Pathfinder, monster: Point, player: Point)
    requires p.grid.layout.WellFormed() && p.Planned(monster, player)
    requires p.grid.layout.IsInBounds(monster) && p.grid.layout.IsInBounds(player)
    requires p.grid.layout.GetGridIndex(monster) == p.grid.layout.GetGridIndex(player)
    ensures p.pathArray == Some([p.startNode])
  {
    SnapSameCell(p.grid.layout, monster, player);
  }
}
