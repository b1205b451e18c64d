/** AStar.cs: A* over the grid nodes, with an open and a closed List, strict
    improvement re-parenting, and path reconstruction along parent links.

    The Euclidean distance CalculateEuclideanCost computes is the parameter
    `cost`: nothing proved here depends on what it returns. */
module AStar {
  import opened Common
  import opened Geometry
  import opened Nodes
  import opened Lists
  import opened Grid

  /** The neighbour lists GetNeighbours returns, per node. The search never
      changes an obstacle flag, so one snapshot taken when it starts serves
      the whole search. */
  type Neighbours = map<Node, seq<Node>>

  /** `nb` is defined exactly on `u` and holds GetNeighbours' answer for each
      of its nodes. */
  ghost predicate Snapshot(grid: GridManager, nb: Neighbours, u: set<Node>)
    requires grid.layout.WellFormed()
    reads grid, grid.nodes, grid.NodeSet`bObstacle
  {
    nb.Keys == u && forall x :: x in u ==> nb[x] == grid.NeighbourNodes(grid.CellOfPosition(x.position))
  }

  /** GetNeighbours' answer for every node of `u`. */
  ghost function NeighbourMap(grid: GridManager, u: set<Node>): Neighbours
    requires grid.layout.WellFormed()
    reads grid, grid.nodes, grid.NodeSet`bObstacle
  {
    map x | x in u :: grid.NeighbourNodes(grid.CellOfPosition(x.position))
  }

  /** A snapshot of `u` is the neighbour map of `u`, and back. */
  lemma NeighbourMapSnapshot(grid: GridManager, u: set<Node>)
    requires grid.layout.WellFormed()
    ensures Snapshot(grid, NeighbourMap(grid, u), u)
    ensures forall nb :: Snapshot(grid, nb, u) ==> nb == NeighbourMap(grid, u)
  {
    forall nb | Snapshot(grid, nb, u)
      ensures nb == NeighbourMap(grid, u)
    {
      assert nb.Keys == NeighbourMap(grid, u).Keys;
    }
  }

  /** `m` is among the neighbours of `n`. */
  ghost predicate Step(nb: Neighbours, n: Node, m: Node)
  {
    n in nb && m in nb[n]
  }

  /** `list` holds exactly the nodes of `s`, each once. */
  ghost predicate Tracks(list: List, s: set<Node>)
    reads list
  {
    multiset(list.nodes) == multiset(s)
  }

  lemma TracksMember(list: List, s: set<Node>, x: Node)
    requires Tracks(list, s)
    ensures x in list.nodes <==> x in s
  {
    assert multiset(list.nodes)[x] == multiset(s)[x];
  }

  lemma MultisetAdd(s: set<Node>, x: Node)
    requires x !in s
    ensures multiset(s + {x}) == multiset(s) + multiset{x}
  {
  }

  lemma MultisetRemove(s: set<Node>, x: Node)
    requires x in s
    ensures multiset(s - {x}) == multiset(s) - multiset{x}
  {
  }

  lemma UnionAbsorb(a: set<Node>, x: Node)
    requires x in a
    ensures a + {x} == a
  {
  }

  lemma UnionShift(a: set<Node>, b: set<Node>, x: Node)
    ensures (a + {x}) + b == (a + b) + {x}
  {
  }

  lemma UnionMove(a: set<Node>, b: set<Node>, x: Node)
    requires x in a
    ensures (a - {x}) + (b + {x}) == a + b
  {
  }

  /** The marks the search leaves on a node: its costs and its parent. */
  datatype Mark = Mark(g: real, h: real, f: real, parent: Node?)

  type Marks = map<Node, Mark>

  /** `marks` records the current marks of every node of `live`. */
  ghost predicate Mirrors(marks: Marks, live: set<Node>)
    reads live
  {
    forall n :: n in live ==> n in marks && marks[n] == Mark(n.g, n.h, n.f, n.parent)
  }

  /** The search tree over the marks. Every live node carries `f == g + h` with
      `h` the heuristic distance to the goal. The start has no parent and costs
      nothing; every other live node hangs off a closed node that lists it as a
      neighbour, and costs its parent's `g` plus the step; closed nodes hang off
      nodes closed earlier (lower rank), so the links are acyclic. */
  ghost predicate Tree(nb: Neighbours, cost: (Point, Point) -> real, start: Node, goal: Point,
                       marks: Marks, live: set<Node>, closed: set<Node>, rank: map<Node, nat>)
  {
    && closed <= live && start in live
    && (forall n :: n in live ==> n in marks)
    && marks[start].parent == null && marks[start].g == 0.0
    && (forall n :: n in live ==> marks[n].f == marks[n].g + marks[n].h && marks[n].h == cost(n.position, goal))
    // Keyed on Parent rather than on `n in live` or on the field itself:
    // either of those would let each parent, itself live, trigger the same
    // fact about its own parent without end.
    && (forall n {:trigger Parent(marks, n)} :: n in live && n != start ==>
          && Parent(marks, n) != null && Parent(marks, n) in closed && Step(nb, Parent(marks, n), n)
          && marks[n].g == marks[Parent(marks, n)].g + cost(n.position, Parent(marks, n).position))
    && (forall n :: n in closed ==> n in rank)
    && (forall n {:trigger Parent(marks, n)} :: n in closed && n != start ==>
          Parent(marks, n) in rank && rank[Parent(marks, n)] < rank[n])
  }

  /** The parent link `marks` records for `n`. */
  ghost function Parent(marks: Marks, n: Node): Node?
    requires n in marks
  {
    marks[n].parent
  }

  /** The marks `n` gets from `current` (lines 68-73 and 89-99). */
  function Through(current: Mark, currentNode: Node, n: Node, goal: Point, cost: (Point, Point) -> real): (m: Mark)
    ensures m.parent == currentNode && m.f == m.g + m.h
    ensures m.g == current.g + cost(n.position, currentNode.position) && m.h == cost(n.position, goal)
  {
    var g := current.g + cost(n.position, currentNode.position);
    var h := cost(n.position, goal);
    Mark(g, h, g + h, currentNode)
  }

  /** Giving a node that is not closed the marks through a closed neighbour
      keeps the tree, with that node live. */
  lemma TreeAdopt(nb: Neighbours, cost: (Point, Point) -> real, start: Node, goal: Point,
                  marks: Marks, live: set<Node>, closed: set<Node>, rank: map<Node, nat>, current: Node, n: Node)
    requires Tree(nb, cost, start, goal, marks, live, closed, rank)
    requires current in closed && n != start && n !in closed && Step(nb, current, n)
    ensures Tree(nb, cost, start, goal, marks[n := Through(marks[current], current, n, goal, cost)], live + {n}, closed, rank)
  {
    var marks' := marks[n := Through(marks[current], current, n, goal, cost)];
    forall x | x in live + {n} && x != start
      ensures Parent(marks', x) != null && Parent(marks', x) in closed && Step(nb, Parent(marks', x), x)
      ensures marks'[x].g == marks'[Parent(marks', x)].g + cost(x.position, Parent(marks', x).position)
    {
      if x != n {
        assert Parent(marks', x) == Parent(marks, x);
      }
    }
    forall x | x in closed && x != start
      ensures Parent(marks', x) in rank && rank[Parent(marks', x)] < rank[x]
    {
      assert Parent(marks', x) == Parent(marks, x);
    }
  }

  /** Closing a live node keeps the tree, with the node ranked after every
      node closed before it. */
  lemma TreeClose(nb: Neighbours, cost: (Point, Point) -> real, start: Node, goal: Point,
                  marks: Marks, live: set<Node>, closed: set<Node>, rank: map<Node, nat>, current: Node, iter: nat)
    requires Tree(nb, cost, start, goal, marks, live, closed, rank)
    requires current in live && current !in closed && forall n :: n in closed ==> rank[n] < iter
    ensures Tree(nb, cost, start, goal, marks, live, closed + {current}, rank[current := iter])
  {
  }

  /** The search state between steps of FindPath's loops: the two lists hold
      disjoint sets of nodes, whose marks form the search tree. */
  ghost predicate Searching(nb: Neighbours, cost: (Point, Point) -> real, start: Node, goal: Point,
                            openList: List, closedList: List, marks: Marks,
                            open: set<Node>, closed: set<Node>, rank: map<Node, nat>)
    reads openList, closedList, open, closed
  {
    && openList != closedList
    && Tracks(openList, open) && Tracks(closedList, closed)
    && SortedByMark(openList.nodes, marks)
    && open !! closed
    && Mirrors(marks, open + closed)
    && Tree(nb, cost, start, goal, marks, open + closed, closed, rank)
  }

  /** `os` in non-decreasing `f`, as `marks` records it. */
  ghost predicate SortedByMark(os: seq<Node>, marks: Marks)
  {
    forall i, j :: 0 <= i < j < |os| ==> os[i] in marks && os[j] in marks && marks[os[i]].f <= marks[os[j]].f
  }

  /** A list sorted by the nodes' `f` fields is sorted by their marks. */
  lemma SortedMarks(os: seq<Node>, marks: Marks, open: set<Node>, live: set<Node>)
    requires Mirrors(marks, live) && open <= live && multiset(os) == multiset(open) && SortedByF(os)
    ensures SortedByMark(os, marks)
  {
    forall i, j | 0 <= i < j < |os|
      ensures os[i] in marks && os[j] in marks && marks[os[i]].f <= marks[os[j]].f
    {
      MarkOfListed(os, marks, open, live, i);
      MarkOfListed(os, marks, open, live, j);
    }
  }

  lemma MarkOfListed(os: seq<Node>, marks: Marks, open: set<Node>, live: set<Node>, k: int)
    requires Mirrors(marks, live) && open <= live && multiset(os) == multiset(open) && 0 <= k < |os|
    ensures os[k] in marks && marks[os[k]].f == os[k].f
  {
    assert os[k] in multiset(os);
  }

  /** The marks of the nodes of `s` are the same in `marks'` as in `marks`. */
  ghost predicate Kept(marks: Marks, marks': Marks, s: set<Node>)
  {
    forall x :: x in s ==> x in marks && x in marks' && marks'[x] == marks[x]
  }

  lemma KeptTrans(a: Marks, b: Marks, c: Marks, s: set<Node>)
    requires Kept(a, b, s) && Kept(b, c, s)
    ensures Kept(a, c, s)
  {
  }

  /** `n` has the least `f` among the nodes of `s`, as `marks` records them. */
  ghost predicate Least(marks: Marks, n: Node, s: set<Node>)
  {
    n in marks && forall m :: m in s ==> m in marks && marks[n].f <= marks[m].f
  }

  /** The head of a list sorted by its marks has the least `f` of the list. */
  lemma HeadLeast(os: seq<Node>, marks: Marks, open: set<Node>)
    requires SortedByMark(os, marks) && |os| != 0 && multiset(os) == multiset(open)
    requires forall x :: x in open ==> x in marks
    ensures os[0] in open && Least(marks, os[0], open)
  {
    assert os[0] in multiset(os);
    forall m | m in open
      ensures marks[os[0]].f <= marks[m].f
    {
      assert m in multiset(os);
      var j :| 0 <= j < |os| && os[j] == m;
    }
  }

  /** Searching, stated over the lists' contents `os` and `cs` rather than
      over the list objects; the open list is kept in `f` order, so its head
      has the least `f`. */
  ghost predicate SearchState(nb: Neighbours, cost: (Point, Point) -> real, start: Node, goal: Point,
                              os: seq<Node>, cs: seq<Node>, marks: Marks,
                              open: set<Node>, closed: set<Node>, rank: map<Node, nat>)
    reads open, closed
  {
    && multiset(os) == multiset(open) && multiset(cs) == multiset(closed)
    && SortedByMark(os, marks)
    && open !! closed
    && Mirrors(marks, open + closed)
    && Tree(nb, cost, start, goal, marks, open + closed, closed, rank)
  }

  lemma StateOfLists(nb: Neighbours, cost: (Point, Point) -> real, start: Node, goal: Point,
                     openList: List, closedList: List, marks: Marks,
                     open: set<Node>, closed: set<Node>, rank: map<Node, nat>)
    requires Searching(nb, cost, start, goal, openList, closedList, marks, open, closed, rank)
    ensures SearchState(nb, cost, start, goal, openList.nodes, closedList.nodes, marks, open, closed, rank)
  {
  }

  lemma ListsOfState(nb: Neighbours, cost: (Point, Point) -> real, start: Node, goal: Point,
                     openList: List, closedList: List, marks: Marks,
                     open: set<Node>, closed: set<Node>, rank: map<Node, nat>)
    requires openList != closedList
    requires SearchState(nb, cost, start, goal, openList.nodes, closedList.nodes, marks, open, closed, rank)
    ensures Searching(nb, cost, start, goal, openList, closedList, marks, open, closed, rank)
  {
  }

  lemma Establish(nb: Neighbours, cost: (Point, Point) -> real, start: Node, goal: Point,
                  openList: List, closedList: List, marks: Marks,
                  open: set<Node>, closed: set<Node>, rank: map<Node, nat>)
    requires openList != closedList && Tracks(openList, open) && Tracks(closedList, closed) && open !! closed
    requires SortedByF(openList.nodes)
    requires Mirrors(marks, open + closed) && Tree(nb, cost, start, goal, marks, open + closed, closed, rank)
    ensures Searching(nb, cost, start, goal, openList, closedList, marks, open, closed, rank)
  {
    SortedMarks(openList.nodes, marks, open, open + closed);
  }

  /** Lines 68-73 and 89-99: `n` gets `current` as its parent and the costs
      of the path through it. */
  method Adopt(current: Node, n: Node, goal: Point, cost: (Point, Point) -> real,
               ghost nb: Neighbours, ghost start: Node, ghost marks: Marks,
               ghost live: set<Node>, ghost closed: set<Node>, ghost rank: map<Node, nat>)
    returns (ghost marks': Marks)
    requires Mirrors(marks, live) && Tree(nb, cost, start, goal, marks, live, closed, rank)
    requires current in closed && n != start && n !in closed && Step(nb, current, n)
    modifies n`g, n`h, n`f, n`parent
    ensures marks' == marks[n := Mark(n.g, n.h, n.f, n.parent)]
    ensures Mirrors(marks', live + {n}) && Tree(nb, cost, start, goal, marks', live + {n}, closed, rank)
    ensures n.parent == current && n.g == current.g + cost(n.position, current.position)
  {
    n.parent := current;
    n.g := current.g + cost(n.position, current.position);
    n.h := cost(n.position, goal);
    n.f := n.g + n.h;
    marks' := marks[n := Mark(n.g, n.h, n.f, n.parent)];
    TreeAdopt(nb, cost, start, goal, marks, live, closed, rank, current, n);
  }

  /** Lines 66-77: a neighbour seen for the first time gets `current` as its
      parent, its costs, and a place on the open list. */
  method OpenNeighbour(current: Node, n: Node, openList: List, goal: Point, cost: (Point, Point) -> real,
                       ghost nb: Neighbours, ghost start: Node, ghost closedList: List, ghost marks: Marks,
                       ghost open: set<Node>, ghost closed: set<Node>, ghost rank: map<Node, nat>)
    returns (ghost marks': Marks, ghost open': set<Node>)
    requires Searching(nb, cost, start, goal, openList, closedList, marks, open, closed, rank)
    requires current in closed && n != start && n !in open + closed && Step(nb, current, n)
    modifies n`g, n`h, n`f, n`parent, openList`nodes
    ensures open' == open + {n} && Kept(marks, marks', closed)
    ensures Searching(nb, cost, start, goal, openList, closedList, marks', open', closed, rank)
    ensures n.parent == current && n.g == current.g + cost(n.position, current.position)
  {
    marks' := Adopt(current, n, goal, cost, nb, start, marks, open + closed, closed, rank);
    openList.Add(n);
    open' := open + {n};
    MultisetAdd(open, n);
    UnionShift(open, closed, n);
    Establish(nb, cost, start, goal, openList, closedList, marks', open', closed, rank);
  }

  /** Lines 79-105: a neighbour already open is re-parented to `current`, with
      new costs and a re-sorted open list, only when going through `current`
      is strictly cheaper. */
  method ImproveNeighbour(current: Node, n: Node, openList: List, goal: Point, cost: (Point, Point) -> real,
                          ghost nb: Neighbours, ghost start: Node, ghost closedList: List, ghost marks: Marks,
                          ghost open: set<Node>, ghost closed: set<Node>, ghost rank: map<Node, nat>)
    returns (ghost marks': Marks)
    requires Searching(nb, cost, start, goal, openList, closedList, marks, open, closed, rank)
    requires current in closed && n != start && n in open && Step(nb, current, n)
    modifies n`g, n`h, n`f, n`parent, openList`nodes
    ensures Searching(nb, cost, start, goal, openList, closedList, marks', open, closed, rank)
    ensures Kept(marks, marks', closed)
    ensures n.g <= old(n.g)
    ensures old(current.g) + cost(n.position, current.position) < old(n.g) ==>
      n.parent == current && n.g == current.g + cost(n.position, current.position)
    ensures old(current.g) + cost(n.position, current.position) >= old(n.g) ==>
      unchanged(n, openList)
  {
    marks' := marks;
    var gTentative := current.g + cost(n.position, current.position);
    if gTentative < n.g {
      marks' := Reparent(current, n, openList, goal, cost, nb, start, closedList, marks, open, closed, rank);
    }
  }

  /** Lines 89-103: an open node takes `current` as its parent, and the open
      list is sorted again by the new costs. */
  method Reparent(current: Node, n: Node, openList: List, goal: Point, cost: (Point, Point) -> real,
                  ghost nb: Neighbours, ghost start: Node, ghost closedList: List, ghost marks: Marks,
                  ghost open: set<Node>, ghost closed: set<Node>, ghost rank: map<Node, nat>)
    returns (ghost marks': Marks)
    requires Searching(nb, cost, start, goal, openList, closedList, marks, open, closed, rank)
    requires current in closed && n != start && n in open && Step(nb, current, n)
    modifies n`g, n`h, n`f, n`parent, openList`nodes
    ensures Searching(nb, cost, start, goal, openList, closedList, marks', open, closed, rank)
    ensures Kept(marks, marks', closed)
    ensures n.parent == current && n.g == current.g + cost(n.position, current.position)
    ensures current.g == old(current.g) && SortedByF(openList.nodes)
  {
    marks' := Adopt(current, n, goal, cost, nb, start, marks, open + closed, closed, rank);
    openList.Sort();
    UnionAbsorb(open + closed, n);
    Establish(nb, cost, start, goal, openList, closedList, marks', open, closed, rank);
  }

  lemma TakeSnoc(s: seq<Node>, i: int)
    requires 0 <= i < |s|
    ensures s[..i + 1] == s[..i] + [s[i]]
  {
  }

  /** Lines 56-106: every neighbour of `current` not yet closed is opened or,
      if already open, offered the path through `current`. */
  method RelaxAll(current: Node, neighbours: seq<Node>, openList: List, closedList: List,
                  goal: Point, cost: (Point, Point) -> real,
                  ghost nb: Neighbours, ghost start: Node, ghost u: set<Node>, ghost marks: Marks,
                  ghost open: set<Node>, ghost closed: set<Node>, ghost rank: map<Node, nat>)
    returns (ghost marks': Marks, ghost open': set<Node>)
    requires Searching(nb, cost, start, goal, openList, closedList, marks, open, closed, rank)
    requires current in closed && current in nb && neighbours == nb[current]
    requires start !in u && forall m :: m in neighbours ==> m in u
    modifies openList`nodes, u`g, u`h, u`f, u`parent
    ensures Searching(nb, cost, start, goal, openList, closedList, marks', open', closed, rank)
    ensures open <= open' && forall m :: m in open' ==> m in open || m in neighbours
    ensures forall m :: m in neighbours ==> m in open' + closed
    ensures Kept(marks, marks', closed)
  {
    marks', open' := marks, open;
    for i := 0 to |neighbours|
      invariant Searching(nb, cost, start, goal, openList, closedList, marks', open', closed, rank)
      invariant Relaxed(marks, marks', open, open', closed, neighbours[..i])
    {
      TakeSnoc(neighbours, i);
      ghost var marks0, open0 := marks', open';
      marks', open' := Relax(current, neighbours[i], openList, closedList, goal, cost, nb, start, marks', open', closed, rank);
      RelaxedStep(marks, marks0, marks', open, open0, open', closed, neighbours[..i], neighbours[i]);
    }
    assert neighbours[..|neighbours|] == neighbours;
  }

  /** What relaxing the neighbours in `done` has done so far: the open set
      grew only by them, each of them is open or closed, and no closed node's
      marks changed. */
  ghost predicate Relaxed(marks: Marks, marks': Marks, open: set<Node>, open': set<Node>,
                          closed: set<Node>, done: seq<Node>)
  {
    && open <= open' && (forall m :: m in open' ==> m in open || m in done)
    && (forall m :: m in done ==> m in open' + closed)
    && Kept(marks, marks', closed)
  }

  lemma RelaxedStep(marks: Marks, marks0: Marks, marks': Marks, open: set<Node>, open0: set<Node>,
                    open': set<Node>, closed: set<Node>, done: seq<Node>, n: Node)
    requires Relaxed(marks, marks0, open, open0, closed, done)
    requires open0 <= open' <= open0 + {n} && n in open' + closed && Kept(marks0, marks', closed)
    ensures Relaxed(marks, marks', open, open', closed, done + [n])
  {
    KeptTrans(marks, marks0, marks', closed);
  }

  /** Lines 58-105, one neighbour: a closed neighbour is skipped, a new one
      opened, an open one offered the path through `current`. */
  method Relax(current: Node, neighbourNode: Node, openList: List, closedList: List,
               goal: Point, cost: (Point, Point) -> real,
               ghost nb: Neighbours, ghost start: Node, ghost marks: Marks,
               ghost open: set<Node>, ghost closed: set<Node>, ghost rank: map<Node, nat>)
    returns (ghost marks': Marks, ghost open': set<Node>)
    requires Searching(nb, cost, start, goal, openList, closedList, marks, open, closed, rank)
    requires current in closed && Step(nb, current, neighbourNode) && neighbourNode != start
    modifies openList`nodes, neighbourNode`g, neighbourNode`h, neighbourNode`f, neighbourNode`parent
    ensures Searching(nb, cost, start, goal, openList, closedList, marks', open', closed, rank)
    ensures open <= open' <= open + {neighbourNode} && neighbourNode in open' + closed
    ensures neighbourNode in closed ==> marks' == marks && open' == open
    ensures Kept(marks, marks', closed)
  {
    marks', open' := marks, open;
    TracksMember(closedList, closed, neighbourNode);
    TracksMember(openList, open, neighbourNode);
    if closedList.Contains(neighbourNode) {
      return;
    }
    if !openList.Contains(neighbourNode) {
      marks', open' := OpenNeighbour(current, neighbourNode, openList, goal, cost, nb, start, closedList, marks, open, closed, rank);
    } else {
      marks' := ImproveNeighbour(current, neighbourNode, openList, goal, cost, nb, start, closedList, marks, open, closed, rank);
    }
  }

  /** Lines 48-49: the current node moves from the open list to the closed
      list, ranked after every node closed before it. */
  method CloseCurrent(current: Node, openList: List, closedList: List,
                      ghost nb: Neighbours, ghost cost: (Point, Point) -> real, ghost start: Node, ghost goal: Point,
                      ghost marks: Marks, ghost open: set<Node>, ghost closed: set<Node>,
                      ghost rank: map<Node, nat>, ghost iter: nat)
    returns (ghost open': set<Node>, ghost closed': set<Node>, ghost rank': map<Node, nat>)
    requires Searching(nb, cost, start, goal, openList, closedList, marks, open, closed, rank)
    requires current in open && forall n :: n in closed ==> rank[n] < iter
    modifies openList`nodes, closedList`nodes
    ensures open' == open - {current} && closed' == closed + {current} && rank' == rank[current := iter]
    ensures forall n :: n in closed' ==> rank'[n] < iter + 1
    ensures Searching(nb, cost, start, goal, openList, closedList, marks, open', closed', rank')
  {
    TreeClose(nb, cost, start, goal, marks, open + closed, closed, rank, current, iter);
    TracksMember(openList, open, current);
    closedList.Add(current);
    openList.Remove(current);
    open', closed', rank' := open - {current}, closed + {current}, rank[current := iter];
    MultisetAdd(closed, current);
    MultisetRemove(open, current);
    UnionMove(open, closed, current);
    SortedMarks(openList.nodes, marks, open', open' + closed');
  }

  /** A path as CalculatePath returns it: it starts at the start node, each
      later node is a neighbour of the one before and has it as its parent, and
      each `g` adds the step's cost to the one before, so the last `g` is the
      cost of the whole path. */
  ghost predicate ParentChain(nb: Neighbours, cost: (Point, Point) -> real, start: Node, p: seq<Node>)
    reads set n | n in p
  {
    && |p| >= 1
    && p[0] == start && start.parent == null && start.g == 0.0
    && forall k :: 0 < k < |p| ==>
         && p[k].parent == p[k - 1] && Step(nb, p[k - 1], p[k])
         && p[k].g == p[k - 1].g + cost(p[k].position, p[k - 1].position)
  }

  /** ParentChain read from the end: each node's parent is the next one. */
  ghost predicate BackChain(nb: Neighbours, cost: (Point, Point) -> real, b: seq<Node>)
    reads set n | n in b
  {
    forall k :: 0 < k < |b| ==>
      && b[k - 1].parent == b[k] && Step(nb, b[k], b[k - 1])
      && b[k - 1].g == b[k].g + cost(b[k - 1].position, b[k].position)
  }

  /** The number of parent links CalculatePath can still follow from `n`. */
  ghost function Height(n: Node?, closed: set<Node>, rank: map<Node, nat>, top: nat): nat
  {
    if n == null then 0
    else if n in closed && n in rank then rank[n] + 1
    else top + 1
  }

  /** Lines 118-126: the parent links from `node` back to the start, collected
      and then reversed. */
  method CalculatePath(node: Node, ghost nb: Neighbours, ghost cost: (Point, Point) -> real,
                       ghost start: Node, ghost goal: Point, ghost marks: Marks,
                       ghost live: set<Node>, ghost closed: set<Node>, ghost rank: map<Node, nat>, ghost top: nat)
    returns (path: seq<Node>)
    requires Mirrors(marks, live) && Tree(nb, cost, start, goal, marks, live, closed, rank) && node in live
    requires forall n :: n in closed ==> rank[n] < top
    ensures ParentChain(nb, cost, start, path) && path[|path| - 1] == node
    ensures node.parent == null ==> path == [node]
  {
    var list: seq<Node> := [];
    var n: Node? := node;
    while n != null
      invariant n == null || n in live
      invariant forall m :: m in list ==> m in live
      invariant list == [] ==> n == node
      invariant list != [] ==> list[0] == node && n == list[|list| - 1].parent
      invariant BackChain(nb, cost, list)
      invariant node.parent == null ==> |list| <= 1
      decreases Height(n, closed, rank, top)
    {
      Link(nb, cost, start, goal, marks, live, closed, rank, n);
      if list != [] {
        Link(nb, cost, start, goal, marks, live, closed, rank, list[|list| - 1]);
      }
      BackChainSnoc(nb, cost, list, n);
      list := list + [n];
      n := n.parent;
    }
    Link(nb, cost, start, goal, marks, live, closed, rank, list[|list| - 1]);
    path := Reversed(list);
    ReversedChain(nb, cost, start, list);
  }

  /** What the tree says about one live node, read off the heap. */
  lemma Link(nb: Neighbours, cost: (Point, Point) -> real, start: Node, goal: Point, marks: Marks,
             live: set<Node>, closed: set<Node>, rank: map<Node, nat>, x: Node)
    requires Mirrors(marks, live) && Tree(nb, cost, start, goal, marks, live, closed, rank) && x in live
    ensures start.parent == null && start.g == 0.0
    ensures x.parent == null <==> x == start
    ensures x != start ==> x.parent in closed && x.parent in live && Step(nb, x.parent, x)
    ensures x != start ==> x.g == x.parent.g + cost(x.position, x.parent.position)
    ensures x in closed && x != start ==> x in rank && x.parent in rank && rank[x.parent] < rank[x]
  {
    assert x.parent == Parent(marks, x);
  }

  /** A back chain grows by the parent of its last node. */
  lemma BackChainSnoc(nb: Neighbours, cost: (Point, Point) -> real, b: seq<Node>, x: Node)
    requires BackChain(nb, cost, b)
    requires b != [] ==> b[|b| - 1].parent == x && Step(nb, x, b[|b| - 1])
    requires b != [] ==> b[|b| - 1].g == x.g + cost(b[|b| - 1].position, x.position)
    ensures BackChain(nb, cost, b + [x])
  {
  }

  /** A back chain ending at the start, reversed, is a ParentChain. */
  lemma ReversedChain(nb: Neighbours, cost: (Point, Point) -> real, start: Node, b: seq<Node>)
    requires |b| >= 1 && b[|b| - 1] == start && start.parent == null && start.g == 0.0
    requires BackChain(nb, cost, b)
    ensures ParentChain(nb, cost, start, Reversed(b))
  {
    var p := Reversed(b);
    forall k | 0 < k < |p|
      ensures p[k].parent == p[k - 1] && Step(nb, p[k - 1], p[k])
      ensures p[k].g == p[k - 1].g + cost(p[k].position, p[k - 1].position)
    {
      assert p[k] == b[|b| - 1 - k] && p[k - 1] == b[|b| - 1 - k + 1];
    }
  }

  /** The reverse of a sequence: ArrayList.Reverse. */
  function Reversed(s: seq<Node>): (r: seq<Node>)
    ensures |r| == |s|
    ensures forall i :: 0 <= i < |s| ==> r[i] == s[|s| - 1 - i]
  {
    if s == [] then [] else Reversed(s[1..]) + [s[0]]
  }

  lemma {:induction false} ReversedInvolution(s: seq<Node>)
    ensures Reversed(Reversed(s)) == s
  {
    var r := Reversed(Reversed(s));
    assert forall i :: 0 <= i < |s| ==> r[i] == s[i];
  }

  /** Every neighbour of a node of `done` has been reached. */
  ghost predicate Expanded(nb: Neighbours, done: set<Node>, reached: set<Node>)
  {
    forall n :: n in done ==> n in nb && forall m :: m in nb[n] ==> m in reached
  }

  /** No node of `s` sits on the goal. */
  ghost predicate AwayFrom(s: set<Node>, goal: Point)
  {
    forall n :: n in s ==> n.position != goal
  }

  /** A walk over the neighbour relation. */
  ghost predicate Walk(nb: Neighbours, w: seq<Node>)
  {
    forall k :: 0 < k < |w| ==> Step(nb, w[k - 1], w[k])
  }

  /** Once the search has closed every node it reached, with the start among
      them and none on the goal, no walk from the start reaches the goal. */
  lemma {:induction false} NoWalkReachesGoal(nb: Neighbours, start: Node, goal: Point, explored: set<Node>, w: seq<Node>)
    requires start in explored && AwayFrom(explored, goal) && Expanded(nb, explored, explored)
    requires |w| >= 1 && w[0] == start && Walk(nb, w)
    ensures forall k :: 0 <= k < |w| ==> w[k] in explored && w[k].position != goal
  {
    if |w| > 1 {
      var init := w[..|w| - 1];
      NoWalkReachesGoal(nb, start, goal, explored, init);
      assert w[|w| - 2] == init[|init| - 1];
      assert Step(nb, w[|w| - 2], w[|w| - 1]);
    }
  }

  /** Lines 16-115. The open list starts with the start node alone; each round
      takes the open node of least `f`, stops with the path to it when it sits
      on the goal, and otherwise closes it and relaxes its neighbours. When the
      open list runs dry the goal was not found: `None`, for C#'s `null`.
      `nb` is the neighbour relation the search saw and `explored` the nodes
      it closed. */
  method FindPath(grid: GridManager, start: Node, goal: Node, cost: (Point, Point) -> real)
    returns (path: Option<seq<Node>>, ghost nb: Neighbours, ghost explored: set<Node>)
    requires grid.Valid() && start !in grid.NodeSet && start.parent == null
    modifies grid.NodeSet`g, grid.NodeSet`h, grid.NodeSet`f, grid.NodeSet`parent, start`g, start`h, start`f
    ensures grid.Valid() && Snapshot(grid, nb, grid.NodeSet + {start})
    ensures path.Some? ==> |path.value| != 0 && path.value[|path.value| - 1].position == goal.position
    ensures path.Some? ==> ParentChain(nb, cost, start, path.value)
    ensures start.position == goal.position ==> path == Some([start])
    ensures path.None? ==> start in explored && AwayFrom(explored, goal.position) && Expanded(nb, explored, explored)
    ensures path.None? ==> forall n :: n in explored ==> n in grid.NodeSet + {start}
  {
    ghost var cells := grid.NodeSet;
    var openList, closedList := Setup(grid, start, goal.position, cost);
    var currentNode: Node? := null;
    ghost var marks: Marks := map[start := Mark(start.g, start.h, start.f, start.parent)];
    ghost var open, closed, rank, iter := {start}, {}, map[], 0;
    ghost var os, cs := openList.nodes, closedList.nodes;
    ghost var u := cells + {start};
    nb := NeighbourMap(grid, u);
    NeighbourMapSnapshot(grid, u);
    Begin(openList, closedList, nb, cost, start, goal.position, marks);
    while openList.Length() != 0
      invariant grid.NodeSet == cells
      invariant grid.Valid() && Snapshot(grid, nb, u)
      invariant openList != closedList && openList.nodes == os && closedList.nodes == cs
      invariant SearchState(nb, cost, start, goal.position, os, cs, marks, open, closed, rank)
      invariant forall n :: n in open + closed ==> n in u
      invariant forall n :: n in closed ==> rank[n] < iter
      invariant Expanded(nb, closed, open + closed) && AwayFrom(closed, goal.position)
      invariant currentNode == null || currentNode in closed
      invariant start.position == goal.position ==> os == [start]
      decreases u - closed
    {
      var found: Option<seq<Node>>;
      currentNode, found, os, cs, marks, open, closed, rank :=
        Turn(grid, openList, closedList, goal.position, cost, nb, start, cells, u, os, cs, marks, open, closed, rank, iter);
      if found.Some? {
        path, explored := found, closed;
        return;
      }
      iter := iter + 1;
    }
    TracksEmpty(openList, open);
    explored := closed;
    if currentNode == null || currentNode.position != goal.position {
      path := None;
    } else {
      assert false;
      path := None;
    }
  }

  /** Lines 39-106, one pass of the loop: the open node of least `f` either
      sits on the goal, and the path to it is `found`, or is closed and its
      neighbours relaxed. `marks` holds every node's `f` as the round finds
      it, so the node taken has the least `f` on the open list; the marks of
      nodes closed earlier stay as they were. */
  method Turn(grid: GridManager, openList: List, closedList: List, goal: Point, cost: (Point, Point) -> real,
              ghost nb: Neighbours, ghost start: Node, ghost cells: set<Node>, ghost u: set<Node>,
              ghost os: seq<Node>, ghost cs: seq<Node>, ghost marks: Marks,
              ghost open: set<Node>, ghost closed: set<Node>, ghost rank: map<Node, nat>, ghost iter: nat)
    returns (currentNode: Node, found: Option<seq<Node>>, ghost os': seq<Node>, ghost cs': seq<Node>, ghost marks': Marks,
             ghost open': set<Node>, ghost closed': set<Node>, ghost rank': map<Node, nat>)
    requires cells == grid.NodeSet && u == cells + {start} && start !in cells
    requires grid.Valid() && Snapshot(grid, nb, u)
    requires openList != closedList && openList.nodes == os && closedList.nodes == cs && |os| != 0
    requires SearchState(nb, cost, start, goal, os, cs, marks, open, closed, rank)
    requires forall n :: n in open + closed ==> n in u
    requires forall n :: n in closed ==> rank[n] < iter
    requires Expanded(nb, closed, open + closed) && AwayFrom(closed, goal)
    requires start.position == goal ==> os == [start]
    modifies openList`nodes, closedList`nodes, cells`g, cells`h, cells`f, cells`parent
    ensures grid.Valid() && Snapshot(grid, nb, u)
    ensures grid.NodeSet == cells
    ensures found.Some? ==> |found.value| != 0 && found.value[|found.value| - 1].position == goal
    ensures found.Some? ==> ParentChain(nb, cost, start, found.value)
    ensures found.Some? && start.position == goal ==> found == Some([start])
    ensures found.Some? ==> closed' == closed
    ensures found.None? ==> openList.nodes == os' && closedList.nodes == cs'
    ensures found.None? ==> SearchState(nb, cost, start, goal, os', cs', marks', open', closed', rank')
    ensures found.None? ==> (forall n :: n in open' + closed' ==> n in u) && forall n :: n in closed' ==> rank'[n] < iter + 1
    ensures found.None? ==> Expanded(nb, closed', open' + closed') && AwayFrom(closed', goal)
    ensures found.None? ==> currentNode in closed' && start.position != goal && u - closed' < u - closed
    ensures found.None? ==> Kept(marks, marks', closed')
    ensures currentNode in open && Least(marks, currentNode, open)
  {
    currentNode := openList.First();
    HeadLeast(os, marks, open);
    TracksMember(openList, open, currentNode);
    if currentNode.position == goal {
      var p := Finish(grid, currentNode, nb, cost, start, goal, u, marks, open + closed, closed, rank, iter);
      found := Some(p);
      os', cs', marks', open', closed', rank' := os, cs, marks, open, closed, rank;
      return;
    }
    found := None;
    assert start.position == goal ==> currentNode == start;
    os', cs', marks', open', closed', rank' := Expand(grid, currentNode, openList, closedList, goal, cost,
                                                      nb, start, cells, u, os, cs, marks, open, closed, rank, iter);
    Progress(u, closed, currentNode, goal);
  }

  /** Closing a reached node that is off the goal keeps the closed set off the
      goal and leaves fewer nodes to close. */
  lemma Progress(u: set<Node>, closed: set<Node>, current: Node, goal: Point)
    requires current in u && current !in closed && current.position != goal && AwayFrom(closed, goal)
    ensures AwayFrom(closed + {current}, goal) && u - (closed + {current}) < u - closed
  {
    assert current in u - closed;
  }

  /** Lines 19-31: a fresh closed list, an open list holding the start, and
      the start's costs. */
  method Setup(grid: GridManager, start: Node, goal: Point, cost: (Point, Point) -> real)
    returns (openList: List, closedList: List)
    requires grid.Valid() && start !in grid.NodeSet
    modifies start`g, start`h, start`f
    ensures fresh(openList) && fresh(closedList) && openList != closedList
    ensures openList.nodes == [start] && closedList.nodes == []
    ensures start.g == 0.0 && start.h == cost(start.position, goal) && start.f == start.g + start.h
    ensures grid.Valid()
  {
    closedList := new List();
    openList := new List();
    openList.Add(start);
    assert openList.nodes == [start] by {
      SingletonMultiset(openList.nodes, start);
    }
    start.g := 0.0;
    start.h := cost(start.position, goal);
    start.f := start.g + start.h;
  }

  /** A sequence holding one element once is that element alone. */
  lemma SingletonMultiset(s: seq<Node>, x: Node)
    requires multiset(s) == multiset{x}
    ensures s == [x]
  {
    assert |s| == |multiset(s)|;
    assert s[0] in multiset(s);
  }

  /** Lines 43-44 when the goal test succeeds: the path to `node`, the grid
      as it was. */
  method Finish(grid: GridManager, node: Node, ghost nb: Neighbours, ghost cost: (Point, Point) -> real,
                ghost start: Node, ghost goal: Point, ghost u: set<Node>, ghost marks: Marks,
                ghost live: set<Node>, ghost closed: set<Node>, ghost rank: map<Node, nat>, ghost top: nat)
    returns (path: seq<Node>)
    requires grid.Valid() && Snapshot(grid, nb, u)
    requires Mirrors(marks, live) && Tree(nb, cost, start, goal, marks, live, closed, rank) && node in live
    requires forall n :: n in closed ==> rank[n] < top
    ensures grid.Valid() && Snapshot(grid, nb, u)
    ensures ParentChain(nb, cost, start, path) && path[|path| - 1] == node
    ensures node.parent == null ==> path == [node]
  {
    path := CalculatePath(node, nb, cost, start, goal, marks, live, closed, rank, top);
  }

  /** Lines 19-31: the two lists and the start's marks, as the loop first
      finds them. */
  lemma Begin(openList: List, closedList: List, nb: Neighbours, cost: (Point, Point) -> real,
              start: Node, goal: Point, marks: Marks)
    requires openList != closedList && openList.nodes == [start] && closedList.nodes == []
    requires start.parent == null && start.g == 0.0 && start.h == cost(start.position, goal) && start.f == start.g + start.h
    requires marks == map[start := Mark(start.g, start.h, start.f, start.parent)]
    ensures SearchState(nb, cost, start, goal, openList.nodes, closedList.nodes, marks, {start}, {}, map[])
  {
    assert {start} + {} == {start};
  }

  /** An empty list tracks the empty set. */
  lemma TracksEmpty(list: List, s: set<Node>)
    requires Tracks(list, s) && |list.nodes| == 0
    ensures s == {}
  {
    if x :| x in s {
      TracksMember(list, s, x);
    }
  }

  /** Lines 48-106 for one round: `current` is closed, then its neighbours
      are relaxed. `reach` is the set of nodes the search can touch: the grid's
      nodes and the start. */
  method Expand(grid: GridManager, current: Node, openList: List, closedList: List,
                goal: Point, cost: (Point, Point) -> real,
                ghost nb: Neighbours, ghost start: Node, ghost cells: set<Node>, ghost reach: set<Node>, ghost os: seq<Node>, ghost cs: seq<Node>, ghost marks: Marks,
                ghost open: set<Node>, ghost closed: set<Node>, ghost rank: map<Node, nat>, ghost iter: nat)
    returns (ghost os': seq<Node>, ghost cs': seq<Node>, ghost marks': Marks, ghost open': set<Node>, ghost closed': set<Node>, ghost rank': map<Node, nat>)
    requires cells == grid.NodeSet && reach == cells + {start} && start !in cells
    requires grid.Valid() && Snapshot(grid, nb, reach)
    requires openList != closedList && openList.nodes == os && closedList.nodes == cs
    requires SearchState(nb, cost, start, goal, os, cs, marks, open, closed, rank)
    requires current in open && forall n :: n in closed ==> rank[n] < iter
    requires Expanded(nb, closed, open + closed) && forall n :: n in open + closed ==> n in reach
    modifies openList`nodes, closedList`nodes, cells`g, cells`h, cells`f, cells`parent
    ensures openList.nodes == os' && closedList.nodes == cs'
    ensures SearchState(nb, cost, start, goal, os', cs', marks', open', closed', rank')
    ensures closed' == closed + {current} && rank' == rank[current := iter]
    ensures forall n :: n in closed' ==> rank'[n] < iter + 1
    ensures Expanded(nb, closed', open' + closed') && forall n :: n in open' + closed' ==> n in reach
    ensures Kept(marks, marks', closed')
    ensures grid.Valid() && Snapshot(grid, nb, reach)
  {
    var neighbours := NeighboursOf(grid, current, nb, start, reach);
    os', cs', marks', open', closed', rank' := Round(current, neighbours, openList, closedList, goal, cost,
                                                     nb, start, cells, reach, os, cs, marks, open, closed, rank, iter);
    GridKept(grid, nb, reach);
  }

  /** The grid and its neighbour lists survive any step that leaves the
      grid's array, its node set and the nodes' obstacle flags alone. */
  twostate lemma GridKept(grid: GridManager, new nb: Neighbours, new u: set<Node>)
    requires old(allocated(nb)) && old(allocated(u)) && old(grid.Valid()) && old(Snapshot(grid, nb, u))
    requires unchanged(grid) && unchanged(grid.nodes) && unchanged(grid.NodeSet`bObstacle)
    ensures grid.Valid() && Snapshot(grid, nb, u)
  {
  }

  /** Lines 48-49 and 56-106: close `current`, relax its neighbours. */
  method Round(current: Node, neighbours: seq<Node>, openList: List, closedList: List,
               goal: Point, cost: (Point, Point) -> real,
               ghost nb: Neighbours, ghost start: Node, ghost cells: set<Node>, ghost reach: set<Node>, ghost os: seq<Node>, ghost cs: seq<Node>, ghost marks: Marks,
               ghost open: set<Node>, ghost closed: set<Node>, ghost rank: map<Node, nat>, ghost iter: nat)
    returns (ghost os': seq<Node>, ghost cs': seq<Node>, ghost marks': Marks, ghost open': set<Node>, ghost closed': set<Node>, ghost rank': map<Node, nat>)
    requires openList != closedList && openList.nodes == os && closedList.nodes == cs
    requires SearchState(nb, cost, start, goal, os, cs, marks, open, closed, rank)
    requires current in open && forall n :: n in closed ==> rank[n] < iter
    requires current in nb && neighbours == nb[current] && forall m :: m in neighbours ==> m in cells
    requires start !in cells && forall x :: x in cells ==> x in reach
    requires Expanded(nb, closed, open + closed) && forall n :: n in open + closed ==> n in reach
    modifies openList`nodes, closedList`nodes, cells`g, cells`h, cells`f, cells`parent
    ensures openList.nodes == os' && closedList.nodes == cs'
    ensures SearchState(nb, cost, start, goal, os', cs', marks', open', closed', rank')
    ensures closed' == closed + {current} && rank' == rank[current := iter]
    ensures forall n :: n in closed' ==> rank'[n] < iter + 1
    ensures Expanded(nb, closed', open' + closed') && forall n :: n in open' + closed' ==> n in reach
    ensures Kept(marks, marks', closed')
  {
    ListsOfState(nb, cost, start, goal, openList, closedList, marks, open, closed, rank);
    ghost var remaining: set<Node>;
    remaining, closed', rank' := CloseCurrent(current, openList, closedList, nb, cost, start, goal, marks, open, closed, rank, iter);
    marks', open' := RelaxAll(current, neighbours, openList, closedList, goal, cost, nb, start, cells,
                              marks, remaining, closed', rank');
    Bookkeeping(nb, cells, reach, current, open, closed, remaining, closed', open');
    StateOfLists(nb, cost, start, goal, openList, closedList, marks', open', closed', rank');
    os', cs' := openList.nodes, closedList.nodes;
  }

  /** The reached and closed sets after one round of Expand. */
  lemma Bookkeeping(nb: Neighbours, cells: set<Node>, reach: set<Node>, current: Node,
                    open: set<Node>, closed: set<Node>, remaining: set<Node>, closed': set<Node>, open': set<Node>)
    requires current in open && remaining == open - {current} && closed' == closed + {current}
    requires remaining <= open' && forall m :: m in open' ==> m in remaining || m in cells
    requires current in nb && forall m :: m in nb[current] ==> m in open' + closed'
    requires Expanded(nb, closed, open + closed) && forall n :: n in open + closed ==> n in reach
    requires forall x :: x in cells ==> x in reach
    ensures Expanded(nb, closed', open' + closed') && forall n :: n in open' + closed' ==> n in reach
  {
    forall n | n in closed'
      ensures n in nb && forall m :: m in nb[n] ==> m in open' + closed'
    {
      if n != current {
        forall m | m in nb[n]
          ensures m in open' + closed'
        {
          assert m in open + closed;
        }
      }
    }
  }

  /** Lines 52-53: GetNeighbours, read as the snapshot's entry for `current`;
      every neighbour is a grid node. */
  method NeighboursOf(grid: GridManager, current: Node, ghost nb: Neighbours, ghost start: Node, ghost reach: set<Node>)
    returns (neighbours: seq<Node>)
    requires grid.Valid() && Snapshot(grid, nb, reach) && reach == grid.NodeSet + {start} && current in reach
    ensures neighbours == nb[current] && current in nb && forall m :: m in neighbours ==> m in grid.NodeSet
  {
    neighbours := grid.GetNeighbours(current, []);
    assert neighbours == nb[current];
    grid.NeighboursExact(grid.CellOfPosition(current.position));
  }

  /** Every node of a walk after its first is a grid node that is not an
      obstacle: GetNeighbours offers no other. A path FindPath returns is such
      a walk (ParentChain steps along `nb`). */
  lemma PathAvoidsObstacles(grid: GridManager, nb: Neighbours, start: Node, p: seq<Node>)
    requires grid.Valid() && Snapshot(grid, nb, grid.NodeSet + {start})
    requires Walk(nb, p)
    ensures forall k :: 0 < k < |p| ==> p[k] in grid.NodeSet && !p[k].bObstacle
  {
    forall k | 0 < k < |p|
      ensures p[k] in grid.NodeSet && !p[k].bObstacle
    {
      assert Step(nb, p[k - 1], p[k]);
      grid.NeighboursExact(grid.CellOfPosition(p[k - 1].position));
    }
  }
}
