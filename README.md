# A model of the game logic of UntitledHorrorGame

UntitledHorrorGame is a Unity first-person horror game. Under the engine glue sit three groups of logic, and this project models all three.

**Grid pathfinding.** This is the core.
- `GridManager` lays a row-major grid of cells over the maze and marks the cells an obstacle covers. It converts between positions, indices, (row, column) pairs and cell centres, and it lists a cell's free neighbours.
- `Node` is the search record of one cell. `List` is the open and closed list of the search: it re-sorts itself by `f` after every change.
- `AStar` searches between two nodes and rebuilds the path along parent links.
- `Pathfinder` snaps the monster and the player to cell centres, runs the search, and replans on a timer.

**The monsters.**
- `Monster1` patrols the maze along grid paths and chases the player.
- `Monster2` is the clown. It hunts by sound, follows walls and teleports when trapped.
- `Monster3` is the forest crawler. It stalks the player and turns angry.
- `Monster4` is the jumper. It freezes in the flashlight's beam.
- `MotherMonster` spawns crawlers and grows while it hunts.

**Bookkeeping.**
- `ManagerItem` counts the items the player picks up. Its listener in `ManagerGame` opens the secret door on the second key.
- `PlayerMovement` keeps the player's health, energy, cooldowns, pitch and footstep cycle.

The model follows the source's form:
- **Mutable components are classes.** Each class has the source's fields and methods. A map, a sequence or an `array2` stands for each dictionary, ArrayList or node grid the source mutates in place.
- **Each monster and the player are state machines.** Each one frame is a function on a value that holds the fields `Update` reads and writes (`Brain`, `Clown`, `Crawler`, `Jumper`, `Mother`, `Player`). The class runs the same code statement by statement. Each method is proved to land on the function's answer (`Snapshot() == Tick(old(Snapshot()), ...)`). The transitions and invariants are then proved about the functions.
- **The engine is passed in.** Sensor readings, physics probes, random draws and the frame's `dt` arrive as fields of a `Frame` (`Senses` for Monster2).
- **Floats are exact reals.** C# integer division, remainder and the `(int)` cast are written out (`Common.CsDiv`, `Common.CsRem`, `Common.Truncate`). They truncate toward zero, which differs from Dafny's operators for the index -1 that GetGridIndex returns off the grid.

Files:
- `common.dfy`: shared helpers.
- `geometry.dfy`: the grid arithmetic.
- `node.dfy`, `list.dfy`, `grid.dfy`, `astar.dfy`, `pathfinder.dfy`: the search.
- `monster1.dfy` … `monster4.dfy`, `mother_monster.dfy`: the monsters.
- `manager_item.dfy`: the inventory and its door listener.
- `player_movement.dfy`: the player controller.

## Model

| member | source | states |
|---|---|---|
| Common.CsDiv | Assets/Scripts/Monsters/GridManager.cs:103-106 | C# integer division truncates toward zero: the quotient brackets the dividend from below for non-negative and from above for negative dividends |
| Common.CsRem | Assets/Scripts/Monsters/GridManager.cs:108-111 | C# remainder: dividend = quotient * divisor + remainder, the remainder has the dividend's sign and is smaller than the divisor |
| Common.Truncate | Assets/Scripts/Monsters/GridManager.cs:91-92 | the `(int)` cast truncates toward zero: the result is within 1 of the value, on the side of zero |
| Common.Clamp | Assets/Scripts/PlayerMovement.cs:189-190 | Mathf.Clamp: the result lies in [lo, hi], is the value itself when already in range, lo below the range and hi above it |
| Geometry.Layout.GetGridIndex | Assets/Scripts/Monsters/GridManager.cs:86-94 | -1 exactly when the point is outside the grid; otherwise an index in [0, rows*cols) whose cell holds the point |
| Geometry.Layout.CellHolding | Assets/Scripts/Monsters/GridManager.cs:90-93 | for an in-bounds point, the column/row arithmetic names the in-range cell that holds the point |
| Geometry.Layout.RowColumnRoundTrip | Assets/Scripts/Monsters/GridManager.cs:93-111 | for an in-range (row, col), GetRow and GetColumn of row*numOfColumns+col give back row and col, and the index is in range |
| Geometry.Layout.CellOfIndex | Assets/Scripts/Monsters/GridManager.cs:103-111 | every index in [0, rows*cols) names an in-range cell whose row-major index is that index again |
| Geometry.Layout.CentreRoundTrip | Assets/Scripts/Monsters/GridManager.cs:71-94 | the centre of an in-range cell is inside the grid, and GetGridIndex of it is the cell's own index |
| Geometry.Layout.IndexCentreRoundTrip | Assets/Scripts/Monsters/GridManager.cs:71-94 | GetGridIndex(GetGridCellCenter(i)) == i for every index of the grid |
| Geometry.Layout.SnapIsIdempotent | Assets/Scripts/Monsters/GridManager.cs:71-94 | snapping an in-bounds point to its cell centre and snapping again gives the same centre |
| Geometry.Layout.CentreInjective | Assets/Scripts/Monsters/GridManager.cs:71-84 | two cells have the same centre exactly when they are the same cell |
| Geometry.Layout.CellsDisjoint | Assets/Scripts/Monsters/GridManager.cs:90-93 | no point lies in two different cells |
| Geometry.Layout.RightEdgeAliasesNextRow | Assets/Scripts/Monsters/GridManager.cs:96-101 | with the inclusive test, the point on the right edge of row 0 is accepted and indexes column 0 of row 1; the half-open test rejects it |
| Geometry.Layout.TopEdgeOverflowsGrid | Assets/Scripts/Monsters/GridManager.cs:96-101 | with the inclusive test, the point on the top edge is accepted and yields index rows*cols, past the last cell; the half-open test rejects it |
| Geometry.Layout.BoundsTestsDifferOnlyOnEdges | Assets/Scripts/Monsters/GridManager.cs:86-101 | inside the half-open box both tests and both index computations agree; they differ only on the far edges |
| Nodes.Node.constructor | Assets/Scripts/Monsters/Node.cs:14-20 | a new node has g = 1, h = 0, f = g + h, no obstacle and no parent |
| Nodes.Node.At | Assets/Scripts/Monsters/Node.cs:22-29 | the same initial values, and the position is the one given |
| Nodes.Node.MarkAsObstacle | Assets/Scripts/Monsters/Node.cs:31-33 | the node is an obstacle afterwards and no other field may change |
| Nodes.Node.CompareTo | Assets/Scripts/Monsters/Node.cs:35-45 | -1, 0 or 1, negative exactly when this node's h is smaller and positive exactly when it is larger |
| Nodes.CompareToAntisymmetric | Assets/Scripts/Monsters/Node.cs:35-45 | swapping the operands negates the result, and the result is 0 exactly for equal h |
| Lists.Compare | Assets/Scripts/Monsters/List.cs:44-51 | ListOrderComparer.Compare: -1, 0 or 1, 0 exactly for equal f and negative exactly for smaller f |
| Lists.CompareIsTotalPreorder | Assets/Scripts/Monsters/List.cs:44-51 | the comparison is total, transitive and antisymmetric |
| Lists.Insert | Assets/Scripts/Monsters/List.cs:23-25 | inserting a node adds exactly that node to the multiset of nodes |
| Lists.InsertSorted | Assets/Scripts/Monsters/List.cs:23-25 | inserting into a list sorted by f leaves it sorted by f |
| Lists.InsertionSort | Assets/Scripts/Monsters/List.cs:35-37 | the reference sort is a permutation of its input |
| Lists.InsertionSortSorted | Assets/Scripts/Monsters/List.cs:35-37 | the reference sort's output is in non-decreasing f order |
| Lists.SortNodes | Assets/Scripts/Monsters/List.cs:35-37 | ArrayList.Sort with the comparer: a permutation of the input in non-decreasing f order |
| Lists.RemoveFirst | Assets/Scripts/Monsters/List.cs:29-30 | ArrayList.Remove deletes one occurrence of a present node and leaves the list alone otherwise |
| Lists.List.constructor | Assets/Scripts/Monsters/List.cs:6 | a new list is empty |
| Lists.List.First | Assets/Scripts/Monsters/List.cs:16-21 | null exactly when the list is empty; otherwise a stored node, of minimal f when the list is sorted |
| Lists.List.Add | Assets/Scripts/Monsters/List.cs:23-27 | the node is added to the multiset, the length grows by one, the node is contained and the list is sorted by f |
| Lists.List.Remove | Assets/Scripts/Monsters/List.cs:29-33 | a present node loses one occurrence and the length drops by one; otherwise the contents stay; the list is sorted by f |
| Lists.List.Sort | Assets/Scripts/Monsters/List.cs:35-37 | the same multiset of nodes, now in non-decreasing f order |
| Grid.BlockStep | Assets/Scripts/Monsters/GridManager.cs:121-123 | step (a, b) of the 3x3 loop visits cell (row-1+a, col-1+b) and only (1, 1) is the centre |
| Grid.AdjacentSymmetric | Assets/Scripts/Monsters/GridManager.cs:120-134 | cell adjacency (4- or 8-way) is symmetric |
| Grid.BlockShape | Assets/Scripts/Monsters/GridManager.cs:120-128 | the first n steps of the 3x3 loop, without the centre, are adjacent cells, and every step other than the centre is tried |
| Grid.LeftIsCandidate | Assets/Scripts/Monsters/GridManager.cs:120-133 | the cell to the left of the centre is tried with and without diagonals |
| Grid.UpIsCandidate | Assets/Scripts/Monsters/GridManager.cs:120-131 | the cell above the centre (row - 1) is tried with and without diagonals |
| Grid.CandidatesAreAdjacent | Assets/Scripts/Monsters/GridManager.cs:120-134 | the cells tried are 8 with diagonals and 4 without, exactly the cells adjacent to the centre |
| Grid.GuardSufficesInRange | Assets/Scripts/Monsters/GridManager.cs:137-140 | around an in-range centre the written guard accepts a candidate exactly when it is in range |
| Grid.GuardAsWrittenAdmitsNegativeColumn | Assets/Scripts/Monsters/GridManager.cs:137-141 | an off-grid node is read as cell (0, -1); its candidate (0, -2) passes the written guard although it is out of range |
| Grid.ObstacleCentresExact | Assets/Scripts/Monsters/GridManager.cs:45-69 | the obstacle list holds exactly the centres of the visited cells whose probe hits an obstacle, in row-major order |
| Grid.GridManager.NodeAt | Assets/Scripts/Monsters/GridManager.cs:52 | the node stored for an in-range cell is one of the grid's nodes and sits at that cell's centre |
| Grid.GridManager.NodeAtInjective | Assets/Scripts/Monsters/GridManager.cs:46-52 | two cells share a node exactly when they are the same cell |
| Grid.GridManager.constructor | Assets/Scripts/Monsters/GridManager.cs:39-69 | Awake: a node per cell at its centre, marked as an obstacle exactly when its probe hits, and the obstacle list of their centres |
| Grid.GridManager.CalculateObstacles | Assets/Scripts/Monsters/GridManager.cs:45-69 | fresh nodes at every cell's centre, obstacle flag exactly from the probe, and the obstacle centres appended in row-major order |
| Grid.GridManager.SurveyRow | Assets/Scripts/Monsters/GridManager.cs:49-67 | one row of the survey: the index advances by numOfColumns, the row's nodes are placed and surveyed, and its obstacle centres are appended |
| Grid.GridManager.NewSurveyedNode | Assets/Scripts/Monsters/GridManager.cs:50-64 | a fresh node at the cell position, marked as an obstacle exactly when the probe hits |
| Grid.GridManager.AcceptSnoc | Assets/Scripts/Monsters/GridManager.cs:137-146 | trying one more cell appends that cell's result to the accepted nodes |
| Grid.GridManager.AcceptSnocAfter | Assets/Scripts/Monsters/GridManager.cs:137-146 | the same, after the caller's existing nodes |
| Grid.GridManager.AcceptCross | Assets/Scripts/Monsters/GridManager.cs:129-134 | without diagonals the four calls append up, down, left and right in that order |
| Grid.GridManager.AcceptExact | Assets/Scripts/Monsters/GridManager.cs:137-146 | from a list of cells, exactly the in-range non-obstacle ones are accepted, at most one node each |
| Grid.GridManager.NeighboursExact | Assets/Scripts/Monsters/GridManager.cs:113-146 | at most 8 (or 4) neighbours, each an in-range non-obstacle adjacent cell's node, and every such node is listed |
| Grid.GridManager.NeighboursExcludeSelf | Assets/Scripts/Monsters/GridManager.cs:120-134 | a cell's node is never its own neighbour |
| Grid.GridManager.NeighboursSymmetric | Assets/Scripts/Monsters/GridManager.cs:120-134 | between non-obstacle cells the neighbour relation is symmetric |
| Grid.GridManager.AssignNeighbour | Assets/Scripts/Monsters/GridManager.cs:137-146 | appends the cell's node when the cell is in range and free, and nothing otherwise |
| Grid.GridManager.GetNeighbours | Assets/Scripts/Monsters/GridManager.cs:113-135 | appends the neighbour nodes of the cell that holds the node's position |
| Grid.GridManager.AssignAround | Assets/Scripts/Monsters/GridManager.cs:120-134 | from a (row, column), appends exactly the neighbour nodes of that cell |
| Grid.GridManager.AssignBlock | Assets/Scripts/Monsters/GridManager.cs:121-127 | the nested 3x3 loop appends the accepted nodes of the block in row-major order |
| Grid.GridManager.AssignBlockRow | Assets/Scripts/Monsters/GridManager.cs:122-126 | one pass of the outer loop tries the three cells of row `i` and appends their accepted nodes, in column order |
| Grid.GridManager.AssignBlockCell | Assets/Scripts/Monsters/GridManager.cs:123-125 | one step of the inner loop appends the step's accepted node unless it is the centre |
| Grid.GridManager.AcceptBlockStep | Assets/Scripts/Monsters/GridManager.cs:121-125 | each non-centre step adds that cell's result to the block's accepted nodes |
| Grid.GridManager.AcceptBlockIsAccept | Assets/Scripts/Monsters/GridManager.cs:121-127 | the loop's accepted nodes are the accepted nodes of the block's cell list |
| AStar.Through | Assets/Scripts/Monsters/AStar.cs:68-73 | a node reached through the current one gets it as parent, g = current g + step cost, h = cost to goal, f = g + h |
| AStar.TreeAdopt | Assets/Scripts/Monsters/AStar.cs:65-77 | opening a neighbour of a closed node keeps the search tree invariant: parents closed, f = g + h, g along parent links |
| AStar.TreeClose | Assets/Scripts/Monsters/AStar.cs:48-49 | closing the current node keeps the invariant and gives it a rank above every closed node |
| AStar.Link | Assets/Scripts/Monsters/AStar.cs:29-31 | in the tree only the start has no parent (with g = 0); every other node's parent is closed, adjacent and of lower rank |
| AStar.Adopt | Assets/Scripts/Monsters/AStar.cs:68-73 | sets parent, g, h and f of the neighbour as Through does and keeps the tree invariant |
| AStar.OpenNeighbour | Assets/Scripts/Monsters/AStar.cs:65-77 | a neighbour on neither list is reparented to the current node and added to the open list, keeping the search invariant and the marks of closed nodes |
| AStar.ImproveNeighbour | Assets/Scripts/Monsters/AStar.cs:79-105 | an open neighbour is reparented exactly when the tentative g is strictly smaller; g never grows |
| AStar.Reparent | Assets/Scripts/Monsters/AStar.cs:88-103 | the improved neighbour gets the current node as parent and the new g, the open list is re-sorted, and closed nodes keep their marks |
| AStar.RelaxAll | Assets/Scripts/Monsters/AStar.cs:56-106 | after the loop over neighbours every neighbour is open or closed; the open set only grows, every new open node is one of the neighbours, and the g, h, f and parent of every closed node are kept |
| AStar.Relax | Assets/Scripts/Monsters/AStar.cs:58-105 | one neighbour: a closed one is skipped, leaving every mark and the open set as they were; afterwards the neighbour is open or closed, and no closed node's marks change |
| AStar.HeadLeast | Assets/Scripts/Monsters/AStar.cs:39 | the head of an open list kept in f order is an open node whose f is least among all open nodes |
| AStar.SortedMarks | Assets/Scripts/Monsters/AStar.cs:103 | an open list sorted by the nodes' f is sorted by the f each node carries in the search's marks |
| AStar.NeighbourMapSnapshot | Assets/Scripts/Monsters/GridManager.cs:113-135 | the map of GetNeighbours' answers over a node set is a snapshot of the grid, and the only one |
| AStar.CloseCurrent | Assets/Scripts/Monsters/AStar.cs:48-49 | the current node moves from the open to the closed set and gets the next rank |
| AStar.CalculatePath | Assets/Scripts/Monsters/AStar.cs:118-126 | the reversed parent walk is a chain from the start node to the given node; a node without parent gives [node] |
| AStar.Reversed | Assets/Scripts/Monsters/AStar.cs:124 | ArrayList.Reverse: same length, element i is element len-1-i of the input |
| AStar.ReversedInvolution | Assets/Scripts/Monsters/AStar.cs:124 | reversing twice gives the list back |
| AStar.ReversedChain | Assets/Scripts/Monsters/AStar.cs:118-126 | the parent walk from a node back to the start, reversed, is a chain from the start over adjacent cells with g accumulated along it |
| AStar.Progress | Assets/Scripts/Monsters/AStar.cs:36-49 | closing a current node that is not in the goal cell keeps the closed set away from the goal and shrinks the unexplored nodes, so the loop ends |
| AStar.NoWalkReachesGoal | Assets/Scripts/Monsters/AStar.cs:36-114 | when the search ends without the goal, every walk from the start stays inside the explored nodes and never reaches the goal cell |
| AStar.FindPath | Assets/Scripts/Monsters/AStar.cs:16-116 | a path ends in the goal cell and is a parent chain from the start over adjacent free cells; start in goal cell gives [start]; no path means the whole reachable region was explored |
| AStar.Turn | Assets/Scripts/Monsters/AStar.cs:39-106 | one iteration takes an open node of least f (best-first order); either it is on the goal's position and its parent chain is returned, or it is closed, the unexplored set shrinks, and nodes closed before keep their marks |
| AStar.Setup | Assets/Scripts/Monsters/AStar.cs:19-31 | two fresh lists, the open one holding only the start, with g = 0, h = cost to goal, f = g + h |
| AStar.Finish | Assets/Scripts/Monsters/AStar.cs:44 | the path returned on success is a parent chain ending at the reached node |
| AStar.Expand | Assets/Scripts/Monsters/AStar.cs:48-106 | closing and expanding the current node keeps the invariant, marks all its neighbours as seen and leaves the marks of closed nodes unchanged; the grid and its neighbour lists stay as they were |
| AStar.Round | Assets/Scripts/Monsters/AStar.cs:48-106 | the same for the list operations and the neighbour loop together, closed marks included |
| AStar.NeighboursOf | Assets/Scripts/Monsters/AStar.cs:52-53 | the neighbour list the grid returns is the node's neighbour set |
| AStar.PathAvoidsObstacles | Assets/Scripts/Monsters/AStar.cs:52-68 | every node of a walk over GetNeighbours' lists, after its first, is a grid node that is not an obstacle |
| Pathfinding.Snap | Assets/Scripts/Monsters/Pathfinder.cs:75-76 | a point inside the half-open grid box snaps to the centre of the cell holding it; any other point, the far edges included, snaps to the centre of the off-grid cell at index -1 |
| Pathfinding.MinusOneOffGrid | Assets/Scripts/Monsters/GridManager.cs:103-111 | index -1 is read as cell (0, -1), or (-1, 0) for a single column, and is never in range |
| Pathfinding.SnapSameCell | Assets/Scripts/Monsters/Pathfinder.cs:75-76 | points in the same cell snap to the same centre, and snapping is idempotent |
| Pathfinding.Pathfinder.constructor | Assets/Scripts/Monsters/Pathfinder.cs:6-16 | no nodes, no path and a zero timer |
| Pathfinding.Pathfinder.Start | Assets/Scripts/Monsters/Pathfinder.cs:18-24 | fresh start and goal nodes at the snapped positions; when the search throws the path stays empty, otherwise A*'s answer is stored as Planned describes; the timer is untouched |
| Pathfinding.Pathfinder.Update | Assets/Scripts/Monsters/Pathfinder.cs:26-31 | replans exactly when the elapsed time reaches the interval, resetting it to 0, with the outcome FindPath states; otherwise only the timer advances |
| Pathfinding.Pathfinder.FindPath | Assets/Scripts/Monsters/Pathfinder.cs:71-79 | fresh start and goal nodes at the snapped cell centres; when the search throws (monster off the half-open grid, player on it) the old path list stays; otherwise the path list is A*'s answer: a walk over the grid's neighbour lists to the goal's position, or none only once the region around the start is closed and goal-free |
| Pathfinding.Search | Assets/Scripts/Monsters/Pathfinder.cs:78 | over the grid's neighbour lists, the A* result is a parent chain from the start that leads to the goal cell, is [start] when both are in one cell, and is none only after the start's explored region is closed under neighbours and holds no node on the goal's position |
| Pathfinding.Pathfinder.Store | Assets/Scripts/Monsters/Pathfinder.cs:78 | the answer replaces the path list, the endpoints and timer stay, and the recorded neighbour lists are still the grid's |
| Pathfinding.PlannedAvoidsObstacles | Assets/Scripts/Monsters/AStar.cs:52-68 | every node of a stored path after the start is a grid node that is not an obstacle |
| Pathfinding.NoPlanMeansUnreachable | Assets/Scripts/Monsters/AStar.cs:36-112 | when no path was stored, no walk over the grid's neighbour lists from the start node ends on the goal's position |
| Pathfinding.OffGridStartEscapesGuard | Assets/Scripts/Monsters/GridManager.cs:113-141 | for an off-grid start cell, GetNeighbours reaches an out-of-range candidate that the written guard lets through, in either diagonal setting |
| Pathfinding.SearchThrowsWhen | Assets/Scripts/Monsters/Pathfinder.cs:71-79 | with half-open snapping, the search throws exactly when the monster is off the half-open grid and the player is on it |
| Pathfinding.SameCellPath | Assets/Scripts/Monsters/Pathfinder.cs:71-79 | a monster and a player in the same cell get the one-node path |
| Monster1.InMazeNeedsBox | Assets/Scripts/Monsters/Monster1.cs:261-270 | PlayerInMaze is an inclusive x/z box test that ignores height |
| Monster1.IsPlayerReachable | Assets/Scripts/Monsters/Monster1.cs:154-180 | true exactly when the player is inside the half-open grid box and its cell is not an obstacle |
| Monster1.FollowPathStep | Assets/Scripts/Monsters/Monster1.cs:182-215 | the cursor advances by one exactly when not paused, on a path, before its end, and the node is reached; nothing else changes |
| Monster1.FollowPathStepAsWritten | Assets/Scripts/Monsters/Monster1.cs:182-215 | with no bound check the step fails exactly when the cursor is at or past the end of the path |
| Monster1.PatrolStep | Assets/Scripts/Monsters/Monster1.cs:99-127 | resumes the pathfinder; with no or a finished path moves to the next patrol point round-robin and routes there; the index stays in range |
| Monster1.CheckForPlayerStep | Assets/Scripts/Monsters/Monster1.cs:132-152 | Chasing exactly when the player is in the maze and reachable, with a fresh path and cursor 0; otherwise Patrolling |
| Monster1.CheckLostPlayerStep | Assets/Scripts/Monsters/Monster1.cs:232-244 | back to Patrolling exactly when the player left the maze or is unreachable, with the patrol index advanced; otherwise nothing changes |
| Monster1.ChaseStep | Assets/Scripts/Monsters/Monster1.cs:217-230 | replans exactly when the timer reaches the interval, resetting the timer and cursor; otherwise the timer advances |
| Monster1.SwitchStep | Assets/Scripts/Monsters/Monster1.cs:58-97 | Dead stays Dead, the death action runs once, Attacking and None are never entered, the patrol index stays in range |
| Monster1.Tick | Assets/Scripts/Monsters/Monster1.cs:58-97 | one frame: health <= 0 ends in Dead, Dead is terminal, the death is counted once |
| Monster1.DamageStep | Assets/Scripts/Monsters/Monster1.cs:272-281 | health drops by the damage and the state becomes Dead at once when health reaches 0 |
| Monster1.Apply | Assets/Scripts/Monsters/Monster1.cs:58-97 | a frame or a hit keeps Dead and hasDied, and counts a death only when hasDied is first set |
| Monster1.DeathIsOnce | Assets/Scripts/Monsters/Monster1.cs:78-94 | over any sequence of frames and hits Dead is terminal and TriggerDeath runs at most once |
| Monster1.DeadDiesNextFrame | Assets/Scripts/Monsters/Monster1.cs:91-94 | a Dead monster that has not died yet runs the death action in the next frame and never again |
| Monster1.SpotPlayer | Assets/Scripts/Monsters/Monster1.cs:132-152 | from Patrolling the frame ends in Chasing exactly when the player is in the maze and reachable |
| Monster1.LosePlayer | Assets/Scripts/Monsters/Monster1.cs:232-244 | from Chasing the frame ends in Patrolling exactly when the player is lost, with the patrol index advanced |
| Monster1.ChaseReplan | Assets/Scripts/Monsters/Monster1.cs:217-230 | a chase frame replans exactly when the interval is reached |
| Monster1.Started | Assets/Scripts/Monsters/Monster1.cs:38-56 | Start leaves the monster Patrolling at patrol point 0 with no path |
| Monster1.FirstPatrolTarget | Assets/Scripts/Monsters/Monster1.cs:107-114 | the first patrol target is index 1 (mod the number of points), not 0 |
| Monster1.ChaseOverrunsPath | Assets/Scripts/Monsters/Monster1.cs:197 | a chase along a one-node path reaches the node and reads past the end of the path on the next frame |
| Monster1.PathPort.constructor | Assets/Scripts/Monsters/Monster1.cs:40-41 | no path and not paused |
| Monster1.PathPort.FindPath | Assets/Scripts/Monsters/Monster1.cs:114 | the path becomes the route to the target |
| Monster1.PathPort.ResumePathfinding | Assets/Scripts/Monsters/Monster1.cs:104 | pathfinding is no longer paused |
| Monster1.Monster1.constructor | Assets/Scripts/Monsters/Monster1.cs:16-36 | the monster's fields before Start |
| Monster1.Monster1.Start | Assets/Scripts/Monsters/Monster1.cs:38-56 | the state Started describes |
| Monster1.Monster1.Update | Assets/Scripts/Monsters/Monster1.cs:58-97 | the new state is Tick of the old state |
| Monster1.Monster1.Switch | Assets/Scripts/Monsters/Monster1.cs:62-90 | the new state is SwitchStep of the old one |
| Monster1.Monster1.Patrol | Assets/Scripts/Monsters/Monster1.cs:99-127 | the new state is PatrolStep of the old one |
| Monster1.Monster1.CheckForPlayer | Assets/Scripts/Monsters/Monster1.cs:132-152 | the new state is CheckForPlayerStep of the old one |
| Monster1.Monster1.FollowPath | Assets/Scripts/Monsters/Monster1.cs:182-215 | the new state is FollowPathStep of the old one |
| Monster1.Monster1.ChasePlayer | Assets/Scripts/Monsters/Monster1.cs:217-230 | the new state is ChaseStep of the old one |
| Monster1.Monster1.CheckLostPlayer | Assets/Scripts/Monsters/Monster1.cs:232-244 | the new state is CheckLostPlayerStep of the old one |
| Monster1.Monster1.TriggerDeath | Assets/Scripts/Monsters/Monster1.cs:253-259 | the death action is counted once |
| Monster1.Monster1.ApplyDamage | Assets/Scripts/Monsters/Monster1.cs:272-281 | the new state is DamageStep of the old one |
| Monster2.Detect | Assets/Scripts/Monsters/Monster2.cs:338 | the probe distance is max(1, speed*dt + 0.5) |
| Monster2.FirstFree | Assets/Scripts/Monsters/Monster2.cs:394-404 | the index of the first free direction: every earlier one is blocked, and it is free unless none is |
| Monster2.FirstFreeIsFirst | Assets/Scripts/Monsters/Monster2.cs:394-404 | any index with all earlier directions blocked and itself free is the one FirstFree finds |
| Monster2.FootstepStep | Assets/Scripts/Monsters/Monster2.cs:476-495 | a footstep within hearing range sets Chasing from any state and records where it was heard; farther ones change nothing |
| Monster2.MoveInDirectionStep | Assets/Scripts/Monsters/Monster2.cs:418-456 | a clear direction changes nothing here; a blocked one starts wall following |
| Monster2.WallFollowStep | Assets/Scripts/Monsters/Monster2.cs:379-416 | a free direction resets the stuck counter; with every direction blocked the counter goes up by one, and on reaching 4 it resets and the random direction is taken, else the direction is kept; the counter never exceeds 3 and the state is untouched |
| Monster2.MoveTowardsStep | Assets/Scripts/Monsters/Monster2.cs:329-377 | a frozen monster does nothing; a clear way ends wall following; the state and attacks are untouched |
| Monster2.AttackStepAsWritten | Assets/Scripts/Monsters/Monster2.cs:187-202 | as written every call schedules the player's death again |
| Monster2.AttackStep | Assets/Scripts/Monsters/Monster2.cs:187-202 | with attackDone kept, the death is scheduled on the first call only |
| Monster2.AttackRefires | Assets/Scripts/Monsters/Monster2.cs:187-202 | two attacks as written schedule two deaths; corrected, at most one |
| Monster2.PatrolStep | Assets/Scripts/Monsters/Monster2.cs:251-270 | with points and a finished path the agent heads to the current point and the index advances round-robin, staying in range |
| Monster2.ChaseStep | Assets/Scripts/Monsters/Monster2.cs:272-327 | Attacking within attack range; otherwise Patrolling without a heard position or once it is reached (and cleared), Chasing while it is not |
| Monster2.SwitchStep | Assets/Scripts/Monsters/Monster2.cs:159-184 | Attacking has no exit; Freezing and Teleporting do nothing; at most one death is scheduled |
| Monster2.TeleportTarget | Assets/Scripts/Monsters/Monster2.cs:230-249 | the target is one of the patrol points, or the current position when there are none |
| Monster2.TrapStep | Assets/Scripts/Monsters/Monster2.cs:132-157 | each check interval resets the trap timer; the monster teleports and idles only if it moved less than trapRadius |
| Monster2.Tick | Assets/Scripts/Monsters/Monster2.cs:122-185 | one frame keeps the wall and patrol invariants, never leaves Attacking, and schedules at most one death |
| Monster2.IdleAfterTeleport | Assets/Scripts/Monsters/Monster2.cs:127-131 | while the post-teleport timer runs only that timer changes |
| Monster2.ChaseTransitions | Assets/Scripts/Monsters/Monster2.cs:272-327 | the chase frame's three outcomes, each exactly under its condition |
| Monster2.HeardAtOriginIsForgotten | Assets/Scripts/Monsters/Monster2.cs:297-305 | a footstep heard at the origin starts a chase that the next frame drops, since the origin means "nothing heard" |
| Monster2.PatrolRoundRobin | Assets/Scripts/Monsters/Monster2.cs:265-269 | a patrol frame moves the index to the next point modulo the count exactly when a waypoint is needed |
| Monster2.Apply | Assets/Scripts/Monsters/Monster2.cs:122-185 | a frame or a footstep keeps the invariants and schedules at most one death |
| Monster2.AttackOnce | Assets/Scripts/Monsters/Monster2.cs:187-202 | over any sequence of frames and footsteps the corrected attack schedules the player's death at most once |
| Monster2.Monster2.constructor | Assets/Scripts/Monsters/Monster2.cs:57-114 | Patrolling at the start position with empty timers and counters |
| Monster2.Monster2.Update | Assets/Scripts/Monsters/Monster2.cs:122-185 | the new state is Tick of the old one, and the invariants hold |
| Monster2.Monster2.CheckTrap | Assets/Scripts/Monsters/Monster2.cs:132-157 | the new state is TrapStep of the old one |
| Monster2.Monster2.Switch | Assets/Scripts/Monsters/Monster2.cs:159-184 | the new state is SwitchStep of the old one |
| Monster2.Monster2.Attack | Assets/Scripts/Monsters/Monster2.cs:187-202 | the new state is AttackStep of the old one |
| Monster2.Monster2.TeleportToRandomWaypoint | Assets/Scripts/Monsters/Monster2.cs:230-249 | the monster moves to TeleportTarget, and the agent is enabled when there are patrol points |
| Monster2.Monster2.Patrol | Assets/Scripts/Monsters/Monster2.cs:251-270 | the new state is PatrolStep of the old one |
| Monster2.Monster2.Chase | Assets/Scripts/Monsters/Monster2.cs:272-327 | the new state is ChaseStep of the old one |
| Monster2.Monster2.MoveTowardsTarget | Assets/Scripts/Monsters/Monster2.cs:329-377 | the new state is MoveTowardsStep of the old one |
| Monster2.Monster2.WallFollow | Assets/Scripts/Monsters/Monster2.cs:379-416 | the loop over the eight directions lands on WallFollowStep |
| Monster2.Monster2.MoveInDirection | Assets/Scripts/Monsters/Monster2.cs:418-456 | the new state is MoveInDirectionStep of the old one |
| Monster2.Monster2.OnPlayerFootstep | Assets/Scripts/Monsters/Monster2.cs:476-495 | the new state is FootstepStep of the old one |
| Monster3.StalkChoice | Assets/Scripts/Monsters/Monster3.cs:229-270 | approach beyond d+2, retreat inside d-2, hold within the band |
| Monster3.StalkBandPartition | Assets/Scripts/Monsters/Monster3.cs:229-270 | each stalking move happens exactly under its condition, so the three are mutually exclusive and cover all distances |
| Monster3.SpawningStep | Assets/Scripts/Monsters/Monster3.cs:128-138 | Idle once the growth time is reached, and nothing else changes |
| Monster3.IdleStep | Assets/Scripts/Monsters/Monster3.cs:140-168 | Stalking exactly when the player is in the forest; a new wander point after each arrival |
| Monster3.AngryStep | Assets/Scripts/Monsters/Monster3.cs:190-209 | inside the area it hunts and attacks within range; outside it stops and watches |
| Monster3.AttackStep | Assets/Scripts/Monsters/Monster3.cs:211-222 | kills on every in-range frame and has no exit |
| Monster3.StalkStep | Assets/Scripts/Monsters/Monster3.cs:224-278 | Idle when the player left; otherwise the move StalkChoice picks |
| Monster3.WatchingStep | Assets/Scripts/Monsters/Monster3.cs:280-295 | Angry exactly when the player is back in the area |
| Monster3.UpdateStep | Assets/Scripts/Monsters/Monster3.cs:96-126 | the flags are untouched, Attacking has no exit, and a kill is counted exactly on an in-range attack frame |
| Monster3.Elapse | Assets/Scripts/Monsters/Monster3.cs:175-187 | pending waits count down by dt; a wait that runs out is dropped |
| Monster3.CoroutineStep | Assets/Scripts/Monsters/Monster3.cs:175-187 | when a wait runs out the crawler becomes angry and Angry; otherwise only the waits change |
| Monster3.TriggerAngryStep | Assets/Scripts/Monsters/Monster3.cs:170-173 | starts one five-second wait and changes nothing else |
| Monster3.AngerAfterDelay | Assets/Scripts/Monsters/Monster3.cs:170-187 | anger starts after the five-second wait, not before |
| Monster3.Transitions | Assets/Scripts/Monsters/Monster3.cs:96-126 | Idle to Stalking, Stalking to Idle, Angry to Attacking or Watching, Watching to Angry, each exactly under its condition |
| Monster3.Monster3.constructor | Assets/Scripts/Monsters/Monster3.cs:45-94 | Idle at the start position, calm, no waits |
| Monster3.Monster3.Update | Assets/Scripts/Monsters/Monster3.cs:96-126 | the new state is UpdateStep of the old one |
| Monster3.Monster3.SpawningState | Assets/Scripts/Monsters/Monster3.cs:128-138 | the new state is SpawningStep of the old one |
| Monster3.Monster3.IdleState | Assets/Scripts/Monsters/Monster3.cs:140-168 | the new state is IdleStep of the old one |
| Monster3.Monster3.AngryState | Assets/Scripts/Monsters/Monster3.cs:190-209 | the new state is AngryStep of the old one |
| Monster3.Monster3.AttackState | Assets/Scripts/Monsters/Monster3.cs:211-222 | the new state is AttackStep of the old one |
| Monster3.Monster3.StalkState | Assets/Scripts/Monsters/Monster3.cs:224-278 | the new state is StalkStep of the old one |
| Monster3.Monster3.WatchingState | Assets/Scripts/Monsters/Monster3.cs:280-295 | the new state is WatchingStep of the old one |
| Monster3.Monster3.TriggerAngryMode | Assets/Scripts/Monsters/Monster3.cs:170-173 | the new state is TriggerAngryStep of the old one |
| Monster3.Monster3.ResumeCoroutines | Assets/Scripts/Monsters/Monster3.cs:175-187 | the new state is CoroutineStep of the old one |
| Monster3.Monster3.PlayerEnteredForestArea | Assets/Scripts/Monsters/Monster3.cs:307-311 | sets the player-in-forest flag and nothing else |
| Monster3.Monster3.PlayerExitedForestArea | Assets/Scripts/Monsters/Monster3.cs:313-317 | clears the flag and nothing else |
| Monster4.FollowStep | Assets/Scripts/Monsters/Monster4.cs:129-152 | Attacking exactly when in reach and not frozen; Jumping exactly when farther than the follow distance with the cooldown over |
| Monster4.AttackStep | Assets/Scripts/Monsters/Monster4.cs:155-164 | back to Following exactly when the player is out of reach |
| Monster4.FreezeStep | Assets/Scripts/Monsters/Monster4.cs:167-183 | a frozen monster stops and yields the key to a near player; the key is taken at most once |
| Monster4.JumpStep | Assets/Scripts/Monsters/Monster4.cs:193-215 | a jump starts only when not already jumping, and it sets the cooldown |
| Monster4.StateStep | Assets/Scripts/Monsters/Monster4.cs:106-126 | the state switch keeps the key count, the freeze and the throttle timer, and jumps at most once |
| Monster4.UnfreezeStep | Assets/Scripts/Monsters/Monster4.cs:230-236 | unfrozen, moving and Following, nothing else changed |
| Monster4.FreezeEvent | Assets/Scripts/Monsters/Monster4.cs:218-227 | no effect when already frozen; otherwise frozen with the full freeze time, in Freezing |
| Monster4.CountdownStep | Assets/Scripts/Monsters/Monster4.cs:75-87 | the jump cooldown counts down while positive; an expiring freeze unfreezes into Following |
| Monster4.LandingStep | Assets/Scripts/Monsters/Monster4.cs:90-102 | a landing after a jump resumes Following; falling below -10 resets to the original position in Following |
| Monster4.ThrottleStep | Assets/Scripts/Monsters/Monster4.cs:67-72 | the state logic runs only when the 0.1 s countdown expires, and the countdown is then reset |
| Monster4.Tick | Assets/Scripts/Monsters/Monster4.cs:64-103 | one frame: the key is taken at most once and stays taken, the throttle timer follows its formula, a fall resets |
| Monster4.FollowTransitions | Assets/Scripts/Monsters/Monster4.cs:129-164 | the Following and Attacking transitions, each exactly under its condition |
| Monster4.ThrottledSwitch | Assets/Scripts/Monsters/Monster4.cs:67-72 | before the countdown expires a frame changes neither the state nor the destination, and starts no jump |
| Monster4.FreezeThenUnfreeze | Assets/Scripts/Monsters/Monster4.cs:80-87 | after Freeze the monster stays Freezing until the freeze time runs out, then returns to Following |
| Monster4.Monster4.constructor | Assets/Scripts/Monsters/Monster4.cs:49-62 | Following at the start position, the key on its tail, timers at rest |
| Monster4.Monster4.Update | Assets/Scripts/Monsters/Monster4.cs:64-103 | the new state is Tick of the old one |
| Monster4.Monster4.Throttle | Assets/Scripts/Monsters/Monster4.cs:67-72 | the new state is ThrottleStep of the old one |
| Monster4.Monster4.Countdowns | Assets/Scripts/Monsters/Monster4.cs:75-87 | the new state is CountdownStep of the old one |
| Monster4.Monster4.Land | Assets/Scripts/Monsters/Monster4.cs:90-102 | the new state is LandingStep of the old one |
| Monster4.Monster4.UpdateState | Assets/Scripts/Monsters/Monster4.cs:106-126 | the new state is StateStep of the old one |
| Monster4.Monster4.FollowState | Assets/Scripts/Monsters/Monster4.cs:129-152 | the new state is FollowStep of the old one |
| Monster4.Monster4.AttackState | Assets/Scripts/Monsters/Monster4.cs:155-164 | the new state is AttackStep of the old one |
| Monster4.Monster4.FreezeState | Assets/Scripts/Monsters/Monster4.cs:167-183 | the new state is FreezeStep of the old one |
| Monster4.Monster4.JumpState | Assets/Scripts/Monsters/Monster4.cs:193-215 | the new state is JumpStep of the old one |
| Monster4.Monster4.Freeze | Assets/Scripts/Monsters/Monster4.cs:218-227 | the new state is FreezeEvent of the old one |
| Monster4.Monster4.Unfreeze | Assets/Scripts/Monsters/Monster4.cs:230-236 | the new state is UnfreezeStep of the old one |
| Monster4.Monster4.CollectKey | Assets/Scripts/Monsters/Monster4.cs:239-244 | the key is collected and counted |
| Monster4.Monster4.ResetToOriginalPosition | Assets/Scripts/Monsters/Monster4.cs:247-254 | back at the original position, agent on, Following |
| MotherMonster.Lerp | Assets/Scripts/Monsters/MotherMonster.cs:178-179 | Mathf.Lerp clamps its parameter: a at t <= 0 and b at t >= 1 |
| MotherMonster.SpawnDelayInRange | Assets/Scripts/Monsters/MotherMonster.cs:117 | the spawn delay drawn lies in [minSpawnInterval, maxSpawnInterval] |
| MotherMonster.Started | Assets/Scripts/Monsters/MotherMonster.cs:45-70 | Start leaves the monster Idle, ungrown, with a spawn timer of 0 |
| MotherMonster.IdleStep | Assets/Scripts/Monsters/MotherMonster.cs:97-111 | Angry when angered, which overrides Spawning; Spawning when the timer has run out |
| MotherMonster.SpawningStep | Assets/Scripts/Monsters/MotherMonster.cs:113-119 | one crawler spawned, back to Idle with a new spawn delay |
| MotherMonster.AdvanceGrowth | Assets/Scripts/Monsters/MotherMonster.cs:175-187 | while not fully grown, progress advances by dt/growthDuration and the scale follows it |
| MotherMonster.GrowStep | Assets/Scripts/Monsters/MotherMonster.cs:173-192 | growth never decreases, the scale follows it, and full growth switches to Unlimited |
| MotherMonster.AngryStep | Assets/Scripts/Monsters/MotherMonster.cs:121-141 | outside the area it stops and watches; inside it chases and attacks within the current range |
| MotherMonster.WatchingStep | Assets/Scripts/Monsters/MotherMonster.cs:143-151 | Angry when the player is back in the area; otherwise it keeps watching while growing |
| MotherMonster.UnlimitedStep | Assets/Scripts/Monsters/MotherMonster.cs:153-164 | it chases without limit and attacks within range |
| MotherMonster.SwitchStep | Assets/Scripts/Monsters/MotherMonster.cs:72-95 | growth is kept and monotone, Attacking has no exit, spawning happens only from Spawning |
| MotherMonster.SpawnTimerStep | Assets/Scripts/Monsters/MotherMonster.cs:195-205 | the spawn timer decreases only while Idle and positive |
| MotherMonster.Tick | Assets/Scripts/Monsters/MotherMonster.cs:72-95 | one frame keeps the growth invariant, never leaves Attacking, and spawns exactly from Spawning |
| MotherMonster.TriggerAngryStep | Assets/Scripts/Monsters/MotherMonster.cs:221-226 | angry and Angry from any state |
| MotherMonster.Apply | Assets/Scripts/Monsters/MotherMonster.cs:72-95 | a frame or an area event keeps the growth invariant and never shrinks |
| MotherMonster.RunKeepsGrowth | Assets/Scripts/Monsters/MotherMonster.cs:166-192 | over any sequence of events growth never decreases, and Attacking is left only through TriggerAngryMode |
| MotherMonster.Transitions | Assets/Scripts/Monsters/MotherMonster.cs:97-164 | each transition of the switch exactly under its condition, the spawn delay within its bounds |
| MotherMonster.FullGrowthUnleashes | Assets/Scripts/Monsters/MotherMonster.cs:187-191 | a frame that completes the growth ends in Unlimited |
| MotherMonster.FirstSpawnIsImmediate | Assets/Scripts/Monsters/MotherMonster.cs:97-111 | the spawn timer starts at 0, so the first frame enters Spawning and the second spawns a crawler |
| MotherMonster.MotherMonster.constructor | Assets/Scripts/Monsters/MotherMonster.cs:45-70 | the state Started describes |
| MotherMonster.MotherMonster.Advance | Assets/Scripts/Monsters/MotherMonster.cs:72-95 | Update and one resumption of SpawnTimer land on Tick of the old state |
| MotherMonster.MotherMonster.Update | Assets/Scripts/Monsters/MotherMonster.cs:72-95 | the new state is SwitchStep of the old one |
| MotherMonster.MotherMonster.IdleState | Assets/Scripts/Monsters/MotherMonster.cs:97-111 | the new state is IdleStep of the old one |
| MotherMonster.MotherMonster.SpawningState | Assets/Scripts/Monsters/MotherMonster.cs:113-119 | one more crawler, Idle, and a new spawn delay |
| MotherMonster.MotherMonster.AngryState | Assets/Scripts/Monsters/MotherMonster.cs:121-141 | the new state is AngryStep of the old one |
| MotherMonster.MotherMonster.WatchingState | Assets/Scripts/Monsters/MotherMonster.cs:143-151 | the new state is WatchingStep of the old one |
| MotherMonster.MotherMonster.UnlimitedState | Assets/Scripts/Monsters/MotherMonster.cs:153-164 | the new state is UnlimitedStep of the old one |
| MotherMonster.MotherMonster.GrowOverTime | Assets/Scripts/Monsters/MotherMonster.cs:173-192 | the new state is GrowStep of the old one |
| MotherMonster.MotherMonster.AdvanceGrowing | Assets/Scripts/Monsters/MotherMonster.cs:175-187 | the new state is AdvanceGrowth of the old one |
| MotherMonster.MotherMonster.SpawnTimer | Assets/Scripts/Monsters/MotherMonster.cs:195-205 | the new state is SpawnTimerStep of the old one |
| MotherMonster.MotherMonster.HandlePlayerEnteredForestArea | Assets/Scripts/Monsters/MotherMonster.cs:208-212 | sets the player-in-forest flag and nothing else |
| MotherMonster.MotherMonster.HandlePlayerExitedForestArea | Assets/Scripts/Monsters/MotherMonster.cs:215-219 | clears the flag and nothing else |
| MotherMonster.MotherMonster.TriggerAngryMode | Assets/Scripts/Monsters/MotherMonster.cs:221-226 | the new state is TriggerAngryStep of the old one |
| Items.Lookup | Assets/Scripts/Item/ManagerItem.cs:36-39 | the stored count, or 0 for a name never added |
| Items.AddStep | Assets/Scripts/Item/ManagerItem.cs:25-32 | the name's count goes up by one (a new name starts at 1) and no other count changes |
| Items.Notices | Assets/Scripts/Item/ManagerItem.cs:33 | one announcement per pickup |
| Items.CountIsOccurrences | Assets/Scripts/Item/ManagerItem.cs:25-39 | the count of a name is the number of times it was added |
| Items.NoticeCarriesCount | Assets/Scripts/Item/ManagerItem.cs:33 | each announcement carries the name and its number of pickups so far, this one included |
| Items.UnlockOnce | Assets/Scripts/GameManager/ManagerGame.cs:35 | the secret door opens exactly once if two or more keys were picked up, never otherwise |
| Items.ManagerItem.constructor | Assets/Scripts/Item/ManagerItem.cs:11-14 | an empty inventory |
| Items.ManagerItem.AddItem | Assets/Scripts/Item/ManagerItem.cs:25-34 | the dictionary is AddStep of the old one, and the pickup is announced with its new count |
| Items.ManagerItem.GetItemCount | Assets/Scripts/Item/ManagerItem.cs:36-39 | the number of pickups of the name, 0 when never added |
| Items.ManagerGame.constructor | Assets/Scripts/GameManager/ManagerGame.cs:5-7 | the door has not been opened |
| Items.ManagerGame.HandleItemCollected | Assets/Scripts/GameManager/ManagerGame.cs:28-40 | the door opens on the announcement of the second key |
| Player.Started | Assets/Scripts/PlayerMovement.cs:76-95 | alive, full health and full energy, within the invariant |
| Player.MoveSpeed | Assets/Scripts/PlayerMovement.cs:127-168 | backwards speed when moving back, crouch speed when crouching, otherwise walk or sprint speed |
| Player.MovementStep | Assets/Scripts/PlayerMovement.cs:127-168 | a grounded falling player is held at -2, gravity then adds -20*dt, and the ground flag comes from the move |
| Player.GroundStep | Assets/Scripts/PlayerMovement.cs:170-181 | a landing is counted exactly when the player was airborne and is grounded |
| Player.LookStep | Assets/Scripts/PlayerMovement.cs:183-192 | the pitch moves by the mouse input and stays clamped to [-90, 90]: -90 below, 90 above |
| Player.SprintStep | Assets/Scripts/PlayerMovement.cs:194-205 | sprinting drains exactly energySprintDrain * dt, with no floor, and restarts the recovery delay; otherwise only the delay counts down |
| Player.CrouchStep | Assets/Scripts/PlayerMovement.cs:207-230 | the crouch key toggles crouching |
| Player.JumpStep | Assets/Scripts/PlayerMovement.cs:232-246 | a jump happens only when grounded with the cooldown over; it costs energy and resets the cooldown |
| Player.EnergyStep | Assets/Scripts/PlayerMovement.cs:248-258 | energy recovers only without shift once the delay is over, clamped to [0, maxEnergy]: the recovered value when in range, maxEnergy when it overshoots, 0 when it is still negative |
| Player.FootstepStep | Assets/Scripts/PlayerMovement.cs:272-301 | while moving on the ground the cycle becomes cycle + dt * (speed + 0.5 or 1); a footstep fires exactly when that reaches the interval and resets it to 0, otherwise the grown cycle is kept; standing still or airborne resets it |
| Player.DieStep | Assets/Scripts/PlayerMovement.cs:315-330 | the player is dead and time stops; a dead player is left unchanged |
| Player.DamageStep | Assets/Scripts/PlayerMovement.cs:303-310 | health drops by the damage, clamped to [0, 100]: 0 below, 100 when negative damage overshoots |
| Player.BeginStep | Assets/Scripts/PlayerMovement.cs:104-112 | the first half of a frame counts a positive jump cooldown down by dt, keeps the invariant and leaves energy, crouch, jumps and footsteps alone |
| Player.EndStep | Assets/Scripts/PlayerMovement.cs:113-124 | the second half keeps the invariant and health, and dies when health is gone |
| Player.Tick | Assets/Scripts/PlayerMovement.cs:97-125 | nothing changes while dead or paused; otherwise health <= 0 ends in death; the invariant holds |
| Player.DieIdempotent | Assets/Scripts/PlayerMovement.cs:315-330 | dying twice is dying once |
| Player.DeadStaysDead | Assets/Scripts/PlayerMovement.cs:99-102 | a dead player is unchanged by any sequence of frames |
| Player.LethalDamageKills | Assets/Scripts/PlayerMovement.cs:303-310 | lethal damage kills the player on the next unpaused frame |
| Player.EnergyCanGoNegative | Assets/Scripts/PlayerMovement.cs:232-246 | the jump cost is not floored: a jump with 5 energy ends the frame at -5 |
| Player.SprintCanGoNegative | Assets/Scripts/PlayerMovement.cs:194-205 | the sprint drain is not floored: 0.1 s of sprinting at a drain of 20 takes 1 energy to -1 |
| Player.CooldownBlocksJump | Assets/Scripts/PlayerMovement.cs:104-108 | a frame that starts with more cooldown than it lasts makes no jump |
| Player.PlayerMovement.constructor | Assets/Scripts/PlayerMovement.cs:76-95 | the state Started describes |
| Player.PlayerMovement.Update | Assets/Scripts/PlayerMovement.cs:97-125 | the new state is Tick of the old one |
| Player.PlayerMovement.BeginFrame | Assets/Scripts/PlayerMovement.cs:104-112 | the new state is BeginStep of the old one |
| Player.PlayerMovement.EndFrame | Assets/Scripts/PlayerMovement.cs:113-124 | the new state is EndStep of the old one |
| Player.PlayerMovement.UpdateMovement | Assets/Scripts/PlayerMovement.cs:127-168 | returns MoveSpeed; the new state is MovementStep of the old one |
| Player.PlayerMovement.UpdateGroundDetection | Assets/Scripts/PlayerMovement.cs:170-181 | the new state is GroundStep of the old one |
| Player.PlayerMovement.UpdateMouseLook | Assets/Scripts/PlayerMovement.cs:183-192 | the new state is LookStep of the old one |
| Player.PlayerMovement.UpdateSprint | Assets/Scripts/PlayerMovement.cs:194-205 | the new state is SprintStep of the old one |
| Player.PlayerMovement.UpdateCrouch | Assets/Scripts/PlayerMovement.cs:207-230 | the new state is CrouchStep of the old one |
| Player.PlayerMovement.UpdateJump | Assets/Scripts/PlayerMovement.cs:232-246 | the new state is JumpStep of the old one |
| Player.PlayerMovement.UpdateEnergy | Assets/Scripts/PlayerMovement.cs:248-258 | the new state is EnergyStep of the old one |
| Player.PlayerMovement.UpdateFootsteps | Assets/Scripts/PlayerMovement.cs:272-301 | the new state is FootstepStep of the old one |
| Player.PlayerMovement.ApplyDamage | Assets/Scripts/PlayerMovement.cs:303-310 | the new state is DamageStep of the old one |
| Player.PlayerMovement.Die | Assets/Scripts/PlayerMovement.cs:315-330 | the new state is DieStep of the old one |

## Left out

- Physics queries are predicates passed in. The obstacle raycast of CalculateObstacles becomes `probe`. Monster2's sphere-casts become `Senses.blocked`. Monster4's landing test and the CharacterController's ground flag become frame fields.
- NavMeshAgent, Rigidbody forces, Instantiate and Destroy, animation, audio, UI and Debug logging are left out. Agent destinations and stop flags are kept as plain fields.
- Floating point is modelled as exact reals. Vector3 distances, `normalized`, Quaternion rotations, the square root in the jump velocity and the FOV Lerp are left out. Distances come in as frame inputs, and the jump velocity is the tuning value `jumpVelocity`.
- Random.Range is a draw passed in with the frame (MotherMonster's spawn delay, Monster2's teleport index), within the range the source states. Monster3's random stalking distance is a tuning value.
- Coroutines and Invoke are explicit countdowns run after each Update. This covers Monster3's five-second anger wait and MotherMonster's SpawnTimer. The one-second Invoke of PlayerDeath is counted as a scheduled death.
- AStar.FindPath: CalculateEuclideanCost is an abstract `cost` function, so the model does not state that a returned path is a shortest one. It proves that the path is a parent chain over adjacent free cells, with `f = g + h` and non-increasing `g`.
- Node positions are exact points at cell centres, and the `Vector3 ==` tests of AStar compare them exactly. Cells are (row, column) pairs only in the grid arithmetic.
- AStar's static open and closed lists and GridManager's singleton instance are explicit references. Awake, OnDrawGizmos and DebugDrawGrid are left out.
- Lists.List.Sort: ArrayList.Sort is an unstable introsort. The model states only "a permutation sorted by f", so which of several nodes of equal f comes first is left open, and First returns some node of minimal f.
- Pathfinding.Snap: snaps with the half-open GetGridIndex, the corrected member of the GridManager.cs:100 finding. The source accepts the far edges. A point at x = origin.x + numOfColumns*size in row r < numOfRows - 1 gets the index of cell (r + 1, 0). A point at z = origin.z + numOfRows*size gets an index of numOfRows*numOfColumns or more, which names a cell one row past the grid. The model snaps both kinds of point to the off-grid cell at index -1.
- Pathfinding.SearchThrows: "off the grid" means off the half-open box, so the far edges differ from the source. For a monster on the right edge of row r < numOfRows - 1, the source searches from cell (r + 1, 0) and stores a new path; the model says the search throws and keeps the old path. For a player on that edge, the source plans to (r + 1, 0); the model returns none. For a monster and a player on the top edge in different columns, the source throws: the start's centre lies past the grid and snaps to -1, and its candidate (0, -2) passes the guard. The model snaps both to one off-grid centre and returns [start].
- Pathfinding.SearchThrowsWhen: states the throw condition for half-open snapping only; the far-edge cases of the Pathfinding.SearchThrows line are not covered.
- Pathfinding.Pathfinder.FindPath: inherits the far-edge differences of the Pathfinding.SearchThrows line.
- Pathfinding.Pathfinder.Start: inherits the far-edge differences of the Pathfinding.SearchThrows line.
- Pathfinding.Pathfinder.Update: when it replans, it inherits the far-edge differences of the Pathfinding.SearchThrows line.
- Monster1.IsPlayerReachable: tests the half-open box. On the top edge the source reads `nodes[c, numOfRows]` and throws IndexOutOfRange (Monster1.cs:169); the model returns false. On the right edge of row r < numOfRows - 1 the source tests cell (r + 1, 0); the model returns false.
- Pathfinding.Pathfinder.Update: the Fire1 and Fire2 branches compute a ray hit and change no state, so they are left out together with input polling.
- Monster1's pathfinder calls (`FindPath("astar", ...)`, `ResumePathfinding`, `pathfindingState`) reach a component that is not part of this model. They are the small PathPort class, and its routes come in with the frame.
- Monster1.PatrolStep: requires at least one patrol point, as the source's `% patrolPoints.Length` does.
- Monster2.Monster2.WallFollow: the eight rotated directions come in with the frame, and the random direction after four stuck frames is a frame input.
- Monster2.Tick: the sphere-casts and the trap test read the position where the monster stands at the start of the frame. Movement within a frame belongs to the engine.
- Monster3: `monsterInForestArea` is always true in the source and is not a field. The spawning Lerp reaches full size exactly when `Time.time / 15 >= 1`, so it is the test `time >= 15` on the frame's clock.
- MotherMonster.AdvanceGrowth: requires growthDuration > 0. The size is the factor `scale` applied to the original size, which the source takes from the transform.
- MotherMonster.GrowStep: the Vector3 test of the full size compares exactly, so full growth alone decides the switch to Unlimited. The unused attackDistance field is left out.
- Player.PlayerMovement.ApplyDamage: the source does not check for death here, and neither does the model. Horizontal movement through the CharacterController, the crouch height interpolation and the cursor lock are left out.
- Items.ManagerItem.AddItem: the int count is unbounded, so overflow after 2^31 pickups is left out. A null name is left out too. The OnItemCollected event is a ghost log of announcements.

## Findings

| source | as written | input that shows it | evidently intended | confidence | as-written member | corrected member |
|---|---|---|---|---|---|---|
| Assets/Scripts/Monsters/GridManager.cs:100 | IsInBounds accepts the far edges (`<=`) | a point at x = origin.x + numOfColumns*size, z = origin.z indexes cell (1, 0); one at z = origin.z + numOfRows*size indexes rows*cols, past the grid | a half-open box, so every accepted point has an in-range index | not executed | Geometry.Layout.RightEdgeAliasesNextRow | Geometry.Layout.GetGridIndex |
| Assets/Scripts/Monsters/GridManager.cs:138-139 | the guard rejects -1 but not other negative rows or columns | an off-grid node snaps to index -1, read as cell (0, -1); its candidate (0, -2) passes the guard and indexes `nodes[-2, 0]`, so Pathfinder.FindPath throws before line 78 and keeps the old path list | accept only in-range cells | not executed | Grid.GuardAsWrittenAdmitsNegativeColumn | Grid.GridManager.AssignNeighbour |
| Assets/Scripts/Monsters/Monster1.cs:197 | FollowPath reads `pathArray[currentPathIndex]` with no bound check | a chase along a one-node path that arrives, then a frame before the replanning interval | stop following at the end of the path | not executed | Monster1.ChaseOverrunsPath | Monster1.FollowPathStep |
| Assets/Scripts/Monsters/Monster2.cs:189-199 | `attackDone` is a fresh local, so every Attacking frame re-runs the attack | two consecutive Attacking frames schedule PlayerDeath twice | attack once | not executed | Monster2.AttackRefires | Monster2.AttackOnce |
