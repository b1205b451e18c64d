/** Monster1.cs: the maze monster. It patrols its waypoints along grid paths,
    chases the player while the player is inside the maze on a free cell, and
    dies once its health runs out.

    One frame of the component is the function `Tick` on a `Brain`, the value
    of the fields Update reads and writes; the class `Monster1` runs the same
    frame statement by statement and is proved to land on `Tick`'s answer. The
    pathfinder the monster drives is the small `PathPort` class: its answers
    and the monster's movement come in with each `Frame`. */
module Monster1 {
  import opened Geometry
  import opened Nodes
  import opened Grid
  import Common

  datatype MonsterState = Patrolling | Chasing | Attacking | Dead | None

  /** A goal handed to the pathfinder: the player, or patrol point `i`. */
  datatype Target = Player | PatrolPoint(i: nat)

  /** What the scene supplies during one frame: Time.deltaTime, the two sensor
      answers PlayerInMaze and IsPlayerReachable, the pathfinder's answer for
      each goal (`None` for a null path list), and whether this frame's step
      toward a path node ends within 0.5 of it. */
  datatype Frame = Frame(
    dt: real,
    inMaze: bool,
    reachable: bool,
    routes: Target -> Common.Option<seq<Point>>,
    arrives: Point -> bool)

  /** The inspector-set settings Update depends on. */
  datatype Tuning = Tuning(patrolCount: nat, pathRecalculationInterval: real)

  /** The monster's fields together with the pathfinder's path list (node
      positions) and paused flag. `deaths` counts the TriggerDeath calls, each
      of which spawns an explosion and schedules the object's destruction. */
  datatype Brain = Brain(
    curState: MonsterState,
    currentPatrolPoint: nat,
    currentPathIndex: nat,
    timeSinceLastPathUpdate: real,
    hasDied: bool,
    health: real,
    pathArray: Common.Option<seq<Point>>,
    paused: bool,
    deaths: nat)

  /** Something that happens to the monster: one frame, or damage from outside. */
  datatype Event = OnFrame(f: Frame) | OnDamage(damage: real)

  /** A path list that holds at least one node. */
  predicate HasNodes(p: Common.Option<seq<Point>>)
  {
    p.Some? && |p.value| != 0
  }

  /** The player's x and z lie in the maze box, edges included; y is ignored. */
  predicate PlayerInMaze(p: Point, lo: Point, hi: Point)
  {
    p.x >= lo.x && p.x <= hi.x && p.z >= lo.z && p.z <= hi.z
  }

  /** Only a non-empty box holds a player, and its height never matters. */
  lemma InMazeNeedsBox(p: Point, lo: Point, hi: Point, y: real)
    ensures PlayerInMaze(p, lo, hi) ==> lo.x <= hi.x && lo.z <= hi.z
    ensures PlayerInMaze(p, lo, hi) == PlayerInMaze(Point(p.x, y, p.z), lo, hi)
    ensures PlayerInMaze(lo, lo, hi) <==> lo.x <= hi.x && lo.z <= hi.z
    ensures PlayerInMaze(hi, lo, hi) <==> lo.x <= hi.x && lo.z <= hi.z
  {
  }

  /** The player stands on the grid, in a cell that is no obstacle. The node is
      read back out of `nodes[index % columns, index / columns]`. */
  function IsPlayerReachable(grid: GridManager, p: Point): (r: bool)
    requires grid.Valid()
    reads grid, grid.nodes, grid.NodeSet`bObstacle
    ensures r <==> grid.layout.IsInBounds(p) && !grid.NodeAt(grid.layout.CellHolding(p)).bObstacle
  {
    var layout := grid.layout;
    var i := layout.GetGridIndex(p);
    if i == -1 then false
    else
      var node := grid.nodes[layout.GetColumn(i), layout.GetRow(i)];
      layout.CellsDisjoint(layout.CellOf(i), layout.CellHolding(p), p);
      node != null && !node.bObstacle
  }

  /** FollowPath, with the cursor checked against the path's length before the
      node is read. Moving is left to the engine: the cursor moves on when the
      step toward the current node arrives. */
  function FollowPathStep(b: Brain, arrives: Point -> bool): (r: Brain)
    ensures r == b.(currentPathIndex := r.currentPathIndex)
    ensures r.currentPathIndex != b.currentPathIndex <==>
      && !b.paused && HasNodes(b.pathArray) && b.currentPathIndex < |b.pathArray.value|
      && arrives(b.pathArray.value[b.currentPathIndex])
    ensures r.currentPathIndex == b.currentPathIndex || r.currentPathIndex == b.currentPathIndex + 1
    ensures HasNodes(b.pathArray) && b.currentPathIndex <= |b.pathArray.value| ==>
      r.currentPathIndex <= |b.pathArray.value|
  {
    if b.paused || !HasNodes(b.pathArray) || b.currentPathIndex >= |b.pathArray.value| then b
    else if arrives(b.pathArray.value[b.currentPathIndex]) then b.(currentPathIndex := b.currentPathIndex + 1)
    else b
  }

  /** FollowPath as the source writes it: `pathArray[currentPathIndex]` is read
      with no bound check, and a cursor at or past the end throws (`None`). */
  function FollowPathStepAsWritten(b: Brain, arrives: Point -> bool): (r: Common.Option<Brain>)
    ensures r.None? <==> !b.paused && HasNodes(b.pathArray) && b.currentPathIndex >= |b.pathArray.value|
    ensures r.Some? ==> r.value == FollowPathStep(b, arrives)
  {
    if b.paused || !HasNodes(b.pathArray) then Common.Some(b)
    else if b.currentPathIndex >= |b.pathArray.value| then Common.None
    else if arrives(b.pathArray.value[b.currentPathIndex]) then Common.Some(b.(currentPathIndex := b.currentPathIndex + 1))
    else Common.Some(b)
  }

  /** Patrol: resume the pathfinder; with no path or a finished one, move on to
      the next patrol point round-robin and route there, giving up for this
      frame when no path comes back; then follow the path. */
  function PatrolStep(b: Brain, n: nat, f: Frame): (r: Brain)
    requires n > 0
    ensures !r.paused
    ensures r.curState == b.curState && r.health == b.health && r.hasDied == b.hasDied
    ensures r.deaths == b.deaths && r.timeSinceLastPathUpdate == b.timeSinceLastPathUpdate
    ensures b.currentPatrolPoint < n ==> r.currentPatrolPoint < n
    ensures b.pathArray.None? || b.currentPathIndex >= |b.pathArray.value| ==>
      r.currentPatrolPoint == (b.currentPatrolPoint + 1) % n && r.pathArray == f.routes(PatrolPoint(r.currentPatrolPoint))
    ensures b.pathArray.Some? && b.currentPathIndex < |b.pathArray.value| ==>
      r.currentPatrolPoint == b.currentPatrolPoint && r.pathArray == b.pathArray
    ensures HasNodes(r.pathArray) ==> r.currentPathIndex <= |r.pathArray.value|
  {
    var b := b.(paused := false);
    if b.pathArray.None? || b.currentPathIndex >= |b.pathArray.value| then
      var next := (b.currentPatrolPoint + 1) % n;
      var b := b.(currentPatrolPoint := next, pathArray := f.routes(PatrolPoint(next)));
      if !HasNodes(b.pathArray) then b
      else FollowPathStep(b.(currentPathIndex := 0), f.arrives)
    else FollowPathStep(b, f.arrives)
  }

  /** CheckForPlayer: a player in the maze on a free cell starts a chase along
      a fresh path to the player from its first node; otherwise the monster
      keeps patrolling with the pathfinder resumed. */
  function CheckForPlayerStep(b: Brain, f: Frame): (r: Brain)
    ensures r.curState == Chasing <==> f.inMaze && f.reachable
    ensures r.curState == Chasing || r.curState == Patrolling
    ensures f.inMaze && f.reachable ==>
      r == b.(curState := Chasing, pathArray := f.routes(Player), currentPathIndex := 0)
    ensures !(f.inMaze && f.reachable) ==> r == b.(curState := Patrolling, paused := false)
  {
    if f.inMaze && f.reachable then
      b.(curState := Chasing, pathArray := f.routes(Player), currentPathIndex := 0)
    else
      b.(curState := Patrolling, paused := false)
  }

  /** CheckLostPlayer: a player out of the maze or on a blocked cell ends the
      chase; the monster routes to the next patrol point. The path cursor is
      left where it was. */
  function CheckLostPlayerStep(b: Brain, n: nat, f: Frame): (r: Brain)
    requires n > 0
    ensures r.curState == Patrolling <==> !f.inMaze || !f.reachable || b.curState == Patrolling
    ensures !f.inMaze || !f.reachable ==>
      && r.currentPatrolPoint == (b.currentPatrolPoint + 1) % n
      && r.pathArray == f.routes(PatrolPoint(r.currentPatrolPoint)) && !r.paused
      && r.currentPathIndex == b.currentPathIndex
    ensures f.inMaze && f.reachable ==> r == b
    ensures b.currentPatrolPoint < n ==> r.currentPatrolPoint < n
  {
    if !f.inMaze || !f.reachable then
      var next := (b.currentPatrolPoint + 1) % n;
      b.(curState := Patrolling, currentPatrolPoint := next, pathArray := f.routes(PatrolPoint(next)), paused := false)
    else b
  }

  /** ChasePlayer: the replanning timer runs up by the frame time; once it
      reaches the interval the path to the player is recomputed and the timer
      and cursor start again. Then the path is followed. */
  function ChaseStep(b: Brain, interval: real, f: Frame): (r: Brain)
    ensures r.curState == b.curState && r.health == b.health && r.hasDied == b.hasDied
    ensures r.deaths == b.deaths && r.currentPatrolPoint == b.currentPatrolPoint && r.paused == b.paused
    ensures b.timeSinceLastPathUpdate + f.dt >= interval ==>
      r.timeSinceLastPathUpdate == 0.0 && r.pathArray == f.routes(Player) && r.currentPathIndex <= 1
    ensures b.timeSinceLastPathUpdate + f.dt < interval ==>
      && r.timeSinceLastPathUpdate == b.timeSinceLastPathUpdate + f.dt && r.pathArray == b.pathArray
      && (r.currentPathIndex == b.currentPathIndex || r.currentPathIndex == b.currentPathIndex + 1)
  {
    var t := b.timeSinceLastPathUpdate + f.dt;
    var b := if t >= interval then b.(pathArray := f.routes(Player), timeSinceLastPathUpdate := 0.0, currentPathIndex := 0)
             else b.(timeSinceLastPathUpdate := t);
    FollowPathStep(b, f.arrives)
  }

  /** The state switch of Update: Patrol still runs in the frame that starts a
      chase, and the chase step still runs in the frame that loses the player.
      A Dead monster runs TriggerDeath on its first Dead frame only. */
  function SwitchStep(b: Brain, t: Tuning, f: Frame): (r: Brain)
    requires t.patrolCount > 0
    ensures r.health == b.health
    ensures b.curState == Dead ==> r.curState == Dead
    ensures r.hasDied == (b.hasDied || b.curState == Dead)
    ensures r.deaths == b.deaths + (if b.curState == Dead && !b.hasDied then 1 else 0)
    ensures b.currentPatrolPoint < t.patrolCount ==> r.currentPatrolPoint < t.patrolCount
    ensures r.curState == Attacking ==> b.curState == Attacking
    ensures r.curState == None ==> b.curState == None
  {
    match b.curState
    case Patrolling => PatrolStep(CheckForPlayerStep(b, f), t.patrolCount, f)
    case Chasing => ChaseStep(CheckLostPlayerStep(b, t.patrolCount, f), t.pathRecalculationInterval, f)
    case Attacking => b
    case Dead => if !b.hasDied then b.(hasDied := true, deaths := b.deaths + 1) else b
    case None => b
  }

  /** One Update: the state switch, then health at or below zero turns the
      monster Dead. */
  function Tick(b: Brain, t: Tuning, f: Frame): (r: Brain)
    requires t.patrolCount > 0
    ensures r.health == b.health
    ensures r.health <= 0.0 ==> r.curState == Dead
    ensures b.curState == Dead ==> r.curState == Dead
    ensures r.hasDied == (b.hasDied || b.curState == Dead)
    ensures r.deaths == b.deaths + (if b.curState == Dead && !b.hasDied then 1 else 0)
    ensures b.currentPatrolPoint < t.patrolCount ==> r.currentPatrolPoint < t.patrolCount
    ensures r.curState == Attacking ==> b.curState == Attacking
    ensures r.curState == None ==> b.curState == None
  {
    var s := SwitchStep(b, t, f);
    if s.health <= 0.0 && s.curState != Dead then s.(curState := Dead) else s
  }

  /** ApplyDamage: the damage comes off the health, and health at or below
      zero turns the monster Dead at once. */
  function DamageStep(b: Brain, damage: real): (r: Brain)
    ensures r.health == b.health - damage
    ensures r.curState == (if r.health <= 0.0 then Dead else b.curState)
    ensures r == b.(health := r.health, curState := r.curState)
  {
    var b := b.(health := b.health - damage);
    if b.health <= 0.0 then b.(curState := Dead) else b
  }

  /** The effect of one event. */
  function Apply(b: Brain, t: Tuning, e: Event): (r: Brain)
    requires t.patrolCount > 0
    ensures b.curState == Dead ==> r.curState == Dead
    ensures b.hasDied ==> r.hasDied
    ensures r.deaths == b.deaths + (if r.hasDied && !b.hasDied then 1 else 0)
  {
    match e
    case OnFrame(f) => Tick(b, t, f)
    case OnDamage(d) => DamageStep(b, d)
  }

  /** A run of events from `b`, oldest first. */
  function Run(b: Brain, t: Tuning, es: seq<Event>): Brain
    requires t.patrolCount > 0
    decreases |es|
  {
    if |es| == 0 then b else Run(Apply(b, t, es[0]), t, es[1..])
  }

  /** Dead is for good, and over any run TriggerDeath runs at most once: only
      on the frame that sets hasDied. */
  lemma {:induction false} DeathIsOnce(b: Brain, t: Tuning, es: seq<Event>)
    requires t.patrolCount > 0
    ensures b.curState == Dead ==> Run(b, t, es).curState == Dead
    ensures b.hasDied ==> Run(b, t, es).hasDied && Run(b, t, es).deaths == b.deaths
    ensures Run(b, t, es).deaths <= b.deaths + 1
    decreases |es|
  {
    if |es| != 0 {
      DeathIsOnce(Apply(b, t, es[0]), t, es[1..]);
    }
  }

  /** A monster that has become Dead runs its death action on the next frame. */
  lemma DeadDiesNextFrame(b: Brain, t: Tuning, f: Frame)
    requires t.patrolCount > 0 && b.curState == Dead && !b.hasDied
    ensures Tick(b, t, f).hasDied && Tick(b, t, f).deaths == b.deaths + 1
    ensures Tick(Tick(b, t, f), t, f).deaths == b.deaths + 1
  {
  }

  /** A patrolling monster with health left starts chasing exactly when the
      player is in the maze on a free cell. The chase then follows the new
      path to the player from its start, unless no path to the player came
      back: Patrol, which runs in the same frame, then replaces it with a
      path to the next patrol point. */
  lemma SpotPlayer(b: Brain, t: Tuning, f: Frame)
    requires t.patrolCount > 0 && b.curState == Patrolling && b.health > 0.0
    ensures Tick(b, t, f).curState == Chasing <==> f.inMaze && f.reachable
    ensures Tick(b, t, f).curState == Patrolling <==> !(f.inMaze && f.reachable)
    ensures f.inMaze && f.reachable && HasNodes(f.routes(Player)) ==>
      && Tick(b, t, f).pathArray == f.routes(Player)
      && Tick(b, t, f).currentPathIndex <= 1
      && Tick(b, t, f).currentPatrolPoint == b.currentPatrolPoint
    ensures f.inMaze && f.reachable && !HasNodes(f.routes(Player)) ==>
      var next := (b.currentPatrolPoint + 1) % t.patrolCount;
      Tick(b, t, f).pathArray == f.routes(PatrolPoint(next))
  {
  }

  /** A chasing monster with health left goes back to patrolling exactly when
      the player leaves the maze or stands on a blocked cell, and then heads
      for the next patrol point. */
  lemma LosePlayer(b: Brain, t: Tuning, f: Frame)
    requires t.patrolCount > 0 && b.curState == Chasing && b.health > 0.0
    ensures Tick(b, t, f).curState == Patrolling <==> !f.inMaze || !f.reachable
    ensures Tick(b, t, f).curState == Chasing <==> f.inMaze && f.reachable
    ensures !f.inMaze || !f.reachable ==>
      Tick(b, t, f).currentPatrolPoint == (b.currentPatrolPoint + 1) % t.patrolCount
    ensures f.inMaze && f.reachable ==> Tick(b, t, f).currentPatrolPoint == b.currentPatrolPoint
  {
  }

  /** While the chase goes on, the path to the player is recomputed exactly
      when the timer reaches the interval; the timer then restarts from zero. */
  lemma ChaseReplan(b: Brain, t: Tuning, f: Frame)
    requires t.patrolCount > 0 && b.curState == Chasing && b.health > 0.0 && f.inMaze && f.reachable
    ensures b.timeSinceLastPathUpdate + f.dt >= t.pathRecalculationInterval ==>
      && Tick(b, t, f).timeSinceLastPathUpdate == 0.0
      && Tick(b, t, f).pathArray == f.routes(Player)
      && Tick(b, t, f).currentPathIndex <= 1
    ensures b.timeSinceLastPathUpdate + f.dt < t.pathRecalculationInterval ==>
      && Tick(b, t, f).timeSinceLastPathUpdate == b.timeSinceLastPathUpdate + f.dt
      && Tick(b, t, f).pathArray == b.pathArray
  {
  }

  /** The state Start leaves: Patrolling at patrol point 0, with no path yet. */
  function Started(health: real, paused: bool): (b: Brain)
    ensures b.curState == Patrolling && b.currentPatrolPoint == 0 && b.pathArray.None?
  {
    Brain(Patrolling, 0, 0, 0.0, false, health, Common.None, paused, 0)
  }

  /** Patrol point 0 is never the first goal: the first patrol frame moves on
      to point 1 (point 0 again only with a single patrol point). */
  lemma FirstPatrolTarget(health: real, paused: bool, t: Tuning, f: Frame)
    requires t.patrolCount > 0 && health > 0.0 && !(f.inMaze && f.reachable)
    ensures Tick(Started(health, paused), t, f).currentPatrolPoint == 1 % t.patrolCount
    ensures Tick(Started(health, paused), t, f).pathArray == f.routes(PatrolPoint(1 % t.patrolCount))
  {
  }

  /** Line 197 read as written: a chase along a one-node path arrives at the
      node, and in the next frame, before the replanning interval, FollowPath
      reads one past the end of the path. */
  lemma ChaseOverrunsPath(p: Point)
    ensures
      var t := Tuning(1, 1.0);
      var f := Frame(0.25, true, true, (g: Target) => Common.Some([p]), (q: Point) => true);
      var b0 := Brain(Chasing, 0, 0, 0.0, false, 100.0, Common.Some([p]), false, 0);
      var b1 := Tick(b0, t, f);
      && b1.curState == Chasing && b1.currentPathIndex == 1
      && FollowPathStepAsWritten(b1.(timeSinceLastPathUpdate := 0.5), f.arrives).None?
  {
  }

  /** The pathfinder calls Monster1 makes. The search itself is not part of
      this class: FindPath stores the answer the frame supplies for the goal. */
  class PathPort {
    var pathArray: Common.Option<seq<Point>>
    var paused: bool

    constructor ()
      ensures pathArray == Common.None && !paused
    {
      pathArray := Common.None;
      paused := false;
    }

    method FindPath(target: Target, routes: Target -> Common.Option<seq<Point>>)
      modifies this`pathArray
      ensures pathArray == routes(target)
    {
      pathArray := routes(target);
    }

    method ResumePathfinding()
      modifies this`paused
      ensures !paused
    {
      paused := false;
    }
  }

  class Monster1 {
    var curState: MonsterState
    var currentPatrolPoint: nat
    var currentPathIndex: nat
    var timeSinceLastPathUpdate: real
    var hasDied: bool
    var health: real
    /** The number of TriggerDeath calls. */
    ghost var deaths: nat
    const pathfinder: PathPort
    const grid: GridManager
    const tuning: Tuning
    const mazeMinBounds: Point
    const mazeMaxBounds: Point

    ghost function Snapshot(): Brain
      reads this, pathfinder
    {
      Brain(curState, currentPatrolPoint, currentPathIndex, timeSinceLastPathUpdate, hasDied, health,
            pathfinder.pathArray, pathfinder.paused, deaths)
    }

    /** The field initialisers: state None, health as set in the inspector. */
    constructor (grid: GridManager, tuning: Tuning, health: real, mazeMinBounds: Point, mazeMaxBounds: Point)
      ensures this.grid == grid && this.tuning == tuning
      ensures this.mazeMinBounds == mazeMinBounds && this.mazeMaxBounds == mazeMaxBounds
      ensures Snapshot() == Brain(None, 0, 0, 0.0, false, health, Common.None, false, 0)
      ensures fresh(pathfinder)
    {
      curState := None;
      currentPatrolPoint := 0;
      currentPathIndex := 0;
      timeSinceLastPathUpdate := 0.0;
      hasDied := false;
      this.health := health;
      deaths := 0;
      pathfinder := new PathPort();
      this.grid := grid;
      this.tuning := tuning;
      this.mazeMinBounds := mazeMinBounds;
      this.mazeMaxBounds := mazeMaxBounds;
    }

    /** Start: Patrolling, at patrol point 0 when there is one. */
    method Start()
      modifies this
      ensures Snapshot() == old(Snapshot()).(curState := Patrolling,
        currentPatrolPoint := if tuning.patrolCount > 0 then 0 else old(currentPatrolPoint))
    {
      curState := Patrolling;
      if tuning.patrolCount > 0 {
        currentPatrolPoint := 0;
      }
    }

    /** One frame. The two sensor tests read the player's position, the maze
        box and the grid; the pathfinder's answers and the movement come in as
        `routes` and `arrives`. */
    method Update(player: Point, dt: real, routes: Target -> Common.Option<seq<Point>>, arrives: Point -> bool)
      requires tuning.patrolCount > 0 && grid.Valid()
      modifies this, pathfinder
      ensures Snapshot() == Tick(old(Snapshot()), tuning,
        Frame(dt, PlayerInMaze(player, mazeMinBounds, mazeMaxBounds), IsPlayerReachable(grid, player), routes, arrives))
    {
      var f := Frame(dt, PlayerInMaze(player, mazeMinBounds, mazeMaxBounds), IsPlayerReachable(grid, player), routes, arrives);
      Switch(f);
      if health <= 0.0 && curState != Dead {
        curState := Dead;
      }
    }

    /** The state switch. */
    method Switch(f: Frame)
      requires tuning.patrolCount > 0
      modifies this, pathfinder
      ensures Snapshot() == SwitchStep(old(Snapshot()), tuning, f)
    {
      match curState {
      case Patrolling =>
        CheckForPlayer(f);
        Patrol(f);
      case Chasing =>
        CheckLostPlayer(f);
        ChasePlayer(f);
      case Attacking =>
      case Dead =>
        if !hasDied {
          hasDied := true;
          TriggerDeath();
        }
      case None =>
      }
    }

    method Patrol(f: Frame)
      requires tuning.patrolCount > 0
      modifies this, pathfinder
      ensures Snapshot() == PatrolStep(old(Snapshot()), tuning.patrolCount, f)
    {
      pathfinder.ResumePathfinding();
      if pathfinder.pathArray.None? || currentPathIndex >= |pathfinder.pathArray.value| {
        currentPatrolPoint := (currentPatrolPoint + 1) % tuning.patrolCount;
        pathfinder.FindPath(PatrolPoint(currentPatrolPoint), f.routes);
        if pathfinder.pathArray.None? || |pathfinder.pathArray.value| == 0 {
          return;
        }
        currentPathIndex := 0;
      }
      FollowPath(f.arrives);
    }

    method CheckForPlayer(f: Frame)
      modifies this, pathfinder
      ensures Snapshot() == CheckForPlayerStep(old(Snapshot()), f)
    {
      if f.inMaze && f.reachable {
        curState := Chasing;
        pathfinder.FindPath(Player, f.routes);
        currentPathIndex := 0;
      } else {
        curState := Patrolling;
        pathfinder.ResumePathfinding();
      }
    }

    /** FollowPath with the cursor checked before the node is read. */
    method FollowPath(arrives: Point -> bool)
      modifies this
      ensures Snapshot() == FollowPathStep(old(Snapshot()), arrives)
    {
      if pathfinder.paused {
        return;
      }
      if pathfinder.pathArray.None? || |pathfinder.pathArray.value| == 0 {
        return;
      }
      if currentPathIndex >= |pathfinder.pathArray.value| {
        return;
      }
      var currentNode := pathfinder.pathArray.value[currentPathIndex];
      if arrives(currentNode) {
        currentPathIndex := currentPathIndex + 1;
      }
    }

    method ChasePlayer(f: Frame)
      modifies this, pathfinder
      ensures Snapshot() == ChaseStep(old(Snapshot()), tuning.pathRecalculationInterval, f)
    {
      timeSinceLastPathUpdate := timeSinceLastPathUpdate + f.dt;
      if timeSinceLastPathUpdate >= tuning.pathRecalculationInterval {
        pathfinder.FindPath(Player, f.routes);
        timeSinceLastPathUpdate := 0.0;
        currentPathIndex := 0;
      }
      FollowPath(f.arrives);
    }

    method CheckLostPlayer(f: Frame)
      requires tuning.patrolCount > 0
      modifies this, pathfinder
      ensures Snapshot() == CheckLostPlayerStep(old(Snapshot()), tuning.patrolCount, f)
    {
      if !f.inMaze || !f.reachable {
        curState := Patrolling;
        currentPatrolPoint := (currentPatrolPoint + 1) % tuning.patrolCount;
        pathfinder.FindPath(PatrolPoint(currentPatrolPoint), f.routes);
        pathfinder.ResumePathfinding();
      }
    }

    /** The explosion and the delayed Destroy, counted. */
    method TriggerDeath()
      modifies this`deaths
      ensures deaths == old(deaths) + 1
    {
      deaths := deaths + 1;
    }

    method ApplyDamage(damage: real)
      modifies this
      ensures Snapshot() == DamageStep(old(Snapshot()), damage)
    {
      health := health - damage;
      if health <= 0.0 {
        curState := Dead;
      }
    }
  }
}
