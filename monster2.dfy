/** Monster2.cs: the clown. It walks its patrol points on the navigation mesh,
    runs toward the last footstep it heard, attacks a player within reach,
    follows walls around obstacles, and teleports to a random patrol point
    when it has barely moved for a while.

    One frame is the function `Tick` on a `Clown`, the value of the fields
    Update reads and writes; the class `Monster2` runs the same frame statement
    by statement and is proved to land on `Tick`'s answer. Sphere-casts,
    distances, rotations and random draws come in with each `Senses`. */
module Monster2 {
  import opened Geometry
  import Common

  datatype MonsterState = Patrolling | Chasing | Freezing | Teleporting | Attacking

  /** `Vector3.zero`, which lastHeardPosition uses for "nothing heard". */
  const Zero := Point(0.0, 0.0, 0.0)

  /** The private settings of the trap check and of wall-following. */
  const TrapCheckInterval := 8.0
  const TrapRadius := 10.0
  const PostTeleportDuration := 2.0
  const RequiredClearDistance := 15.0

  /** The inspector-set settings. `hasPlayer` says whether Start found the
      object tagged "Player"; without it Update does nothing. */
  datatype Tuning = Tuning(
    patrolPoints: seq<Point>,
    hearingRange: real,
    attackRange: real,
    chaseSpeed: real,
    hasPlayer: bool)

  /** What the scene supplies during one frame:
      - `dt`: Time.deltaTime;
      - `position`: where the monster stands when the frame starts;
      - `distance`: Vector3.Distance;
      - `pick`: the Random.Range draw among the patrol points;
      - `needsWaypoint`: the agent has no path or is within 1 of its destination;
      - `playerDistance`: the distance to the player;
      - `blocked(d, r)`: the sphere-cast in direction `d` over distance `r` hits
        an object tagged "Obstacle";
      - `toward`: the horizontal unit direction to the heard position;
      - `turns(d)`: the eight wall-following candidates around direction `d`,
        forward first and backward last;
      - `deflect(d)`: the direction along the wall hit when moving along `d`,
        turned to face `d`'s way;
      - `randomDirection`: the random direction taken after being stuck;
      - `reachedHeard`: after moving, the monster is within 1 of the heard
        position. */
  datatype Senses = Senses(
    dt: real,
    position: Point,
    distance: (Point, Point) -> real,
    pick: nat,
    needsWaypoint: bool,
    playerDistance: real,
    blocked: (Point, real) -> bool,
    toward: Point,
    turns: Point -> seq<Point>,
    deflect: Point -> Point,
    randomDirection: Point,
    reachedHeard: bool)

  /** The monster's fields; `agentEnabled` is the navigation agent's enabled
      flag and `destination` its destination. `attacks` counts the scheduled
      PlayerDeath calls. `attackDone` is the flag Attack means to keep. */
  datatype Clown = Clown(
    curState: MonsterState,
    currentPatrolIndex: nat,
    lastHeardPosition: Point,
    isWallFollowing: bool,
    wallFollowDirection: Point,
    stuckCounter: nat,
    trapTimer: real,
    positionAtLastCheck: Point,
    postTeleportTimer: real,
    agentEnabled: bool,
    destination: Point,
    attackDone: bool,
    attacks: nat)

  /** Something that happens to the monster: a frame, or a footstep at
      `where`, `heardFrom` away from the monster. */
  datatype Event = OnFrame(f: Senses) | OnFootstep(where: Point, heardFrom: real)

  /** The wall-following bookkeeping stays small: the counter is below 4, and
      it is 0 whenever the monster is not following a wall. */
  predicate WallSane(b: Clown)
  {
    b.stuckCounter <= 3 && (!b.isWallFollowing ==> b.stuckCounter == 0)
  }

  /** The patrol cursor names a patrol point (or there are none). */
  predicate CursorInRange(b: Clown, t: Tuning)
  {
    |t.patrolPoints| == 0 || b.currentPatrolIndex < |t.patrolPoints|
  }

  /** `Mathf.Max(1, speed * dt + 0.5)`: how far ahead a move probes. */
  function Detect(speed: real, dt: real): (r: real)
    ensures r >= 1.0 && r >= speed * dt + 0.5
    ensures r == 1.0 || r == speed * dt + 0.5
  {
    if 1.0 >= speed * dt + 0.5 then 1.0 else speed * dt + 0.5
  }

  /** The position of the first candidate direction that is free for 1.0, or
      `|cs|` when all are blocked. */
  function FirstFree(cs: seq<Point>, blocked: (Point, real) -> bool): (k: nat)
    ensures k <= |cs|
    ensures k < |cs| ==> !blocked(cs[k], 1.0)
    ensures forall j :: 0 <= j < k ==> blocked(cs[j], 1.0)
  {
    if |cs| == 0 then 0
    else if !blocked(cs[0], 1.0) then 0
    else 1 + FirstFree(cs[1..], blocked)
  }

  /** OnPlayerFootstep: a footstep within hearing range is remembered and
      starts a chase, whatever the monster was doing; the agent stops. */
  function FootstepStep(b: Clown, t: Tuning, where: Point, heardFrom: real): (r: Clown)
    ensures heardFrom <= t.hearingRange ==>
      r.curState == Chasing && r.lastHeardPosition == where && !r.agentEnabled
    ensures heardFrom > t.hearingRange ==> r == b
    ensures r == b.(curState := r.curState, lastHeardPosition := r.lastHeardPosition, agentEnabled := r.agentEnabled)
  {
    if heardFrom <= t.hearingRange then
      b.(lastHeardPosition := where, curState := Chasing, agentEnabled := false)
    else b
  }

  /** MoveInDirection: a free direction moves the monster (left to the
      engine); a blocked one starts wall-following along the wall it hit and
      counts the attempt. */
  function MoveInDirectionStep(b: Clown, f: Senses, d: Point, speed: real): (r: Clown)
    ensures !f.blocked(d, Detect(speed, f.dt)) ==> r == b
    ensures f.blocked(d, Detect(speed, f.dt)) ==>
      r == b.(isWallFollowing := true, stuckCounter := b.stuckCounter + 1, wallFollowDirection := f.deflect(d))
  {
    if !f.blocked(d, Detect(speed, f.dt)) then b
    else b.(isWallFollowing := true, stuckCounter := b.stuckCounter + 1, wallFollowDirection := f.deflect(d))
  }

  /** WallFollow: take the first candidate free for 1.0 and move along it,
      clearing the counter; with all of them blocked count one more attempt,
      and on the fourth take the random direction and start counting again. */
  function WallFollowStep(b: Clown, f: Senses, speed: real): (r: Clown)
    ensures r.stuckCounter == 0 || r.stuckCounter == b.stuckCounter + 1
    ensures r.stuckCounter <= 3
    ensures b.isWallFollowing ==> r.isWallFollowing
    ensures r.curState == b.curState && r.attacks == b.attacks && r.lastHeardPosition == b.lastHeardPosition
    ensures FirstFree(f.turns(b.wallFollowDirection), f.blocked) < |f.turns(b.wallFollowDirection)| ==>
      r.stuckCounter == 0
    ensures FirstFree(f.turns(b.wallFollowDirection), f.blocked) == |f.turns(b.wallFollowDirection)| ==>
      && r.stuckCounter == (if b.stuckCounter + 1 >= 4 then 0 else b.stuckCounter + 1)
      && r.wallFollowDirection == (if b.stuckCounter + 1 >= 4 then f.randomDirection else b.wallFollowDirection)
      && r.isWallFollowing == b.isWallFollowing
  {
    var cs := f.turns(b.wallFollowDirection);
    var k := FirstFree(cs, f.blocked);
    if k < |cs| then
      MoveInDirectionStep(b.(wallFollowDirection := cs[k]), f, cs[k], speed).(stuckCounter := 0)
    else
      var s := b.stuckCounter + 1;
      if s >= 4 then b.(wallFollowDirection := f.randomDirection, stuckCounter := 0)
      else b.(stuckCounter := s)
  }

  /** MoveTowardsTarget toward the heard position: nothing while Freezing;
      while following a wall, one wall-following step, which ends once the
      way to the target is clear for 15; otherwise a blocked way ahead starts
      wall-following and a clear one moves straight on. */
  function MoveTowardsStep(b: Clown, f: Senses, speed: real): (r: Clown)
    requires WallSane(b)
    ensures WallSane(r)
    ensures r.curState == b.curState && r.attacks == b.attacks && r.lastHeardPosition == b.lastHeardPosition
    ensures b.curState == Freezing ==> r == b
    ensures b.curState != Freezing && !f.blocked(f.toward, RequiredClearDistance) && b.isWallFollowing ==>
      !r.isWallFollowing
  {
    if b.curState == Freezing then b
    else if b.isWallFollowing then
      var w := WallFollowStep(b, f, speed);
      if !f.blocked(f.toward, RequiredClearDistance) then w.(isWallFollowing := false, stuckCounter := 0) else w
    else if f.blocked(f.toward, Detect(speed, f.dt)) then
      var w := b.(isWallFollowing := true, stuckCounter := 0, wallFollowDirection := f.deflect(f.toward));
      MoveInDirectionStep(w, f, w.wallFollowDirection, speed)
    else
      MoveInDirectionStep(b, f, f.toward, speed)
  }

  /** Attack as the source writes it: `attackDone` is a fresh local, so every
      call triggers the animation and schedules PlayerDeath again. */
  function AttackStepAsWritten(b: Clown): (r: Clown)
    ensures r.attacks == b.attacks + 1
  {
    b.(attacks := b.attacks + 1)
  }

  /** Attack with `attackDone` kept across frames: PlayerDeath is scheduled on
      the first call only. */
  function AttackStep(b: Clown): (r: Clown)
    ensures r.attackDone
    ensures r.attacks == b.attacks + (if b.attackDone then 0 else 1)
    ensures r == b.(attackDone := true, attacks := r.attacks)
  {
    if !b.attackDone then b.(attacks := b.attacks + 1, attackDone := true) else b
  }

  /** Patrol: with patrol points and an enabled agent, a finished or missing
      path sends the agent to the current patrol point and moves the cursor on
      round-robin. */
  function PatrolStep(b: Clown, t: Tuning, f: Senses): (r: Clown)
    requires CursorInRange(b, t)
    ensures CursorInRange(r, t)
    ensures r == b.(currentPatrolIndex := r.currentPatrolIndex, destination := r.destination)
    ensures |t.patrolPoints| != 0 && b.agentEnabled && f.needsWaypoint ==>
      && r.destination == t.patrolPoints[b.currentPatrolIndex]
      && r.currentPatrolIndex == (b.currentPatrolIndex + 1) % |t.patrolPoints|
    ensures !(|t.patrolPoints| != 0 && b.agentEnabled && f.needsWaypoint) ==> r == b
  {
    var n := |t.patrolPoints|;
    if n == 0 || !b.agentEnabled then b
    else if f.needsWaypoint then
      b.(destination := t.patrolPoints[b.currentPatrolIndex], currentPatrolIndex := (b.currentPatrolIndex + 1) % n)
    else b
  }

  /** Chase: the agent is switched off; a player within attack range turns the
      chase into an attack; otherwise the monster heads for the heard position
      and, once there, forgets it and patrols again; with nothing heard it
      patrols again at once. */
  function ChaseStep(b: Clown, t: Tuning, f: Senses): (r: Clown)
    requires WallSane(b) && b.curState == Chasing
    ensures WallSane(r)
    ensures f.playerDistance <= t.attackRange ==> r.curState == Attacking
    ensures f.playerDistance > t.attackRange ==> r.curState == Patrolling || r.curState == Chasing
    ensures f.playerDistance > t.attackRange && b.lastHeardPosition == Zero ==> r.curState == Patrolling
    ensures f.playerDistance > t.attackRange && b.lastHeardPosition != Zero ==>
      (r.curState == Patrolling <==> f.reachedHeard)
      && (f.reachedHeard ==> r.lastHeardPosition == Zero)
    ensures r.curState == Patrolling ==> r.agentEnabled
    ensures r.currentPatrolIndex == b.currentPatrolIndex
    ensures r.attackDone == (b.attackDone || f.playerDistance <= t.attackRange)
    ensures r.attacks == b.attacks + (if f.playerDistance <= t.attackRange && !b.attackDone then 1 else 0)
    ensures r.trapTimer == b.trapTimer && r.postTeleportTimer == b.postTeleportTimer
    ensures r.positionAtLastCheck == b.positionAtLastCheck
  {
    var b := b.(agentEnabled := false);
    if f.playerDistance <= t.attackRange then
      AttackStep(b.(curState := Attacking))
    else if b.lastHeardPosition != Zero then
      var m := MoveTowardsStep(b, f, t.chaseSpeed);
      if f.reachedHeard then m.(lastHeardPosition := Zero, curState := Patrolling, agentEnabled := true) else m
    else
      b.(curState := Patrolling, agentEnabled := true)
  }

  /** The state switch of Update. Patrolling re-enables the agent before
      patrolling; Freezing and Teleporting do nothing; Attacking attacks, and
      nothing in Update leaves it. */
  function SwitchStep(b: Clown, t: Tuning, f: Senses): (r: Clown)
    requires WallSane(b) && CursorInRange(b, t)
    ensures WallSane(r) && CursorInRange(r, t)
    ensures b.curState == Attacking ==> r.curState == Attacking
    ensures b.curState == Freezing || b.curState == Teleporting ==> r == b
    ensures r.attacks <= b.attacks + (if b.attackDone then 0 else 1)
    ensures b.attackDone ==> r.attackDone && r.attacks == b.attacks
    ensures r.trapTimer == b.trapTimer && r.postTeleportTimer == b.postTeleportTimer
    ensures r.positionAtLastCheck == b.positionAtLastCheck
  {
    match b.curState
    case Patrolling => PatrolStep(b.(agentEnabled := true), t, f)
    case Chasing => ChaseStep(b, t, f)
    case Freezing => b
    case Teleporting => b
    case Attacking => AttackStep(b)
  }

  /** The monster has moved less than the trap radius since the last check. */
  predicate IsMonsterTrapped(b: Clown, f: Senses)
  {
    f.distance(b.positionAtLastCheck, f.position) < TrapRadius
  }

  /** Where TeleportToRandomWaypoint leaves the monster: at the drawn patrol
      point, or where it was when there are none. */
  function TeleportTarget(t: Tuning, f: Senses): (p: Point)
    requires |t.patrolPoints| == 0 || f.pick < |t.patrolPoints|
    ensures |t.patrolPoints| != 0 ==> p in t.patrolPoints
    ensures |t.patrolPoints| == 0 ==> p == f.position
  {
    if |t.patrolPoints| == 0 then f.position else t.patrolPoints[f.pick]
  }

  /** The part of Update after the post-teleport idle: the trap timer runs
      up; when it reaches the interval it restarts, and a monster that moved
      less than the trap radius teleports and idles for the post-teleport
      duration instead of running its state this frame. */
  function TrapStep(b: Clown, t: Tuning, f: Senses): (r: Clown)
    requires WallSane(b) && CursorInRange(b, t)
    requires |t.patrolPoints| == 0 || f.pick < |t.patrolPoints|
    ensures WallSane(r) && CursorInRange(r, t)
    ensures b.curState == Attacking ==> r.curState == Attacking
    ensures r.attacks <= b.attacks + (if b.attackDone then 0 else 1)
    ensures b.attackDone ==> r.attackDone && r.attacks == b.attacks
    ensures b.trapTimer + f.dt >= TrapCheckInterval ==> r.trapTimer == 0.0
    ensures b.trapTimer + f.dt < TrapCheckInterval ==>
      r.trapTimer == b.trapTimer + f.dt && r.positionAtLastCheck == b.positionAtLastCheck
    ensures b.trapTimer + f.dt >= TrapCheckInterval && IsMonsterTrapped(b, f) ==>
      && r.postTeleportTimer == PostTeleportDuration && r.positionAtLastCheck == TeleportTarget(t, f)
      && r.curState == b.curState
    ensures b.trapTimer + f.dt >= TrapCheckInterval && !IsMonsterTrapped(b, f) ==>
      r.postTeleportTimer == b.postTeleportTimer && r.positionAtLastCheck == f.position
  {
    if b.trapTimer + f.dt >= TrapCheckInterval then
      if IsMonsterTrapped(b, f) then
        var agentEnabled := if |t.patrolPoints| == 0 then b.agentEnabled else true;
        b.(agentEnabled := agentEnabled, trapTimer := 0.0, positionAtLastCheck := TeleportTarget(t, f),
           postTeleportTimer := PostTeleportDuration)
      else
        SwitchStep(b.(trapTimer := 0.0, positionAtLastCheck := f.position), t, f)
    else
      SwitchStep(b.(trapTimer := b.trapTimer + f.dt), t, f)
  }

  /** One Update. Without a player nothing happens; while the post-teleport
      timer is positive only that timer runs down; otherwise TrapStep. */
  function Tick(b: Clown, t: Tuning, f: Senses): (r: Clown)
    requires WallSane(b) && CursorInRange(b, t)
    requires |t.patrolPoints| == 0 || f.pick < |t.patrolPoints|
    ensures WallSane(r) && CursorInRange(r, t)
    ensures b.curState == Attacking ==> r.curState == Attacking
    ensures r.attacks <= b.attacks + (if b.attackDone then 0 else 1)
    ensures b.attackDone ==> r.attackDone && r.attacks == b.attacks
  {
    if !t.hasPlayer then b
    else if b.postTeleportTimer > 0.0 then b.(postTeleportTimer := b.postTeleportTimer - f.dt)
    else TrapStep(b, t, f)
  }

  /** While the post-teleport timer is positive a frame changes nothing else. */
  lemma IdleAfterTeleport(b: Clown, t: Tuning, f: Senses)
    requires WallSane(b) && CursorInRange(b, t) && (|t.patrolPoints| == 0 || f.pick < |t.patrolPoints|)
    requires b.postTeleportTimer > 0.0
    ensures Tick(b, t, f) == b.(postTeleportTimer := Tick(b, t, f).postTeleportTimer)
    ensures t.hasPlayer ==> Tick(b, t, f).postTeleportTimer == b.postTeleportTimer - f.dt
  {
  }

  /** A frame that runs the state machine: a player, no post-teleport idle,
      and no teleport this frame. */
  predicate Runs(b: Clown, t: Tuning, f: Senses)
  {
    t.hasPlayer && b.postTeleportTimer <= 0.0 && !(b.trapTimer + f.dt >= TrapCheckInterval && IsMonsterTrapped(b, f))
  }

  /** A chase turns into an attack when the player is within attack range;
      otherwise it ends on reaching the heard position, which is then
      forgotten, or at once when nothing is heard. */
  lemma ChaseTransitions(b: Clown, t: Tuning, f: Senses)
    requires WallSane(b) && CursorInRange(b, t) && (|t.patrolPoints| == 0 || f.pick < |t.patrolPoints|)
    requires b.curState == Chasing && Runs(b, t, f)
    ensures f.playerDistance <= t.attackRange ==> Tick(b, t, f).curState == Attacking
    ensures f.playerDistance > t.attackRange && b.lastHeardPosition == Zero ==> Tick(b, t, f).curState == Patrolling
    ensures f.playerDistance > t.attackRange && b.lastHeardPosition != Zero ==>
      (Tick(b, t, f).curState == Patrolling <==> f.reachedHeard)
      && (f.reachedHeard ==> Tick(b, t, f).lastHeardPosition == Zero)
      && (!f.reachedHeard ==> Tick(b, t, f).curState == Chasing)
  {
  }

  /** A footstep heard exactly at the world origin is taken for "nothing
      heard": the next chase frame out of attack range gives up at once. */
  lemma HeardAtOriginIsForgotten(b: Clown, t: Tuning, f: Senses, heardFrom: real)
    requires WallSane(b) && CursorInRange(b, t) && (|t.patrolPoints| == 0 || f.pick < |t.patrolPoints|)
    requires heardFrom <= t.hearingRange
    requires Runs(FootstepStep(b, t, Zero, heardFrom), t, f) && f.playerDistance > t.attackRange
    ensures FootstepStep(b, t, Zero, heardFrom).curState == Chasing
    ensures Tick(FootstepStep(b, t, Zero, heardFrom), t, f).curState == Patrolling
  {
  }

  /** Patrolling frames walk the patrol points round-robin. */
  lemma PatrolRoundRobin(b: Clown, t: Tuning, f: Senses)
    requires WallSane(b) && CursorInRange(b, t) && (|t.patrolPoints| == 0 || f.pick < |t.patrolPoints|)
    requires b.curState == Patrolling && Runs(b, t, f) && |t.patrolPoints| != 0
    ensures f.needsWaypoint ==>
      && Tick(b, t, f).destination == t.patrolPoints[b.currentPatrolIndex]
      && Tick(b, t, f).currentPatrolIndex == (b.currentPatrolIndex + 1) % |t.patrolPoints|
    ensures !f.needsWaypoint ==> Tick(b, t, f).currentPatrolIndex == b.currentPatrolIndex
    ensures Tick(b, t, f).curState == Patrolling
  {
  }

  /** Attack as written, run on two Attacking frames, schedules PlayerDeath
      twice. */
  lemma AttackRefires(b: Clown)
    requires b.curState == Attacking
    ensures AttackStepAsWritten(AttackStepAsWritten(b)).attacks == b.attacks + 2
    ensures AttackStep(AttackStep(b)).attacks <= b.attacks + 1
  {
  }

  /** The effect of one event. */
  function Apply(b: Clown, t: Tuning, e: Event): (r: Clown)
    requires WallSane(b) && CursorInRange(b, t)
    requires e.OnFrame? ==> |t.patrolPoints| == 0 || e.f.pick < |t.patrolPoints|
    ensures WallSane(r) && CursorInRange(r, t)
    ensures r.attacks <= b.attacks + (if b.attackDone then 0 else 1)
    ensures b.attackDone ==> r.attackDone && r.attacks == b.attacks
  {
    match e
    case OnFrame(f) => Tick(b, t, f)
    case OnFootstep(where, heardFrom) => FootstepStep(b, t, where, heardFrom)
  }

  /** The draws of every frame in `es` name a patrol point. */
  predicate DrawsInRange(t: Tuning, es: seq<Event>)
  {
    forall i :: 0 <= i < |es| && es[i].OnFrame? ==> |t.patrolPoints| == 0 || es[i].f.pick < |t.patrolPoints|
  }

  /** A run of events from `b`, oldest first. */
  function Run(b: Clown, t: Tuning, es: seq<Event>): Clown
    requires WallSane(b) && CursorInRange(b, t) && DrawsInRange(t, es)
    decreases |es|
  {
    if |es| == 0 then b else Run(Apply(b, t, es[0]), t, es[1..])
  }

  /** With `attackDone` kept, PlayerDeath is scheduled at most once over any
      run of frames and footsteps, and the wall-following bookkeeping stays
      small throughout. */
  lemma {:induction false} AttackOnce(b: Clown, t: Tuning, es: seq<Event>)
    requires WallSane(b) && CursorInRange(b, t) && DrawsInRange(t, es)
    ensures Run(b, t, es).attacks <= b.attacks + 1
    ensures b.attackDone ==> Run(b, t, es).attacks == b.attacks
    ensures WallSane(Run(b, t, es)) && CursorInRange(Run(b, t, es), t)
    decreases |es|
  {
    if |es| != 0 {
      assert DrawsInRange(t, es[1..]) by {
        forall i | 0 <= i < |es[1..]| && es[1..][i].OnFrame?
          ensures |t.patrolPoints| == 0 || es[1..][i].f.pick < |t.patrolPoints|
        {
          assert es[1..][i] == es[i + 1];
        }
      }
      AttackOnce(Apply(b, t, es[0]), t, es[1..]);
    }
  }

  class Monster2 {
    var curState: MonsterState
    var currentPatrolIndex: nat
    var lastHeardPosition: Point
    var isWallFollowing: bool
    var wallFollowDirection: Point
    var stuckCounter: nat
    var trapTimer: real
    var positionAtLastCheck: Point
    var postTeleportTimer: real
    var agentEnabled: bool
    var destination: Point
    var attackDone: bool
    /** The number of PlayerDeath calls scheduled. */
    ghost var attacks: nat
    const tuning: Tuning

    ghost function Snapshot(): Clown
      reads this
    {
      Clown(curState, currentPatrolIndex, lastHeardPosition, isWallFollowing, wallFollowDirection,
            stuckCounter, trapTimer, positionAtLastCheck, postTeleportTimer, agentEnabled, destination,
            attackDone, attacks)
    }

    ghost predicate Valid()
      reads this
    {
      WallSane(Snapshot()) && CursorInRange(Snapshot(), tuning)
    }

    /** The field initialisers and Start: Patrolling, nothing heard, the last
        check taken where the monster stands, the agent enabled. */
    constructor (tuning: Tuning, position: Point)
      ensures this.tuning == tuning && Valid()
      ensures Snapshot() == Clown(Patrolling, 0, Zero, false, Zero, 0, 0.0, position, 0.0, true, position, false, 0)
    {
      this.tuning := tuning;
      curState := Patrolling;
      currentPatrolIndex := 0;
      lastHeardPosition := Zero;
      isWallFollowing := false;
      wallFollowDirection := Zero;
      stuckCounter := 0;
      trapTimer := 0.0;
      positionAtLastCheck := position;
      postTeleportTimer := 0.0;
      agentEnabled := true;
      destination := position;
      attackDone := false;
      attacks := 0;
    }

    method Update(f: Senses)
      requires Valid() && (|tuning.patrolPoints| == 0 || f.pick < |tuning.patrolPoints|)
      modifies this
      ensures Valid()
      ensures Snapshot() == Tick(old(Snapshot()), tuning, f)
    {
      if !tuning.hasPlayer {
        return;
      }
      if postTeleportTimer > 0.0 {
        postTeleportTimer := postTeleportTimer - f.dt;
        return;
      }
      CheckTrap(f);
    }

    /** The trap check, then the state switch unless the monster teleported. */
    method CheckTrap(f: Senses)
      requires Valid() && (|tuning.patrolPoints| == 0 || f.pick < |tuning.patrolPoints|)
      modifies this
      ensures Snapshot() == TrapStep(old(Snapshot()), tuning, f)
    {
      trapTimer := trapTimer + f.dt;
      if trapTimer >= TrapCheckInterval {
        if f.distance(positionAtLastCheck, f.position) < TrapRadius {
          var position := TeleportToRandomWaypoint(f);
          trapTimer := 0.0;
          positionAtLastCheck := position;
          postTeleportTimer := PostTeleportDuration;
          return;
        } else {
          trapTimer := 0.0;
          positionAtLastCheck := f.position;
        }
      }
      Switch(f);
    }

    /** The state switch. */
    method Switch(f: Senses)
      requires Valid()
      modifies this
      ensures Snapshot() == SwitchStep(old(Snapshot()), tuning, f)
    {
      match curState {
      case Patrolling =>
        if !agentEnabled {
          agentEnabled := true;
        }
        Patrol(f);
      case Chasing =>
        if agentEnabled {
          agentEnabled := false;
        }
        Chase(f);
      case Freezing =>
      case Teleporting =>
      case Attacking =>
        Attack();
      }
    }

    /** Attack with `attackDone` kept as a field. */
    method Attack()
      modifies this
      ensures Snapshot() == AttackStep(old(Snapshot()))
    {
      if !attackDone {
        attacks := attacks + 1;
        attackDone := true;
      }
    }

    /** Moves the monster to the drawn patrol point and re-enables the agent;
        returns where the monster then stands. */
    method TeleportToRandomWaypoint(f: Senses) returns (position: Point)
      requires |tuning.patrolPoints| == 0 || f.pick < |tuning.patrolPoints|
      modifies this`agentEnabled
      ensures position == TeleportTarget(tuning, f)
      ensures agentEnabled == (if |tuning.patrolPoints| == 0 then old(agentEnabled) else true)
    {
      position := f.position;
      if |tuning.patrolPoints| == 0 {
        return;
      }
      position := tuning.patrolPoints[f.pick];
      agentEnabled := true;
    }

    method Patrol(f: Senses)
      requires CursorInRange(Snapshot(), tuning)
      modifies this
      ensures Snapshot() == PatrolStep(old(Snapshot()), tuning, f)
    {
      if |tuning.patrolPoints| == 0 || !agentEnabled {
        return;
      }
      if f.needsWaypoint {
        destination := tuning.patrolPoints[currentPatrolIndex];
        currentPatrolIndex := (currentPatrolIndex + 1) % |tuning.patrolPoints|;
      }
    }

    method Chase(f: Senses)
      requires WallSane(Snapshot()) && curState == Chasing
      modifies this
      ensures Snapshot() == ChaseStep(old(Snapshot()), tuning, f)
    {
      if agentEnabled {
        agentEnabled := false;
      }
      if f.playerDistance <= tuning.attackRange {
        curState := Attacking;
        Attack();
        return;
      }
      if lastHeardPosition != Zero {
        MoveTowardsTarget(f, tuning.chaseSpeed);
        if f.reachedHeard {
          lastHeardPosition := Zero;
          curState := Patrolling;
          agentEnabled := true;
        }
      } else {
        curState := Patrolling;
        agentEnabled := true;
      }
    }

    method MoveTowardsTarget(f: Senses, speed: real)
      requires WallSane(Snapshot())
      modifies this
      ensures Snapshot() == MoveTowardsStep(old(Snapshot()), f, speed)
    {
      if curState == Freezing {
        return;
      }
      var directionToTarget := f.toward;
      var obstacleDetectionDistance := Detect(speed, f.dt);
      if isWallFollowing {
        WallFollow(f, speed);
        if !f.blocked(directionToTarget, RequiredClearDistance) {
          isWallFollowing := false;
          stuckCounter := 0;
        }
        return;
      }
      if f.blocked(directionToTarget, obstacleDetectionDistance) {
        isWallFollowing := true;
        stuckCounter := 0;
        wallFollowDirection := f.deflect(directionToTarget);
        MoveInDirection(f, wallFollowDirection, speed);
      } else {
        MoveInDirection(f, directionToTarget, speed);
      }
    }

    /** Tries the eight candidates in order and takes the first free one. */
    method WallFollow(f: Senses, speed: real)
      modifies this
      ensures Snapshot() == WallFollowStep(old(Snapshot()), f, speed)
    {
      var directions := f.turns(wallFollowDirection);
      var i := 0;
      while i < |directions|
        invariant i <= |directions|
        invariant Snapshot() == old(Snapshot())
        invariant forall j :: 0 <= j < i ==> f.blocked(directions[j], 1.0)
      {
        var dir := directions[i];
        if !f.blocked(dir, 1.0) {
          assert FirstFree(directions, f.blocked) == i by {
            FirstFreeIsFirst(directions, f.blocked, i);
          }
          wallFollowDirection := dir;
          MoveInDirection(f, wallFollowDirection, speed);
          stuckCounter := 0;
          return;
        }
        i := i + 1;
      }
      assert FirstFree(directions, f.blocked) == |directions| by {
        FirstFreeIsFirst(directions, f.blocked, |directions|);
      }
      stuckCounter := stuckCounter + 1;
      if stuckCounter >= 4 {
        wallFollowDirection := f.randomDirection;
        stuckCounter := 0;
      }
    }

    method MoveInDirection(f: Senses, direction: Point, speed: real)
      modifies this
      ensures Snapshot() == MoveInDirectionStep(old(Snapshot()), f, direction, speed)
    {
      var obstacleDetectionDistance := Detect(speed, f.dt);
      if f.blocked(direction, obstacleDetectionDistance) {
        isWallFollowing := true;
        stuckCounter := stuckCounter + 1;
        wallFollowDirection := f.deflect(direction);
      }
    }

    method OnPlayerFootstep(playerPosition: Point, distanceToPlayer: real)
      modifies this
      ensures Snapshot() == FootstepStep(old(Snapshot()), tuning, playerPosition, distanceToPlayer)
    {
      if distanceToPlayer <= tuning.hearingRange {
        lastHeardPosition := playerPosition;
        curState := Chasing;
        if agentEnabled {
          agentEnabled := false;
        }
      }
    }
  }

  /** FirstFree is the first free position: every candidate before `k` is
      blocked and the one at `k` (if any) is free. */
  lemma {:induction false} FirstFreeIsFirst(cs: seq<Point>, blocked: (Point, real) -> bool, k: nat)
    requires k <= |cs|
    requires forall j :: 0 <= j < k ==> blocked(cs[j], 1.0)
    requires k < |cs| ==> !blocked(cs[k], 1.0)
    ensures FirstFree(cs, blocked) == k
    decreases k
  {
    if k != 0 {
      assert blocked(cs[0], 1.0);
      FirstFreeIsFirst(cs[1..], blocked, k - 1);
    }
  }
}
