/** Monster3.cs: the crawler of the forest area. It wanders the area while
    the player is away, stalks the player at a distance once the player comes
    in, and, after TriggerAngryMode, hunts the player inside the area, watches
    from the edge while the player is outside, and kills on reach.

    Update is the function `UpdateStep` on a `Crawler`, the value of the
    fields it reads and writes; the class `Monster3` runs the same switch
    statement by statement and is proved to land on its answer. The anger
    coroutine's five-second wait is a countdown the engine runs down after
    each Update (`CoroutineStep`). */
module Monster3 {
  import opened Geometry

  datatype MonsterState = Spawning | Idle | Angry | Attacking | Stalking | Watching

  /** `monsterInForestArea` is initialised to true and never assigned again. */
  const MonsterInForestArea := true

  /** The wait of TriggerAngryModeCoroutine, in seconds. */
  const AngerDelay := 5.0

  /** The spawn growth takes this many seconds of game time. */
  const GrowthTime := 15.0

  /** The half-width of the stalking band around the stalking distance. */
  const StalkBuffer := 2.0

  /** The settings: attackRange from the inspector and stalkingDistance as
      drawn in Start from [10, 20]. */
  datatype Tuning = Tuning(attackRange: real, stalkingDistance: real)

  /** What the scene supplies during one frame: Time.deltaTime and Time.time;
      whether the agent has reached its destination (no path pending and
      within its stopping distance); the random point in the forest area the
      idle wander would pick; the player's position and distance; and the
      point 2 units straight away from the player. */
  datatype Frame = Frame(
    dt: real,
    time: real,
    arrived: bool,
    randomPoint: Point,
    playerPosition: Point,
    distance: real,
    awayTarget: Point)

  /** The crawler's fields with its agent's destination and stopped flag.
      `kills` counts the PlayerMovement.Die calls; `pending` holds the
      seconds left on each running anger coroutine. */
  datatype Crawler = Crawler(
    currentState: MonsterState,
    isAngry: bool,
    playerInForestArea: bool,
    destination: Point,
    stopped: bool,
    kills: nat,
    pending: seq<real>)

  /** What a stalking frame does with the agent. */
  datatype StalkMove = Approach | Retreat | Hold

  /** The stalking band: beyond stalkingDistance + 2 the crawler closes in,
      inside stalkingDistance - 2 it backs off, and in between it holds. */
  function StalkChoice(distance: real, stalkingDistance: real): (m: StalkMove)
    ensures m == Approach ==> distance > stalkingDistance + StalkBuffer
    ensures m == Retreat ==> distance < stalkingDistance - StalkBuffer
    ensures m == Hold ==> stalkingDistance - StalkBuffer <= distance <= stalkingDistance + StalkBuffer
  {
    if distance > stalkingDistance + StalkBuffer then Approach
    else if distance < stalkingDistance - StalkBuffer then Retreat
    else Hold
  }

  /** The three stalking moves cover every distance, one each, and each is
      exactly its part of the band. */
  lemma StalkBandPartition(distance: real, stalkingDistance: real)
    ensures StalkChoice(distance, stalkingDistance) == Approach <==> distance > stalkingDistance + StalkBuffer
    ensures StalkChoice(distance, stalkingDistance) == Retreat <==> distance < stalkingDistance - StalkBuffer
    ensures StalkChoice(distance, stalkingDistance) == Hold <==>
      stalkingDistance - StalkBuffer <= distance <= stalkingDistance + StalkBuffer
  {
  }

  /** SpawningState: once the growth over 15 seconds of game time is done the
      crawler idles. */
  function SpawningStep(b: Crawler, f: Frame): (r: Crawler)
    ensures r.currentState == (if f.time >= GrowthTime then Idle else b.currentState)
    ensures r == b.(currentState := r.currentState)
  {
    if f.time >= GrowthTime then b.(currentState := Idle) else b
  }

  /** IdleState: on arrival the agent gets a fresh random point in the area;
      a player in the area starts the stalking. */
  function IdleStep(b: Crawler, f: Frame): (r: Crawler)
    ensures r.currentState == (if b.playerInForestArea then Stalking else b.currentState)
    ensures r.destination == (if f.arrived then f.randomPoint else b.destination)
    ensures r == b.(currentState := r.currentState, destination := r.destination)
  {
    if MonsterInForestArea then
      var b := if f.arrived then b.(destination := f.randomPoint) else b;
      if b.playerInForestArea then b.(currentState := Stalking) else b
    else b
  }

  /** AngryState: with the player in the area the agent heads for the player
      and an attack starts within attack range; with the player outside the
      agent stops and the crawler watches. */
  function AngryStep(b: Crawler, t: Tuning, f: Frame): (r: Crawler)
    ensures b.playerInForestArea ==>
      && r.destination == f.playerPosition && r.stopped == b.stopped
      && r.currentState == (if f.distance < t.attackRange then Attacking else b.currentState)
    ensures !b.playerInForestArea ==> r.stopped && r.currentState == Watching && r.destination == b.destination
    ensures r == b.(currentState := r.currentState, destination := r.destination, stopped := r.stopped)
  {
    if b.playerInForestArea then
      var b := b.(destination := f.playerPosition);
      if f.distance < t.attackRange then b.(currentState := Attacking) else b
    else
      b.(stopped := true, currentState := Watching)
  }

  /** AttackState: within attack range the player dies, on every such frame. */
  function AttackStep(b: Crawler, t: Tuning, f: Frame): (r: Crawler)
    ensures r.kills == b.kills + (if f.distance < t.attackRange then 1 else 0)
    ensures r == b.(kills := r.kills)
  {
    if f.distance < t.attackRange then b.(kills := b.kills + 1) else b
  }

  /** StalkState: with the player in the area, approach, back off or hold by
      the stalking band; with the player gone, idle again. */
  function StalkStep(b: Crawler, t: Tuning, f: Frame): (r: Crawler)
    ensures !b.playerInForestArea ==> r == b.(currentState := Idle)
    ensures b.playerInForestArea ==> r.currentState == b.currentState
    ensures b.playerInForestArea && StalkChoice(f.distance, t.stalkingDistance) == Approach ==>
      !r.stopped && r.destination == f.playerPosition
    ensures b.playerInForestArea && StalkChoice(f.distance, t.stalkingDistance) == Retreat ==>
      !r.stopped && r.destination == f.awayTarget
    ensures b.playerInForestArea && StalkChoice(f.distance, t.stalkingDistance) == Hold ==>
      r.stopped && r.destination == b.destination
    ensures r == b.(currentState := r.currentState, destination := r.destination, stopped := r.stopped)
  {
    if b.playerInForestArea then
      match StalkChoice(f.distance, t.stalkingDistance)
      case Approach => b.(stopped := false, destination := f.playerPosition)
      case Retreat => b.(stopped := false, destination := f.awayTarget)
      case Hold => b.(stopped := true)
    else
      b.(currentState := Idle)
  }

  /** WatchingState: the crawler turns to the player (left to the engine) and
      gets angry again as soon as the player is back in the area. */
  function WatchingStep(b: Crawler): (r: Crawler)
    ensures r.currentState == (if b.playerInForestArea then Angry else b.currentState)
    ensures r == b.(currentState := r.currentState)
  {
    if b.playerInForestArea then b.(currentState := Angry) else b
  }

  /** Update: the state switch. */
  function UpdateStep(b: Crawler, t: Tuning, f: Frame): (r: Crawler)
    ensures r.playerInForestArea == b.playerInForestArea && r.isAngry == b.isAngry && r.pending == b.pending
    ensures b.currentState == Attacking ==> r.currentState == Attacking
    ensures r.kills == b.kills + (if b.currentState == Attacking && f.distance < t.attackRange then 1 else 0)
  {
    match b.currentState
    case Spawning => SpawningStep(b, f)
    case Idle => IdleStep(b, f)
    case Angry => AngryStep(b, t, f)
    case Attacking => AttackStep(b, t, f)
    case Stalking => StalkStep(b, t, f)
    case Watching => WatchingStep(b)
  }

  /** The countdowns still running after `dt` more seconds. */
  function Elapse(pending: seq<real>, dt: real): (r: seq<real>)
    ensures |r| <= |pending|
    ensures forall i :: 0 <= i < |r| ==> r[i] > 0.0
    ensures |r| == |pending| <==> !Fires(pending, dt)
    ensures !Fires(pending, dt) ==> forall i :: 0 <= i < |r| ==> r[i] == pending[i] - dt
  {
    if |pending| == 0 then []
    else
      var rest := Elapse(pending[1..], dt);
      if pending[0] - dt > 0.0 then [pending[0] - dt] + rest else rest
  }

  /** Some running countdown runs out within `dt`. */
  predicate Fires(pending: seq<real>, dt: real)
  {
    exists i :: 0 <= i < |pending| && pending[i] - dt <= 0.0
  }

  /** The coroutines after a frame: every countdown runs down by `dt`, and one
      that runs out makes the crawler angry, whatever it was doing. */
  function CoroutineStep(b: Crawler, dt: real): (r: Crawler)
    ensures r.pending == Elapse(b.pending, dt)
    ensures Fires(b.pending, dt) ==> r.isAngry && r.currentState == Angry
    ensures !Fires(b.pending, dt) ==> r == b.(pending := r.pending)
  {
    var b' := b.(pending := Elapse(b.pending, dt));
    if Fires(b.pending, dt) then b'.(isAngry := true, currentState := Angry) else b'
  }

  /** TriggerAngryMode: a new five-second countdown starts. */
  function TriggerAngryStep(b: Crawler): (r: Crawler)
    ensures r.pending == b.pending + [AngerDelay]
    ensures r == b.(pending := r.pending)
  {
    b.(pending := b.pending + [AngerDelay])
  }

  /** A triggered crawler turns angry exactly on the frame its countdown runs
      out: not while time is left, and then from any state. */
  lemma AngerAfterDelay(b: Crawler, dt1: real, dt2: real)
    requires b.pending == [] && 0.0 < dt1 < AngerDelay && AngerDelay - dt1 - dt2 <= 0.0
    ensures CoroutineStep(TriggerAngryStep(b), dt1) == TriggerAngryStep(b).(pending := [AngerDelay - dt1])
    ensures CoroutineStep(CoroutineStep(TriggerAngryStep(b), dt1), dt2).currentState == Angry
    ensures CoroutineStep(CoroutineStep(TriggerAngryStep(b), dt1), dt2).isAngry
    ensures CoroutineStep(CoroutineStep(TriggerAngryStep(b), dt1), dt2).pending == []
  {
    var b1 := TriggerAngryStep(b);
    assert b1.pending == [AngerDelay];
    assert !Fires(b1.pending, dt1);
    var b2 := CoroutineStep(b1, dt1);
    assert b2.pending == [AngerDelay - dt1];
    assert Fires(b2.pending, dt2) by {
      assert b2.pending[0] - dt2 <= 0.0;
    }
  }

  /** The transitions of the switch, by state. */
  lemma Transitions(b: Crawler, t: Tuning, f: Frame)
    ensures b.currentState == Idle ==> (UpdateStep(b, t, f).currentState == Stalking <==> b.playerInForestArea)
    ensures b.currentState == Stalking ==> (UpdateStep(b, t, f).currentState == Idle <==> !b.playerInForestArea)
    ensures b.currentState == Angry ==>
      && (UpdateStep(b, t, f).currentState == Attacking <==> b.playerInForestArea && f.distance < t.attackRange)
      && (UpdateStep(b, t, f).currentState == Watching <==> !b.playerInForestArea)
    ensures b.currentState == Watching ==> (UpdateStep(b, t, f).currentState == Angry <==> b.playerInForestArea)
  {
  }

  class Monster3 {
    var currentState: MonsterState
    var isAngry: bool
    var playerInForestArea: bool
    var destination: Point
    var stopped: bool
    /** The number of PlayerMovement.Die calls. */
    ghost var kills: nat
    var pending: seq<real>
    const tuning: Tuning

    ghost function Snapshot(): Crawler
      reads this
    {
      Crawler(currentState, isAngry, playerInForestArea, destination, stopped, kills, pending)
    }

    /** The field initialisers and Start: Idle, not angry, the player not in
        the area. */
    constructor (tuning: Tuning, position: Point)
      ensures this.tuning == tuning
      ensures Snapshot() == Crawler(Idle, false, false, position, false, 0, [])
    {
      this.tuning := tuning;
      currentState := Idle;
      isAngry := false;
      playerInForestArea := false;
      destination := position;
      stopped := false;
      kills := 0;
      pending := [];
    }

    method Update(f: Frame)
      modifies this
      ensures Snapshot() == UpdateStep(old(Snapshot()), tuning, f)
    {
      match currentState {
      case Spawning => SpawningState(f);
      case Idle => IdleState(f);
      case Angry => AngryState(f);
      case Attacking => AttackState(f);
      case Stalking => StalkState(f);
      case Watching => WatchingState();
      }
    }

    method SpawningState(f: Frame)
      modifies this
      ensures Snapshot() == SpawningStep(old(Snapshot()), f)
    {
      if f.time >= GrowthTime {
        currentState := Idle;
      }
    }

    method IdleState(f: Frame)
      modifies this
      ensures Snapshot() == IdleStep(old(Snapshot()), f)
    {
      if MonsterInForestArea {
        if f.arrived {
          destination := f.randomPoint;
        }
        if playerInForestArea {
          currentState := Stalking;
        }
      }
    }

    method AngryState(f: Frame)
      modifies this
      ensures Snapshot() == AngryStep(old(Snapshot()), tuning, f)
    {
      if playerInForestArea {
        destination := f.playerPosition;
        if f.distance < tuning.attackRange {
          currentState := Attacking;
        }
      } else {
        stopped := true;
        currentState := Watching;
      }
    }

    method AttackState(f: Frame)
      modifies this
      ensures Snapshot() == AttackStep(old(Snapshot()), tuning, f)
    {
      if f.distance < tuning.attackRange {
        kills := kills + 1;
      }
    }

    method StalkState(f: Frame)
      modifies this
      ensures Snapshot() == StalkStep(old(Snapshot()), tuning, f)
    {
      if playerInForestArea {
        var stalkingBufferMin := tuning.stalkingDistance - StalkBuffer;
        var stalkingBufferMax := tuning.stalkingDistance + StalkBuffer;
        if f.distance > stalkingBufferMax {
          stopped := false;
          destination := f.playerPosition;
        } else if f.distance < stalkingBufferMin {
          stopped := false;
          destination := f.awayTarget;
        } else {
          stopped := true;
        }
      } else {
        currentState := Idle;
      }
    }

    method WatchingState()
      modifies this
      ensures Snapshot() == WatchingStep(old(Snapshot()))
    {
      if playerInForestArea {
        currentState := Angry;
      }
    }

    /** TriggerAngryMode starts the coroutine, which waits five seconds. */
    method TriggerAngryMode()
      modifies this
      ensures Snapshot() == TriggerAngryStep(old(Snapshot()))
    {
      pending := pending + [AngerDelay];
    }

    /** The engine resumes the waiting coroutines after Update. */
    method ResumeCoroutines(dt: real)
      modifies this
      ensures Snapshot() == CoroutineStep(old(Snapshot()), dt)
    {
      var fires := Fires(pending, dt);
      pending := Elapse(pending, dt);
      if fires {
        isAngry := true;
        currentState := Angry;
      }
    }

    method PlayerEnteredForestArea()
      modifies this
      ensures playerInForestArea
      ensures Snapshot() == old(Snapshot()).(playerInForestArea := true)
    {
      playerInForestArea := true;
    }

    method PlayerExitedForestArea()
      modifies this
      ensures !playerInForestArea
      ensures Snapshot() == old(Snapshot()).(playerInForestArea := false)
    {
      playerInForestArea := false;
    }
  }
}
