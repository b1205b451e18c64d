/** MotherMonster.cs: the mother of the crawlers. While idle it spawns a
    crawler whenever its spawn timer runs out; once angered it chases the
    player through the forest area, growing in size, speed and reach while it
    does, and when fully grown it hunts without limit.

    Update is the function `Tick` on a `Mother`, the value of the fields it
    reads and writes, followed by one step of the SpawnTimer coroutine (Unity
    resumes a coroutine that yielded null after every Update). The class
    `MotherMonster` runs the same code statement by statement and is proved to
    land on that answer. The local scale is the original size times the
    factor `scale`; the player's position and distance and the draw behind
    Random.Range come in with each `Frame`. */
module MotherMonster {
  import opened Geometry

  datatype MotherMonsterState = Idle | Spawning | Angry | Watching | Unlimited | Attacking

  /** The inspector-set settings, and the length of the original local
      scale vector. */
  datatype Tuning = Tuning(
    minSpawnInterval: real,
    maxSpawnInterval: real,
    baseChaseSpeed: real,
    baseAttackRange: real,
    growthDuration: real,
    maxSizeMultiplier: real,
    sizeMagnitude: real)

  /** What the scene supplies during one frame: Time.deltaTime, the player's
      position and distance, and the draw in [0, 1] behind Random.Range. */
  datatype Frame = Frame(dt: real, playerPosition: Point, distance: real, draw: real)

  predicate FrameSane(f: Frame)
  {
    f.dt >= 0.0 && 0.0 <= f.draw <= 1.0
  }

  /** The monster's fields, with its agent's stopped flag and destination;
      `spawned` counts the crawlers instantiated. */
  datatype Mother = Mother(
    currentState: MotherMonsterState,
    playerInForestArea: bool,
    isAngry: bool,
    timeToNextSpawn: real,
    currentChaseSpeed: real,
    currentAttackRange: real,
    growthProgress: real,
    scale: real,
    agentStopped: bool,
    destination: Point,
    spawned: nat)

  /** Mathf.Lerp and Vector3.Lerp: the parameter is clamped to [0, 1]. */
  function Lerp(a: real, b: real, t: real): (r: real)
    ensures t <= 0.0 ==> r == a
    ensures t >= 1.0 ==> r == b
  {
    a + (b - a) * Common.Clamp(t, 0.0, 1.0)
  }

  function Abs(x: real): real
  {
    if x < 0.0 then -x else x
  }

  /** Random.Range(minSpawnInterval, maxSpawnInterval) for the given draw. */
  function SpawnDelay(t: Tuning, draw: real): real
  {
    t.minSpawnInterval + (t.maxSpawnInterval - t.minSpawnInterval) * draw
  }

  /** A draw in [0, 1] gives a delay between the two intervals. */
  lemma SpawnDelayInRange(t: Tuning, draw: real)
    requires 0.0 <= draw <= 1.0 && t.minSpawnInterval <= t.maxSpawnInterval
    ensures t.minSpawnInterval <= SpawnDelay(t, draw) <= t.maxSpawnInterval
  {
    var width := t.maxSpawnInterval - t.minSpawnInterval;
    assert 0.0 <= width * draw;
    assert 0.0 <= width * (1.0 - draw);
  }

  /** The monster's invariant: growth has not gone backwards, the size
      follows the growth, and only a fully grown monster is Unlimited. */
  predicate Valid(b: Mother, t: Tuning)
  {
    && b.growthProgress >= 0.0
    && b.scale == Lerp(1.0, t.maxSizeMultiplier, b.growthProgress)
    && (b.currentState == Unlimited ==> b.growthProgress >= 1.0)
  }

  /** The state after Start: Idle, at full speed and base reach, original
      size, no growth, and the spawn timer at zero. */
  function Started(t: Tuning, position: Point): (r: Mother)
    ensures Valid(r, t) && r.currentState == Idle && r.timeToNextSpawn == 0.0
  {
    Mother(Idle, false, false, 0.0, t.baseChaseSpeed, t.baseAttackRange, 0.0, 1.0, false, position, 0)
  }

  /** IdleState: the timer running out moves to Spawning, but anger wins. */
  function IdleStep(b: Mother): (r: Mother)
    ensures r.currentState == (if b.isAngry then Angry else if b.timeToNextSpawn <= 0.0 then Spawning else b.currentState)
    ensures r == b.(currentState := r.currentState)
  {
    var b := if b.timeToNextSpawn <= 0.0 then b.(currentState := Spawning) else b;
    if b.isAngry then b.(currentState := Angry) else b
  }

  /** SpawningState: one crawler, a new spawn delay, back to Idle. */
  function SpawningStep(b: Mother, t: Tuning, f: Frame): (r: Mother)
    ensures r.currentState == Idle && r.spawned == b.spawned + 1
    ensures r.timeToNextSpawn == SpawnDelay(t, f.draw)
    ensures r == b.(currentState := Idle, spawned := r.spawned, timeToNextSpawn := r.timeToNextSpawn)
  {
    b.(spawned := b.spawned + 1, timeToNextSpawn := SpawnDelay(t, f.draw), currentState := Idle)
  }

  /** The first half of GrowOverTime: until fully grown, growth advances by
      dt over the growth duration, and size, speed and reach follow it. */
  function AdvanceGrowth(b: Mother, t: Tuning, dt: real): (r: Mother)
    requires t.growthDuration > 0.0
    ensures b.growthProgress < 1.0 ==> r.growthProgress == b.growthProgress + dt / t.growthDuration
    ensures b.growthProgress < 1.0 ==> r.scale == Lerp(1.0, t.maxSizeMultiplier, r.growthProgress)
    ensures b.growthProgress >= 1.0 ==> r == b
    ensures r == b.(growthProgress := r.growthProgress, scale := r.scale, currentChaseSpeed := r.currentChaseSpeed,
                    currentAttackRange := r.currentAttackRange)
  {
    if b.growthProgress < 1.0 then
      var progress := b.growthProgress + dt / t.growthDuration;
      var scale := Lerp(1.0, t.maxSizeMultiplier, progress);
      b.(growthProgress := progress,
         scale := scale,
         currentChaseSpeed := Lerp(t.baseChaseSpeed, t.baseChaseSpeed * t.maxSizeMultiplier, progress),
         currentAttackRange := 2.5 * t.sizeMagnitude * Abs(scale))
    else b
  }

  /** GrowOverTime: growth never goes back, and a fully grown monster at
      maximum size becomes Unlimited. */
  function GrowStep(b: Mother, t: Tuning, dt: real): (r: Mother)
    requires Valid(b, t) && t.growthDuration > 0.0 && dt >= 0.0
    ensures Valid(r, t)
    ensures r.growthProgress >= b.growthProgress
    ensures r.growthProgress >= 1.0 ==> r.currentState == Unlimited
    ensures r.growthProgress < 1.0 ==> r.currentState == b.currentState
    ensures r.playerInForestArea == b.playerInForestArea && r.isAngry == b.isAngry
    ensures r.timeToNextSpawn == b.timeToNextSpawn && r.spawned == b.spawned && r.destination == b.destination
    ensures r.agentStopped == b.agentStopped
  {
    var b := AdvanceGrowth(b, t, dt);
    if b.growthProgress >= 1.0 && b.scale == t.maxSizeMultiplier then b.(currentState := Unlimited) else b
  }

  /** AngryState: with the player in the area the agent chases, the monster
      grows, and a player within its reach is attacked; with the player gone
      it stops and watches. */
  function AngryStep(b: Mother, t: Tuning, f: Frame): (r: Mother)
    requires Valid(b, t) && t.growthDuration > 0.0 && f.dt >= 0.0
    ensures Valid(r, t) && r.growthProgress >= b.growthProgress
    ensures !b.playerInForestArea ==> r == b.(agentStopped := true, currentState := Watching)
    ensures b.playerInForestArea ==> !r.agentStopped && r.destination == f.playerPosition
    ensures b.playerInForestArea && f.distance <= r.currentAttackRange ==> r.currentState == Attacking
    ensures r.timeToNextSpawn == b.timeToNextSpawn && r.spawned == b.spawned
  {
    if b.playerInForestArea then
      var b := GrowStep(b.(agentStopped := false, destination := f.playerPosition), t, f.dt);
      if f.distance <= b.currentAttackRange then b.(currentState := Attacking) else b
    else b.(agentStopped := true, currentState := Watching)
  }

  /** WatchingState: the monster keeps growing and turns Angry once the
      player is back in the area. */
  function WatchingStep(b: Mother, t: Tuning, dt: real): (r: Mother)
    requires Valid(b, t) && t.growthDuration > 0.0 && dt >= 0.0
    ensures Valid(r, t) && r.growthProgress >= b.growthProgress
    ensures b.playerInForestArea ==> r.currentState == Angry
    ensures !b.playerInForestArea ==> r.currentState in {b.currentState, Unlimited}
    ensures r.timeToNextSpawn == b.timeToNextSpawn && r.spawned == b.spawned
  {
    var b := GrowStep(b, t, dt);
    if b.playerInForestArea then b.(currentState := Angry) else b
  }

  /** UnlimitedState: chase everywhere and attack within reach. */
  function UnlimitedStep(b: Mother, f: Frame): (r: Mother)
    ensures r.currentState == (if f.distance <= b.currentAttackRange then Attacking else b.currentState)
    ensures r == b.(agentStopped := false, destination := f.playerPosition, currentState := r.currentState)
  {
    var b := b.(agentStopped := false, destination := f.playerPosition);
    if f.distance <= b.currentAttackRange then b.(currentState := Attacking) else b
  }

  /** The state switch of Update; AttackState does nothing. */
  function SwitchStep(b: Mother, t: Tuning, f: Frame): (r: Mother)
    requires Valid(b, t) && t.growthDuration > 0.0 && f.dt >= 0.0
    ensures Valid(r, t) && r.growthProgress >= b.growthProgress
    ensures b.currentState == Attacking ==> r == b
    ensures b.currentState != Spawning ==> r.timeToNextSpawn == b.timeToNextSpawn && r.spawned == b.spawned
    ensures r.playerInForestArea == b.playerInForestArea && r.isAngry == b.isAngry
  {
    match b.currentState
    case Idle => IdleStep(b)
    case Spawning => SpawningStep(b, t, f)
    case Angry => AngryStep(b, t, f)
    case Watching => WatchingStep(b, t, f.dt)
    case Unlimited => UnlimitedStep(b, f)
    case Attacking => b
  }

  /** One resumption of the SpawnTimer coroutine: the timer counts down only
      while the monster is Idle and the timer is positive. */
  function SpawnTimerStep(b: Mother, dt: real): (r: Mother)
    ensures r.timeToNextSpawn == (if b.currentState == Idle && b.timeToNextSpawn > 0.0 then b.timeToNextSpawn - dt else b.timeToNextSpawn)
    ensures r == b.(timeToNextSpawn := r.timeToNextSpawn)
  {
    if b.currentState == Idle && b.timeToNextSpawn > 0.0 then b.(timeToNextSpawn := b.timeToNextSpawn - dt) else b
  }

  /** One frame: Update, then the coroutine. */
  function Tick(b: Mother, t: Tuning, f: Frame): (r: Mother)
    requires Valid(b, t) && t.growthDuration > 0.0 && FrameSane(f)
    ensures Valid(r, t)
    ensures r.growthProgress >= b.growthProgress
    ensures b.currentState == Attacking ==> r == b
    ensures b.currentState != Spawning ==>
      r.timeToNextSpawn == (if SwitchStep(b, t, f).currentState == Idle && b.timeToNextSpawn > 0.0
                            then b.timeToNextSpawn - f.dt else b.timeToNextSpawn)
    ensures r.spawned == b.spawned + (if b.currentState == Spawning then 1 else 0)
  {
    SpawnTimerStep(SwitchStep(b, t, f), f.dt)
  }

  /** TriggerAngryMode forces Angry from any state and keeps the monster angry. */
  function TriggerAngryStep(b: Mother): (r: Mother)
    ensures r.isAngry && r.currentState == Angry
    ensures r == b.(isAngry := true, currentState := Angry)
  {
    b.(isAngry := true, currentState := Angry)
  }

  datatype Event = OnFrame(f: Frame) | Entered | Exited | Anger

  predicate EventSane(e: Event)
  {
    e.OnFrame? ==> FrameSane(e.f)
  }

  function Apply(b: Mother, t: Tuning, e: Event): (r: Mother)
    requires Valid(b, t) && t.growthDuration > 0.0 && EventSane(e)
    ensures Valid(r, t) && r.growthProgress >= b.growthProgress
  {
    match e
    case OnFrame(f) => Tick(b, t, f)
    case Entered => b.(playerInForestArea := true)
    case Exited => b.(playerInForestArea := false)
    case Anger => TriggerAngryStep(b)
  }

  function Run(b: Mother, t: Tuning, events: seq<Event>): Mother
    requires Valid(b, t) && t.growthDuration > 0.0
    requires forall i :: 0 <= i < |events| ==> EventSane(events[i])
    decreases |events|
  {
    if events == [] then b else Run(Apply(b, t, events[0]), t, events[1..])
  }

  /** Over any run growth never goes back, the invariant holds throughout,
      and a monster that is Attacking stays so until TriggerAngryMode. */
  lemma {:induction false} RunKeepsGrowth(b: Mother, t: Tuning, events: seq<Event>)
    requires Valid(b, t) && t.growthDuration > 0.0
    requires forall i :: 0 <= i < |events| ==> EventSane(events[i])
    ensures Valid(Run(b, t, events), t)
    ensures Run(b, t, events).growthProgress >= b.growthProgress
    ensures b.currentState == Attacking && (forall i :: 0 <= i < |events| ==> !events[i].Anger?) ==>
      Run(b, t, events).currentState == Attacking
    decreases |events|
  {
    if events != [] {
      var next := Apply(b, t, events[0]);
      assert forall i :: 0 <= i < |events[1..]| ==> events[1..][i] == events[i + 1];
      RunKeepsGrowth(next, t, events[1..]);
    }
  }

  /** The transitions out of Idle, Angry, Watching and Unlimited. */
  lemma Transitions(b: Mother, t: Tuning, f: Frame)
    requires Valid(b, t) && t.growthDuration > 0.0 && FrameSane(f)
    ensures b.currentState == Idle ==>
      SwitchStep(b, t, f).currentState == (if b.isAngry then Angry else if b.timeToNextSpawn <= 0.0 then Spawning else Idle)
    ensures b.currentState == Spawning ==> SwitchStep(b, t, f).currentState == Idle
    ensures b.currentState == Spawning && t.minSpawnInterval <= t.maxSpawnInterval ==>
      t.minSpawnInterval <= SwitchStep(b, t, f).timeToNextSpawn <= t.maxSpawnInterval
    ensures b.currentState == Angry && !b.playerInForestArea ==> SwitchStep(b, t, f).currentState == Watching
    ensures b.currentState == Angry && b.playerInForestArea && f.distance <= SwitchStep(b, t, f).currentAttackRange ==>
      SwitchStep(b, t, f).currentState == Attacking
    ensures b.currentState == Watching && b.playerInForestArea ==> SwitchStep(b, t, f).currentState == Angry
    ensures b.currentState == Unlimited ==>
      SwitchStep(b, t, f).currentState == (if f.distance <= b.currentAttackRange then Attacking else Unlimited)
  {
    if b.currentState == Spawning && t.minSpawnInterval <= t.maxSpawnInterval {
      SpawnDelayInRange(t, f.draw);
    }
  }

  /** Growth that reaches 1 while Angry or Watching turns the monster
      Unlimited, unless the same frame sends it to attack or back to Angry. */
  lemma FullGrowthUnleashes(b: Mother, t: Tuning, f: Frame)
    requires Valid(b, t) && t.growthDuration > 0.0 && FrameSane(f)
    requires b.currentState == Angry && b.playerInForestArea
    requires GrowStep(b, t, f.dt).growthProgress >= 1.0 && f.distance > GrowStep(b, t, f.dt).currentAttackRange
    ensures Tick(b, t, f).currentState == Unlimited
  {
  }

  /** The spawn timer starts at zero, so the first crawler comes without
      waiting: the first frame moves to Spawning and the second spawns. */
  lemma FirstSpawnIsImmediate(t: Tuning, position: Point, f1: Frame, f2: Frame)
    requires t.growthDuration > 0.0 && FrameSane(f1) && FrameSane(f2)
    ensures Tick(Started(t, position), t, f1).currentState == Spawning
    ensures Tick(Tick(Started(t, position), t, f1), t, f2).spawned == 1
  {
  }

  class MotherMonster {
    var currentState: MotherMonsterState
    var playerInForestArea: bool
    var isAngry: bool
    var timeToNextSpawn: real
    var currentChaseSpeed: real
    var currentAttackRange: real
    var growthProgress: real
    var scale: real
    var agentStopped: bool
    var destination: Point
    /** The number of crawlers instantiated. */
    ghost var spawned: nat
    const tuning: Tuning

    ghost function Snapshot(): Mother
      reads this
    {
      Mother(currentState, playerInForestArea, isAngry, timeToNextSpawn, currentChaseSpeed, currentAttackRange,
             growthProgress, scale, agentStopped, destination, spawned)
    }

    /** The field initialisers and Start, including the coroutine's first
        step, which finds the timer at zero and leaves it. */
    constructor (tuning: Tuning, position: Point)
      ensures this.tuning == tuning
      ensures Snapshot() == Started(tuning, position)
    {
      this.tuning := tuning;
      currentState := Idle;
      playerInForestArea := false;
      isAngry := false;
      timeToNextSpawn := 0.0;
      currentChaseSpeed := tuning.baseChaseSpeed;
      currentAttackRange := tuning.baseAttackRange;
      growthProgress := 0.0;
      scale := 1.0;
      agentStopped := false;
      destination := position;
      spawned := 0;
    }

    /** One frame: Update, then the SpawnTimer coroutine. */
    method Advance(f: Frame)
      requires Valid(Snapshot(), tuning) && tuning.growthDuration > 0.0 && FrameSane(f)
      modifies this
      ensures Snapshot() == Tick(old(Snapshot()), tuning, f)
    {
      Update(f);
      SpawnTimer(f.dt);
    }

    method Update(f: Frame)
      requires Valid(Snapshot(), tuning) && tuning.growthDuration > 0.0 && f.dt >= 0.0
      modifies this
      ensures Snapshot() == SwitchStep(old(Snapshot()), tuning, f)
    {
      match currentState {
      case Idle => IdleState();
      case Spawning => SpawningState(f.draw);
      case Angry => AngryState(f);
      case Watching => WatchingState(f.dt);
      case Unlimited => UnlimitedState(f);
      case Attacking =>
      }
    }

    method IdleState()
      modifies this
      ensures Snapshot() == IdleStep(old(Snapshot()))
    {
      if timeToNextSpawn <= 0.0 {
        currentState := Spawning;
      }
      if isAngry {
        currentState := Angry;
      }
    }

    method SpawningState(draw: real)
      modifies this
      ensures Snapshot() == old(Snapshot()).(spawned := old(spawned) + 1, timeToNextSpawn := SpawnDelay(tuning, draw),
                                             currentState := Idle)
    {
      spawned := spawned + 1;
      timeToNextSpawn := SpawnDelay(tuning, draw);
      currentState := Idle;
    }

    method AngryState(f: Frame)
      requires Valid(Snapshot(), tuning) && tuning.growthDuration > 0.0 && f.dt >= 0.0
      modifies this
      ensures Snapshot() == AngryStep(old(Snapshot()), tuning, f)
    {
      if playerInForestArea {
        agentStopped := false;
        destination := f.playerPosition;
        GrowOverTime(f.dt);
        if f.distance <= currentAttackRange {
          currentState := Attacking;
        }
      } else {
        agentStopped := true;
        currentState := Watching;
      }
    }

    method WatchingState(dt: real)
      requires Valid(Snapshot(), tuning) && tuning.growthDuration > 0.0 && dt >= 0.0
      modifies this
      ensures Snapshot() == WatchingStep(old(Snapshot()), tuning, dt)
    {
      GrowOverTime(dt);
      if playerInForestArea {
        currentState := Angry;
      }
    }

    method UnlimitedState(f: Frame)
      modifies this
      ensures Snapshot() == UnlimitedStep(old(Snapshot()), f)
    {
      agentStopped := false;
      destination := f.playerPosition;
      if f.distance <= currentAttackRange {
        currentState := Attacking;
      }
    }

    method GrowOverTime(dt: real)
      requires Valid(Snapshot(), tuning) && tuning.growthDuration > 0.0 && dt >= 0.0
      modifies this
      ensures Snapshot() == GrowStep(old(Snapshot()), tuning, dt)
    {
      AdvanceGrowing(dt);
      if growthProgress >= 1.0 && scale == tuning.maxSizeMultiplier {
        currentState := Unlimited;
      }
    }

    method AdvanceGrowing(dt: real)
      requires tuning.growthDuration > 0.0
      modifies this
      ensures Snapshot() == AdvanceGrowth(old(Snapshot()), tuning, dt)
    {
      if growthProgress < 1.0 {
        var progress := growthProgress + dt / tuning.growthDuration;
        growthProgress := progress;
        scale := Lerp(1.0, tuning.maxSizeMultiplier, progress);
        currentChaseSpeed := Lerp(tuning.baseChaseSpeed, tuning.baseChaseSpeed * tuning.maxSizeMultiplier, progress);
        currentAttackRange := 2.5 * tuning.sizeMagnitude * Abs(scale);
      }
    }

    /** One resumption of the SpawnTimer coroutine. */
    method SpawnTimer(dt: real)
      modifies this
      ensures Snapshot() == SpawnTimerStep(old(Snapshot()), dt)
    {
      if currentState == Idle && timeToNextSpawn > 0.0 {
        timeToNextSpawn := timeToNextSpawn - dt;
      }
    }

    method HandlePlayerEnteredForestArea()
      modifies this
      ensures Snapshot() == old(Snapshot()).(playerInForestArea := true)
    {
      playerInForestArea := true;
    }

    method HandlePlayerExitedForestArea()
      modifies this
      ensures Snapshot() == old(Snapshot()).(playerInForestArea := false)
    {
      playerInForestArea := false;
    }

    method TriggerAngryMode()
      modifies this
      ensures Snapshot() == TriggerAngryStep(old(Snapshot()))
    {
      isAngry := true;
      currentState := Angry;
    }
  }
}
