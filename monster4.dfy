/** Monster4.cs: the jumper. It follows the player on the navigation mesh,
    attacks within reach, jumps toward the player once the player is far
    away, freezes in the flashlight's beam (when the player can take the key
    off its tail), and is put back where it started if it falls off the
    world.

    Update is the function `Tick` on a `Jumper`, the value of the fields it
    reads and writes, and the throttled state switch is `StateStep`; the class
    `Monster4` runs the same code statement by statement and is proved to land
    on their answers. Distances, the landing test and the jump physics come in
    with each `Frame`. */
module Monster4 {
  import opened Geometry

  datatype MonsterState = Following | Attacking | Freezing | Idle | Jumping

  /** The state switch runs every 0.1 seconds. */
  const StateUpdateInterval := 0.1

  /** The wait between two jumps. */
  const JumpCooldown := 5.0

  /** Below this height the monster counts as fallen off the world. */
  const FallLimit := -10.0

  /** The inspector-set settings, and the position Start records. */
  datatype Tuning = Tuning(followDistance: real, attackRange: real, freezeDuration: real, originalPosition: Point)

  /** What the scene supplies during one frame: Time.deltaTime, where the
      monster stands as the frame starts, where the player stands and how far
      away, and whether the rigid body's vertical velocity is zero. */
  datatype Frame = Frame(dt: real, position: Point, playerPosition: Point, distance: real, landed: bool)

  /** The monster's fields, with its agent's enabled and stopped flags and
      destination and where it stands after the frame. `jumps` counts the
      jump impulses and `keysTaken` the CollectKey calls. */
  datatype Jumper = Jumper(
    currentState: MonsterState,
    isFrozen: bool,
    freezeTimer: real,
    keyCollected: bool,
    stateUpdateTimer: real,
    jumpCooldownTimer: real,
    isJumping: bool,
    jumpInitiated: bool,
    agentEnabled: bool,
    agentStopped: bool,
    destination: Point,
    position: Point,
    jumps: nat,
    keysTaken: nat)

  /** The key comes off the tail once at most: CollectKey has run exactly when
      the flag is set. */
  predicate KeyOnce(b: Jumper)
  {
    b.keysTaken == (if b.keyCollected then 1 else 0)
  }

  /** FollowState: within follow distance the agent heads for the player and,
      within attack range and unfrozen, the monster attacks; beyond follow
      distance it jumps once the cooldown has run out. */
  function FollowStep(b: Jumper, t: Tuning, f: Frame): (r: Jumper)
    ensures r.currentState == Attacking <==>
      (f.distance <= t.followDistance && f.distance <= t.attackRange && !b.isFrozen) || (b.currentState == Attacking && !(f.distance > t.followDistance && b.jumpCooldownTimer <= 0.0))
    ensures r.currentState == Jumping <==>
      (f.distance > t.followDistance && b.jumpCooldownTimer <= 0.0) || (b.currentState == Jumping && !(f.distance <= t.followDistance && f.distance <= t.attackRange && !b.isFrozen))
    ensures r.destination == (if f.distance <= t.followDistance then f.playerPosition else b.destination)
    ensures r == b.(currentState := r.currentState, destination := r.destination)
  {
    if f.distance <= t.followDistance then
      var b := b.(destination := f.playerPosition);
      if f.distance <= t.attackRange && !b.isFrozen then b.(currentState := Attacking) else b
    else if b.jumpCooldownTimer <= 0.0 then b.(currentState := Jumping)
    else b
  }

  /** AttackState: the attack ends once the player is out of attack range. */
  function AttackStep(b: Jumper, t: Tuning, f: Frame): (r: Jumper)
    ensures r.currentState == (if f.distance > t.attackRange then Following else b.currentState)
    ensures r == b.(currentState := r.currentState)
  {
    if f.distance > t.attackRange then b.(currentState := Following) else b
  }

  /** FreezeState: a frozen monster stops its agent, and a player within
      attack range takes the key if it is still there. */
  function FreezeStep(b: Jumper, t: Tuning, f: Frame): (r: Jumper)
    requires KeyOnce(b)
    ensures KeyOnce(r)
    ensures r.keyCollected == (b.keyCollected || (b.isFrozen && f.distance < t.attackRange))
    ensures b.isFrozen ==> r.agentStopped
    ensures r == b.(agentStopped := r.agentStopped, keyCollected := r.keyCollected, keysTaken := r.keysTaken)
  {
    if b.isFrozen then
      var b := b.(agentStopped := true);
      if !b.keyCollected && f.distance < t.attackRange then b.(keyCollected := true, keysTaken := b.keysTaken + 1)
      else b
    else b
  }

  /** JumpState: a monster not already in the air disables its agent, leaps,
      and restarts the jump cooldown. */
  function JumpStep(b: Jumper): (r: Jumper)
    ensures r.jumps == b.jumps + (if b.isJumping then 0 else 1)
    ensures !b.isJumping ==> r.isJumping && r.jumpInitiated && !r.agentEnabled && r.jumpCooldownTimer == JumpCooldown
    ensures b.isJumping ==> r == b
    ensures r.currentState == b.currentState && r.keyCollected == b.keyCollected && r.keysTaken == b.keysTaken
  {
    if !b.isJumping then
      b.(agentStopped := true, agentEnabled := false, jumps := b.jumps + 1, isJumping := true, jumpInitiated := true,
         jumpCooldownTimer := JumpCooldown)
    else b
  }

  /** UpdateState: the state switch. */
  function StateStep(b: Jumper, t: Tuning, f: Frame): (r: Jumper)
    requires KeyOnce(b)
    ensures KeyOnce(r)
    ensures r.isFrozen == b.isFrozen && r.freezeTimer == b.freezeTimer
    ensures r.stateUpdateTimer == b.stateUpdateTimer
    ensures r.jumps <= b.jumps + 1
  {
    match b.currentState
    case Following => FollowStep(b, t, f)
    case Attacking => AttackStep(b, t, f)
    case Freezing => FreezeStep(b, t, f)
    case Idle => b.(agentStopped := true)
    case Jumping => JumpStep(b)
  }

  /** Unfreeze: the agent moves again and the monster follows. */
  function UnfreezeStep(b: Jumper): (r: Jumper)
    ensures !r.isFrozen && !r.agentStopped && r.currentState == Following
    ensures r == b.(isFrozen := false, agentStopped := false, currentState := Following)
  {
    b.(isFrozen := false, agentStopped := false, currentState := Following)
  }

  /** Freeze, called while the flashlight's beam is on the monster: an unfrozen
      monster freezes for the freeze duration; a frozen one is left alone, so
      the beam does not stretch the freeze. */
  function FreezeEvent(b: Jumper, t: Tuning): (r: Jumper)
    ensures b.isFrozen ==> r == b
    ensures !b.isFrozen ==> r.isFrozen && r.freezeTimer == t.freezeDuration && r.currentState == Freezing
    ensures r == b.(isFrozen := r.isFrozen, freezeTimer := r.freezeTimer, currentState := r.currentState)
  {
    if !b.isFrozen then b.(isFrozen := true, freezeTimer := t.freezeDuration, currentState := Freezing) else b
  }

  /** The countdowns of one Update after the throttled switch: the jump
      cooldown while positive, and the freeze, which ends in Unfreeze. */
  function CountdownStep(b: Jumper, dt: real): (r: Jumper)
    ensures r.jumpCooldownTimer == (if b.jumpCooldownTimer > 0.0 then b.jumpCooldownTimer - dt else b.jumpCooldownTimer)
    ensures b.isFrozen && b.freezeTimer - dt <= 0.0 ==> !r.isFrozen && r.currentState == Following && !r.agentStopped
    ensures b.isFrozen && b.freezeTimer - dt > 0.0 ==> r.isFrozen && r.currentState == b.currentState
    ensures !b.isFrozen ==> !r.isFrozen && r.currentState == b.currentState
    ensures r.keyCollected == b.keyCollected && r.keysTaken == b.keysTaken && r.jumps == b.jumps
    ensures r.isJumping == b.isJumping && r.jumpInitiated == b.jumpInitiated && r.stateUpdateTimer == b.stateUpdateTimer
  {
    var b := if b.jumpCooldownTimer > 0.0 then b.(jumpCooldownTimer := b.jumpCooldownTimer - dt) else b;
    if b.isFrozen then
      var b := b.(freezeTimer := b.freezeTimer - dt);
      if b.freezeTimer <= 0.0 then UnfreezeStep(b) else b
    else b
  }

  /** The end of Update: a landed jump goes back to following with the agent
      on; a fall below y = -10 puts the monster back at its original position,
      following. */
  function LandingStep(b: Jumper, t: Tuning, f: Frame): (r: Jumper)
    ensures b.isJumping && f.landed && b.jumpInitiated ==> !r.isJumping && r.agentEnabled && r.currentState == Following
    ensures f.position.y < FallLimit ==> r.position == t.originalPosition && r.currentState == Following && r.agentEnabled
    ensures f.position.y >= FallLimit ==> r.position == f.position
    ensures !(b.isJumping && f.landed && b.jumpInitiated) && f.position.y >= FallLimit ==>
      r == b.(position := f.position)
    ensures r.keyCollected == b.keyCollected && r.keysTaken == b.keysTaken && r.jumps == b.jumps
    ensures r.isFrozen == b.isFrozen && r.stateUpdateTimer == b.stateUpdateTimer && r.jumpCooldownTimer == b.jumpCooldownTimer
  {
    var b := b.(position := f.position);
    var b := if b.isJumping && f.landed && b.jumpInitiated then b.(isJumping := false, agentEnabled := true, currentState := Following) else b;
    if b.position.y < FallLimit then b.(position := t.originalPosition, agentEnabled := true, currentState := Following) else b
  }

  /** The start of Update: the 0.1-second countdown, which runs the state
      switch and restarts when it runs out. */
  function ThrottleStep(b: Jumper, t: Tuning, f: Frame): (r: Jumper)
    requires KeyOnce(b)
    ensures KeyOnce(r)
    ensures r.stateUpdateTimer == (if b.stateUpdateTimer - f.dt <= 0.0 then StateUpdateInterval else b.stateUpdateTimer - f.dt)
    ensures r.jumps <= b.jumps + (if b.stateUpdateTimer - f.dt <= 0.0 then 1 else 0)
    ensures b.stateUpdateTimer - f.dt > 0.0 ==> r == b.(stateUpdateTimer := b.stateUpdateTimer - f.dt)
    ensures r.isFrozen == b.isFrozen && r.freezeTimer == b.freezeTimer
  {
    var timer := b.stateUpdateTimer - f.dt;
    if timer <= 0.0 then StateStep(b.(stateUpdateTimer := timer), t, f).(stateUpdateTimer := StateUpdateInterval)
    else b.(stateUpdateTimer := timer)
  }

  /** One Update. The state switch runs only when the 0.1-second countdown
      runs out, which then restarts it; the countdowns and the landing and
      fall checks run every frame. */
  function Tick(b: Jumper, t: Tuning, f: Frame): (r: Jumper)
    requires KeyOnce(b)
    ensures KeyOnce(r)
    ensures b.keyCollected ==> r.keyCollected
    ensures r.stateUpdateTimer == (if b.stateUpdateTimer - f.dt <= 0.0 then StateUpdateInterval else b.stateUpdateTimer - f.dt)
    ensures r.jumps <= b.jumps + (if b.stateUpdateTimer - f.dt <= 0.0 then 1 else 0)
    ensures f.position.y < FallLimit ==> r.position == t.originalPosition && r.currentState == Following
  {
    var throttled := ThrottleStep(b, t, f);
    var counted := CountdownStep(throttled, f.dt);
    LandingStep(counted, t, f)
  }

  /** The transitions of the state switch from Following and Attacking. */
  lemma FollowTransitions(b: Jumper, t: Tuning, f: Frame)
    requires KeyOnce(b)
    ensures b.currentState == Following ==>
      && (StateStep(b, t, f).currentState == Attacking <==>
           f.distance <= t.followDistance && f.distance <= t.attackRange && !b.isFrozen)
      && (StateStep(b, t, f).currentState == Jumping <==> f.distance > t.followDistance && b.jumpCooldownTimer <= 0.0)
    ensures b.currentState == Attacking ==> (StateStep(b, t, f).currentState == Following <==> f.distance > t.attackRange)
  {
  }

  /** Frames between two runs of the switch leave the state alone unless a
      countdown, a landing or a fall says otherwise. */
  lemma ThrottledSwitch(b: Jumper, t: Tuning, f: Frame)
    requires KeyOnce(b) && b.stateUpdateTimer - f.dt > 0.0
    requires !b.isFrozen && !(b.isJumping && f.landed && b.jumpInitiated) && f.position.y >= FallLimit
    ensures Tick(b, t, f).currentState == b.currentState && Tick(b, t, f).jumps == b.jumps
    ensures Tick(b, t, f).destination == b.destination
  {
  }

  /** A freeze lasts until its timer runs out and then gives way to following. */
  lemma FreezeThenUnfreeze(b: Jumper, t: Tuning, f: Frame)
    requires KeyOnce(b) && !b.isFrozen && b.stateUpdateTimer - f.dt > 0.0 && f.position.y >= FallLimit
    requires !(b.isJumping && f.landed && b.jumpInitiated)
    ensures FreezeEvent(b, t).currentState == Freezing
    ensures t.freezeDuration - f.dt > 0.0 ==> Tick(FreezeEvent(b, t), t, f).currentState == Freezing
    ensures t.freezeDuration - f.dt <= 0.0 ==> Tick(FreezeEvent(b, t), t, f).currentState == Following
    ensures t.freezeDuration - f.dt <= 0.0 ==> !Tick(FreezeEvent(b, t), t, f).isFrozen
  {
  }

  class Monster4 {
    var currentState: MonsterState
    var isFrozen: bool
    var freezeTimer: real
    var keyCollected: bool
    var stateUpdateTimer: real
    var jumpCooldownTimer: real
    var isJumping: bool
    var jumpInitiated: bool
    var agentEnabled: bool
    var agentStopped: bool
    var destination: Point
    var position: Point
    /** The number of jump impulses and of CollectKey calls. */
    ghost var jumps: nat
    ghost var keysTaken: nat
    const tuning: Tuning

    ghost function Snapshot(): Jumper
      reads this
    {
      Jumper(currentState, isFrozen, freezeTimer, keyCollected, stateUpdateTimer, jumpCooldownTimer, isJumping,
             jumpInitiated, agentEnabled, agentStopped, destination, position, jumps, keysTaken)
    }

    /** The field initialisers and Start: Following from where it stands,
        which becomes the original position. */
    constructor (followDistance: real, attackRange: real, freezeDuration: real, position: Point)
      ensures tuning == Tuning(followDistance, attackRange, freezeDuration, position)
      ensures Snapshot() == Jumper(Following, false, 0.0, false, StateUpdateInterval, 0.0, false, false, true, false,
                                   position, position, 0, 0)
      ensures KeyOnce(Snapshot())
    {
      tuning := Tuning(followDistance, attackRange, freezeDuration, position);
      currentState := Following;
      isFrozen := false;
      freezeTimer := 0.0;
      keyCollected := false;
      stateUpdateTimer := StateUpdateInterval;
      jumpCooldownTimer := 0.0;
      isJumping := false;
      jumpInitiated := false;
      agentEnabled := true;
      agentStopped := false;
      destination := position;
      this.position := position;
      jumps := 0;
      keysTaken := 0;
    }

    method Update(f: Frame)
      requires KeyOnce(Snapshot())
      modifies this
      ensures Snapshot() == Tick(old(Snapshot()), tuning, f)
    {
      Throttle(f);
      Countdowns(f.dt);
      Land(f);
    }

    /** The 0.1-second countdown that throttles the state switch. */
    method Throttle(f: Frame)
      requires KeyOnce(Snapshot())
      modifies this
      ensures Snapshot() == ThrottleStep(old(Snapshot()), tuning, f)
    {
      stateUpdateTimer := stateUpdateTimer - f.dt;
      if stateUpdateTimer <= 0.0 {
        UpdateState(f);
        stateUpdateTimer := StateUpdateInterval;
      }
    }

    /** The landing and fall checks at the end of Update. */
    method Land(f: Frame)
      modifies this
      ensures Snapshot() == LandingStep(old(Snapshot()), tuning, f)
    {
      position := f.position;
      if isJumping && f.landed && jumpInitiated {
        isJumping := false;
        agentEnabled := true;
        currentState := Following;
      }
      if position.y < FallLimit {
        ResetToOriginalPosition();
      }
    }

    /** The jump cooldown and the freeze countdown of Update. */
    method Countdowns(dt: real)
      modifies this
      ensures Snapshot() == CountdownStep(old(Snapshot()), dt)
    {
      if jumpCooldownTimer > 0.0 {
        jumpCooldownTimer := jumpCooldownTimer - dt;
      }
      if isFrozen {
        freezeTimer := freezeTimer - dt;
        if freezeTimer <= 0.0 {
          Unfreeze();
        }
      }
    }

    method UpdateState(f: Frame)
      requires KeyOnce(Snapshot())
      modifies this
      ensures Snapshot() == StateStep(old(Snapshot()), tuning, f)
    {
      match currentState {
      case Following => FollowState(f);
      case Attacking => AttackState(f);
      case Freezing => FreezeState(f);
      case Idle => agentStopped := true;
      case Jumping => JumpState();
      }
    }

    method FollowState(f: Frame)
      modifies this
      ensures Snapshot() == FollowStep(old(Snapshot()), tuning, f)
    {
      if f.distance <= tuning.followDistance {
        destination := f.playerPosition;
        if f.distance <= tuning.attackRange && !isFrozen {
          currentState := Attacking;
        }
      } else {
        if jumpCooldownTimer <= 0.0 {
          currentState := Jumping;
        }
      }
    }

    method AttackState(f: Frame)
      modifies this
      ensures Snapshot() == AttackStep(old(Snapshot()), tuning, f)
    {
      if f.distance > tuning.attackRange {
        currentState := Following;
      }
    }

    method FreezeState(f: Frame)
      requires KeyOnce(Snapshot())
      modifies this
      ensures Snapshot() == FreezeStep(old(Snapshot()), tuning, f)
    {
      if isFrozen {
        agentStopped := true;
        if !keyCollected && f.distance < tuning.attackRange {
          CollectKey();
        }
      }
    }

    method JumpState()
      modifies this
      ensures Snapshot() == JumpStep(old(Snapshot()))
    {
      if !isJumping {
        agentStopped := true;
        agentEnabled := false;
        jumps := jumps + 1;
        isJumping := true;
        jumpInitiated := true;
        jumpCooldownTimer := JumpCooldown;
      }
    }

    method Freeze()
      modifies this
      ensures Snapshot() == FreezeEvent(old(Snapshot()), tuning)
    {
      if !isFrozen {
        isFrozen := true;
        freezeTimer := tuning.freezeDuration;
        currentState := Freezing;
      }
    }

    method Unfreeze()
      modifies this
      ensures Snapshot() == UnfreezeStep(old(Snapshot()))
    {
      isFrozen := false;
      agentStopped := false;
      currentState := Following;
    }

    method CollectKey()
      modifies this
      ensures Snapshot() == old(Snapshot()).(keyCollected := true, keysTaken := old(keysTaken) + 1)
    {
      keyCollected := true;
      keysTaken := keysTaken + 1;
    }

    method ResetToOriginalPosition()
      modifies this
      ensures Snapshot() == old(Snapshot()).(position := tuning.originalPosition, agentEnabled := true, currentState := Following)
    {
      position := tuning.originalPosition;
      agentEnabled := true;
      currentState := Following;
    }
  }
}
