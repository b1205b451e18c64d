/** PlayerMovement.cs: the player's first-person controller. Each frame it
    counts down the jump cooldown, applies gravity, tracks the ground, turns
    the head within a fixed pitch range, drains energy while sprinting and
    recovers it after a delay, toggles crouching, jumps, counts footsteps
    (announcing each to the monsters that listen), and dies when health is
    gone. Damage comes from outside through ApplyDamage.

    Update is the function `Tick` on a `Player`, the value of the fields it
    reads and writes, composed of one step function per Update method; the
    class `PlayerMovement` runs the same code statement by statement and is
    proved to land on their answers. Input, the pause flag and what the
    CharacterController reports after moving come in with each `Frame`. */
module Player {
  import Common

  /** The speed that keeps a grounded player pressed to the ground. */
  const GroundedVelocity := -2.0
  const Gravity := -20.0
  /** The energy a jump costs, and the wait between two jumps. */
  const JumpCost := 10.0
  const JumpCooldownTime := 1.0
  /** The footstep interval while crouching. */
  const CrouchStepInterval := 15.0
  /** The speed above which the player counts as moving. */
  const MovingThreshold := 0.1
  const MaxHealth := 100.0
  const MaxPitch := 90.0

  /** The inspector-set settings. `jumpVelocity` is the launch speed
      Mathf.Sqrt(jumpHeight * -2 * gravity). */
  datatype Tuning = Tuning(
    walkSpeed: real,
    sprintSpeed: real,
    crouchSpeed: real,
    backwardsSpeed: real,
    maxEnergy: real,
    energySprintDrain: real,
    energyRecoveryRate: real,
    energyRecoveryDelay: real,
    mouseSensitivity: real,
    stepInterval: real,
    jumpVelocity: real)

  predicate TuningSane(t: Tuning)
  {
    t.maxEnergy >= 0.0 && t.energySprintDrain >= 0.0
  }

  /** What one frame supplies: Time.deltaTime, the pause flag, the vertical
      input axis, the keys (left shift held, jump and left control pressed
      this frame), the vertical mouse axis, and what the CharacterController
      reports after the move: grounded or not, and its speed. */
  datatype Frame = Frame(
    dt: real,
    paused: bool,
    vertical: real,
    shift: bool,
    jumpPressed: bool,
    crouchPressed: bool,
    mouseY: real,
    groundedAfterMove: bool,
    speedMagnitude: real)

  predicate FrameSane(f: Frame)
  {
    f.dt >= 0.0 && f.speedMagnitude >= 0.0
  }

  /** The player's fields, with Time.timeScale; `footsteps`, `jumps` and
      `landings` count OnFootstep invocations, jumps and landing sounds. */
  datatype Player = Player(
    health: real,
    isDead: bool,
    currentEnergy: real,
    energyRecoveryTimer: real,
    jumpCooldownTimer: real,
    velocityY: real,
    isGrounded: bool,
    wasGrounded: bool,
    xRotation: real,
    isCrouching: bool,
    stepCycle: real,
    timeScale: real,
    footsteps: nat,
    jumps: nat,
    landings: nat)

  /** The invariant of the player: pitch within [-90, 90], health within
      [0, 100], energy never above the maximum, a non-negative step cycle,
      and a dead player's world frozen. */
  predicate Valid(p: Player, t: Tuning)
  {
    && -MaxPitch <= p.xRotation <= MaxPitch
    && 0.0 <= p.health <= MaxHealth
    && p.currentEnergy <= t.maxEnergy
    && p.stepCycle >= 0.0
    && (p.isDead ==> p.timeScale == 0.0)
  }

  /** The fields after their initialisers and Start. */
  function Started(t: Tuning): (r: Player)
    requires TuningSane(t)
    ensures Valid(r, t) && !r.isDead && r.health == MaxHealth && r.currentEnergy == t.maxEnergy
  {
    Player(MaxHealth, false, t.maxEnergy, 0.0, 0.0, 0.0, false, true, 0.0, false, 0.0, 1.0, 0, 0, 0)
  }

  /** The speed UpdateMovement hands to the controller: backwards beats
      sprinting, which needs energy and an upright player, which beats
      crouching. */
  function MoveSpeed(p: Player, t: Tuning, f: Frame): (r: real)
    ensures f.vertical < 0.0 ==> r == t.backwardsSpeed
    ensures f.vertical >= 0.0 && p.isCrouching ==> r == t.crouchSpeed
    ensures f.vertical >= 0.0 && !p.isCrouching ==>
      r == (if f.shift && p.currentEnergy > 0.0 then t.sprintSpeed else t.walkSpeed)
  {
    if f.vertical < 0.0 then t.backwardsSpeed
    else if f.shift && p.currentEnergy > 0.0 && !p.isCrouching then t.sprintSpeed
    else if p.isCrouching then t.crouchSpeed
    else t.walkSpeed
  }

  /** The vertical part of UpdateMovement: a grounded, falling player is
      held at -2, gravity acts, and the controller reports the ground. */
  function MovementStep(p: Player, f: Frame): (r: Player)
    ensures r.velocityY == (if p.isGrounded && p.velocityY < 0.0 then GroundedVelocity else p.velocityY) + Gravity * f.dt
    ensures r == p.(velocityY := r.velocityY, isGrounded := f.groundedAfterMove)
  {
    var vy := if p.isGrounded && p.velocityY < 0.0 then GroundedVelocity else p.velocityY;
    p.(velocityY := vy + Gravity * f.dt, isGrounded := f.groundedAfterMove)
  }

  /** UpdateGroundDetection: a landing plays its sound, and the ground state
      is remembered. */
  function GroundStep(p: Player): (r: Player)
    ensures r.landings == p.landings + (if !p.wasGrounded && p.isGrounded then 1 else 0)
    ensures r.wasGrounded == p.isGrounded
    ensures r == p.(landings := r.landings, wasGrounded := r.wasGrounded)
  {
    var landed := !p.wasGrounded && p.isGrounded;
    p.(landings := if landed then p.landings + 1 else p.landings, wasGrounded := p.isGrounded)
  }

  /** UpdateMouseLook: the pitch follows the mouse, clamped to [-90, 90]. */
  function LookStep(p: Player, t: Tuning, f: Frame): (r: Player)
    ensures -MaxPitch <= r.xRotation <= MaxPitch
    ensures var pitch := p.xRotation - f.mouseY * t.mouseSensitivity * f.dt;
      && (-MaxPitch <= pitch <= MaxPitch ==> r.xRotation == pitch)
      && (pitch < -MaxPitch ==> r.xRotation == -MaxPitch)
      && (MaxPitch < pitch ==> r.xRotation == MaxPitch)
    ensures r == p.(xRotation := r.xRotation)
  {
    p.(xRotation := Common.Clamp(p.xRotation - f.mouseY * t.mouseSensitivity * f.dt, -MaxPitch, MaxPitch))
  }

  /** Sprinting: shift held, moving forward, energy left and standing. */
  predicate Sprinting(p: Player, f: Frame)
  {
    f.shift && f.vertical > 0.0 && p.currentEnergy > 0.0 && !p.isCrouching
  }

  /** UpdateSprint: sprinting drains energy, without a floor, and restarts
      the recovery delay; otherwise the delay runs down. */
  function SprintStep(p: Player, t: Tuning, f: Frame): (r: Player)
    requires TuningSane(t) && FrameSane(f)
    ensures r.currentEnergy <= p.currentEnergy
    ensures Sprinting(p, f) ==> r.currentEnergy == p.currentEnergy - t.energySprintDrain * f.dt
    ensures Sprinting(p, f) ==> r.energyRecoveryTimer == t.energyRecoveryDelay
    ensures !Sprinting(p, f) ==> r == p.(energyRecoveryTimer := p.energyRecoveryTimer - f.dt)
    ensures r == p.(currentEnergy := r.currentEnergy, energyRecoveryTimer := r.energyRecoveryTimer)
  {
    if Sprinting(p, f) then
      p.(currentEnergy := p.currentEnergy - t.energySprintDrain * f.dt, energyRecoveryTimer := t.energyRecoveryDelay)
    else p.(energyRecoveryTimer := p.energyRecoveryTimer - f.dt)
  }

  /** UpdateCrouch: left control toggles crouching. */
  function CrouchStep(p: Player, f: Frame): (r: Player)
    ensures r.isCrouching == (p.isCrouching != f.crouchPressed)
    ensures r == p.(isCrouching := r.isCrouching)
  {
    if f.crouchPressed then p.(isCrouching := !p.isCrouching) else p
  }

  /** UpdateJump: a jump needs the button, the ground and an expired
      cooldown; it launches the player, costs energy without a floor, and
      restarts the cooldown. */
  function JumpStep(p: Player, t: Tuning, f: Frame): (r: Player)
    ensures r.jumps == p.jumps + (if f.jumpPressed && p.isGrounded && p.jumpCooldownTimer <= 0.0 then 1 else 0)
    ensures r.jumps > p.jumps ==>
      r.velocityY == t.jumpVelocity && r.currentEnergy == p.currentEnergy - JumpCost && r.jumpCooldownTimer == JumpCooldownTime
    ensures r.jumps == p.jumps ==> r == p
    ensures r == p.(velocityY := r.velocityY, currentEnergy := r.currentEnergy, jumpCooldownTimer := r.jumpCooldownTimer,
                    jumps := r.jumps)
  {
    if f.jumpPressed && p.isGrounded && p.jumpCooldownTimer <= 0.0 then
      p.(velocityY := t.jumpVelocity, currentEnergy := p.currentEnergy - JumpCost, jumpCooldownTimer := JumpCooldownTime,
         jumps := p.jumps + 1)
    else p
  }

  /** UpdateEnergy: energy recovers only with shift released and the delay
      over, and the recovered value is clamped to [0, maxEnergy]. */
  function EnergyStep(p: Player, t: Tuning, f: Frame): (r: Player)
    requires TuningSane(t)
    ensures !(!f.shift && p.energyRecoveryTimer <= 0.0) ==> r == p
    ensures !f.shift && p.energyRecoveryTimer <= 0.0 ==> 0.0 <= r.currentEnergy <= t.maxEnergy
    ensures var recovered := p.currentEnergy + t.energyRecoveryRate * f.dt;
      && (!f.shift && p.energyRecoveryTimer <= 0.0 && 0.0 <= recovered <= t.maxEnergy ==> r.currentEnergy == recovered)
      && (!f.shift && p.energyRecoveryTimer <= 0.0 && t.maxEnergy < recovered ==> r.currentEnergy == t.maxEnergy)
      && (!f.shift && p.energyRecoveryTimer <= 0.0 && recovered < 0.0 ==> r.currentEnergy == 0.0)
    ensures r == p.(currentEnergy := r.currentEnergy)
  {
    if !f.shift && p.energyRecoveryTimer <= 0.0 then
      p.(currentEnergy := Common.Clamp(p.currentEnergy + t.energyRecoveryRate * f.dt, 0.0, t.maxEnergy))
    else p
  }

  /** The footstep interval: slower while crouching. */
  function StepInterval(p: Player, t: Tuning): real
  {
    if p.isCrouching then CrouchStepInterval else t.stepInterval
  }

  /** UpdateFootsteps: while moving on the ground the cycle advances with the
      speed; a full interval announces a footstep and restarts the cycle.
      Standing still or in the air restarts it too. */
  function FootstepStep(p: Player, t: Tuning, f: Frame): (r: Player)
    requires FrameSane(f) && p.stepCycle >= 0.0
    ensures r.stepCycle >= 0.0
    ensures r.footsteps <= p.footsteps + 1
    ensures r.footsteps > p.footsteps ==> r.stepCycle == 0.0
    ensures StepInterval(p, t) > 0.0 ==> r.stepCycle < StepInterval(p, t)
    ensures !(f.speedMagnitude > MovingThreshold && p.isGrounded) ==> r == p.(stepCycle := 0.0)
    ensures f.speedMagnitude > MovingThreshold && p.isGrounded ==>
      var cycle := p.stepCycle + f.dt * (f.speedMagnitude + if p.isCrouching then 0.5 else 1.0);
      && (r.footsteps > p.footsteps <==> cycle >= StepInterval(p, t))
      && (cycle < StepInterval(p, t) ==> r.stepCycle == cycle)
    ensures r == p.(stepCycle := r.stepCycle, footsteps := r.footsteps)
  {
    if f.speedMagnitude > MovingThreshold && p.isGrounded then
      var gain := f.speedMagnitude + if p.isCrouching then 0.5 else 1.0;
      var cycle := p.stepCycle + f.dt * gain;
      if cycle >= StepInterval(p, t) then p.(stepCycle := 0.0, footsteps := p.footsteps + 1)
      else p.(stepCycle := cycle)
    else p.(stepCycle := 0.0)
  }

  /** Die: the first call marks the player dead and freezes the world; later
      calls change nothing. */
  function DieStep(p: Player): (r: Player)
    ensures r.isDead
    ensures !p.isDead ==> r.timeScale == 0.0
    ensures p.isDead ==> r == p
    ensures r == p.(isDead := true, timeScale := r.timeScale)
  {
    if p.isDead then p else p.(isDead := true, timeScale := 0.0)
  }

  /** ApplyDamage: health drops by the damage and is clamped to [0, 100];
      it is not guarded by the death flag. */
  function DamageStep(p: Player, damage: real): (r: Player)
    ensures 0.0 <= r.health <= MaxHealth
    ensures 0.0 <= p.health - damage <= MaxHealth ==> r.health == p.health - damage
    ensures p.health - damage < 0.0 ==> r.health == 0.0
    ensures MaxHealth < p.health - damage ==> r.health == MaxHealth
    ensures r == p.(health := r.health)
  {
    p.(health := Common.Clamp(p.health - damage, 0.0, MaxHealth))
  }

  /** The first half of Update: the jump cooldown, movement, the ground and
      the head. */
  function BeginStep(p: Player, t: Tuning, f: Frame): (r: Player)
    requires Valid(p, t)
    ensures Valid(r, t)
    ensures r.currentEnergy == p.currentEnergy && r.isCrouching == p.isCrouching && r.jumps == p.jumps
    ensures r.energyRecoveryTimer == p.energyRecoveryTimer && r.footsteps == p.footsteps
    ensures r.jumpCooldownTimer == if p.jumpCooldownTimer > 0.0 then p.jumpCooldownTimer - f.dt else p.jumpCooldownTimer
  {
    var p := if p.jumpCooldownTimer > 0.0 then p.(jumpCooldownTimer := p.jumpCooldownTimer - f.dt) else p;
    LookStep(GroundStep(MovementStep(p, f)), t, f)
  }

  /** The second half of Update: sprint, crouch, jump, energy, footsteps, and
      the death check. */
  function EndStep(p: Player, t: Tuning, f: Frame): (r: Player)
    requires Valid(p, t) && TuningSane(t) && FrameSane(f)
    ensures Valid(r, t)
    ensures r.health == p.health && r.jumps <= p.jumps + 1 && r.footsteps <= p.footsteps + 1
    ensures r.health <= 0.0 ==> r.isDead
  {
    var p1 := SprintStep(p, t, f);
    var p2 := JumpStep(CrouchStep(p1, f), t, f);
    var p3 := FootstepStep(EnergyStep(p2, t, f), t, f);
    if p3.health <= 0.0 then DieStep(p3) else p3
  }

  /** One Update: nothing happens while the player is dead or the game is
      paused. */
  function Tick(p: Player, t: Tuning, f: Frame): (r: Player)
    requires Valid(p, t) && TuningSane(t) && FrameSane(f)
    ensures Valid(r, t)
    ensures p.isDead || f.paused ==> r == p
    ensures r.health == p.health
    ensures !f.paused && p.health <= 0.0 ==> r.isDead
    ensures r.jumps <= p.jumps + 1 && r.footsteps <= p.footsteps + 1
  {
    if p.isDead || f.paused then p else EndStep(BeginStep(p, t, f), t, f)
  }

  /** Die twice is Die once. */
  lemma DieIdempotent(p: Player)
    ensures DieStep(DieStep(p)) == DieStep(p)
  {
  }

  /** Frames change nothing about a dead player, however many there are. */
  lemma {:induction false} DeadStaysDead(p: Player, t: Tuning, frames: seq<Frame>)
    requires Valid(p, t) && TuningSane(t) && p.isDead
    requires forall i :: 0 <= i < |frames| ==> FrameSane(frames[i])
    ensures Frames(p, t, frames) == p
    decreases |frames|
  {
    if frames != [] {
      DeadStaysDead(Tick(p, t, frames[0]), t, frames[1..]);
    }
  }

  function Frames(p: Player, t: Tuning, frames: seq<Frame>): Player
    requires Valid(p, t) && TuningSane(t)
    requires forall i :: 0 <= i < |frames| ==> FrameSane(frames[i])
    decreases |frames|
  {
    if frames == [] then p else Frames(Tick(p, t, frames[0]), t, frames[1..])
  }

  /** Damage that takes all the health kills the player on the next frame
      that is not paused. */
  lemma LethalDamageKills(p: Player, t: Tuning, damage: real, f: Frame)
    requires Valid(p, t) && TuningSane(t) && FrameSane(f) && !f.paused
    requires damage >= p.health
    ensures Tick(DamageStep(p, damage), t, f).isDead
  {
  }

  /** The jump cost is not floored: a grounded player with 5 energy who
      jumps, with shift held and no time passing, ends the frame at -5. */
  lemma EnergyCanGoNegative(t: Tuning)
    requires TuningSane(t) && t.maxEnergy >= 5.0
    ensures var p := Started(t).(currentEnergy := 5.0, isGrounded := true);
      var f := Frame(0.0, false, 0.0, true, true, false, 0.0, true, 0.0);
      Tick(p, t, f).currentEnergy == -5.0
  {
  }

  /** The sprint drain is not floored either: a player with 1 energy who
      sprints forward for 0.1 seconds at a drain of 20 per second ends the
      frame at -1. */
  lemma SprintCanGoNegative(t: Tuning)
    requires TuningSane(t) && t.maxEnergy >= 1.0 && t.energySprintDrain == 20.0
    ensures var p := Started(t).(currentEnergy := 1.0);
      var f := Frame(0.1, false, 1.0, true, false, false, 0.0, true, 0.0);
      Tick(p, t, f).currentEnergy == -1.0
  {
  }

  /** A frame that starts with more cooldown left than it lasts cannot jump:
      after a jump, the next jump waits until the cooldown has counted down. */
  lemma CooldownBlocksJump(p: Player, t: Tuning, f: Frame)
    requires Valid(p, t) && TuningSane(t) && FrameSane(f)
    requires p.jumpCooldownTimer > f.dt
    ensures Tick(p, t, f).jumps == p.jumps
  {
  }

  class PlayerMovement {
    var health: real
    var isDead: bool
    var currentEnergy: real
    var energyRecoveryTimer: real
    var jumpCooldownTimer: real
    var velocityY: real
    var isGrounded: bool
    var wasGrounded: bool
    var xRotation: real
    var isCrouching: bool
    var stepCycle: real
    var timeScale: real
    /** OnFootstep invocations, jumps and landing sounds. */
    ghost var footsteps: nat
    ghost var jumps: nat
    ghost var landings: nat
    const tuning: Tuning

    ghost function Snapshot(): Player
      reads this
    {
      Player(health, isDead, currentEnergy, energyRecoveryTimer, jumpCooldownTimer, velocityY, isGrounded, wasGrounded,
             xRotation, isCrouching, stepCycle, timeScale, footsteps, jumps, landings)
    }

    /** The field initialisers and Start. */
    constructor (tuning: Tuning)
      requires TuningSane(tuning)
      ensures this.tuning == tuning && Snapshot() == Started(tuning)
    {
      this.tuning := tuning;
      health := MaxHealth;
      isDead := false;
      currentEnergy := tuning.maxEnergy;
      energyRecoveryTimer := 0.0;
      jumpCooldownTimer := 0.0;
      velocityY := 0.0;
      isGrounded := false;
      wasGrounded := true;
      xRotation := 0.0;
      isCrouching := false;
      stepCycle := 0.0;
      timeScale := 1.0;
      footsteps := 0;
      jumps := 0;
      landings := 0;
    }

    method Update(f: Frame)
      requires Valid(Snapshot(), tuning) && TuningSane(tuning) && FrameSane(f)
      modifies this
      ensures Snapshot() == Tick(old(Snapshot()), tuning, f)
    {
      if isDead || f.paused {
        return;
      }
      BeginFrame(f);
      EndFrame(f);
    }

    /** The first half of Update: the jump cooldown, movement, the ground and
        the head. */
    method BeginFrame(f: Frame)
      requires Valid(Snapshot(), tuning)
      modifies this
      ensures Snapshot() == BeginStep(old(Snapshot()), tuning, f)
    {
      if jumpCooldownTimer > 0.0 {
        jumpCooldownTimer := jumpCooldownTimer - f.dt;
      }
      var _ := UpdateMovement(f);
      UpdateGroundDetection();
      UpdateMouseLook(f);
    }

    /** The second half of Update, down to the death check. */
    method EndFrame(f: Frame)
      requires Valid(Snapshot(), tuning) && TuningSane(tuning) && FrameSane(f)
      modifies this
      ensures Snapshot() == EndStep(old(Snapshot()), tuning, f)
    {
      UpdateSprint(f);
      UpdateCrouch(f);
      UpdateJump(f);
      UpdateEnergy(f);
      UpdateFootsteps(f);
      if health <= 0.0 {
        Die();
      }
    }

    /** UpdateMovement; `speed` is the horizontal speed handed to the
        controller. */
    method UpdateMovement(f: Frame) returns (speed: real)
      modifies this
      ensures speed == MoveSpeed(old(Snapshot()), tuning, f)
      ensures Snapshot() == MovementStep(old(Snapshot()), f)
    {
      speed := tuning.walkSpeed;
      if f.vertical < 0.0 {
        speed := tuning.backwardsSpeed;
      } else if f.shift && currentEnergy > 0.0 && !isCrouching {
        speed := tuning.sprintSpeed;
      } else if isCrouching {
        speed := tuning.crouchSpeed;
      }
      if isGrounded && velocityY < 0.0 {
        velocityY := GroundedVelocity;
      }
      velocityY := velocityY + Gravity * f.dt;
      isGrounded := f.groundedAfterMove;
    }

    method UpdateGroundDetection()
      modifies this
      ensures Snapshot() == GroundStep(old(Snapshot()))
    {
      if !wasGrounded && isGrounded {
        landings := landings + 1;
      }
      wasGrounded := isGrounded;
    }

    method UpdateMouseLook(f: Frame)
      modifies this
      ensures Snapshot() == LookStep(old(Snapshot()), tuning, f)
    {
      var mouseY := f.mouseY * tuning.mouseSensitivity * f.dt;
      xRotation := xRotation - mouseY;
      xRotation := Common.Clamp(xRotation, -MaxPitch, MaxPitch);
    }

    method UpdateSprint(f: Frame)
      requires TuningSane(tuning) && FrameSane(f)
      modifies this
      ensures Snapshot() == SprintStep(old(Snapshot()), tuning, f)
    {
      if f.shift && f.vertical > 0.0 && currentEnergy > 0.0 && !isCrouching {
        currentEnergy := currentEnergy - tuning.energySprintDrain * f.dt;
        energyRecoveryTimer := tuning.energyRecoveryDelay;
      } else {
        energyRecoveryTimer := energyRecoveryTimer - f.dt;
      }
    }

    method UpdateCrouch(f: Frame)
      modifies this
      ensures Snapshot() == CrouchStep(old(Snapshot()), f)
    {
      if f.crouchPressed {
        isCrouching := !isCrouching;
      }
    }

    method UpdateJump(f: Frame)
      modifies this
      ensures Snapshot() == JumpStep(old(Snapshot()), tuning, f)
    {
      if f.jumpPressed && isGrounded && jumpCooldownTimer <= 0.0 {
        velocityY := tuning.jumpVelocity;
        currentEnergy := currentEnergy - JumpCost;
        jumpCooldownTimer := JumpCooldownTime;
        jumps := jumps + 1;
      }
    }

    method UpdateEnergy(f: Frame)
      requires TuningSane(tuning)
      modifies this
      ensures Snapshot() == EnergyStep(old(Snapshot()), tuning, f)
    {
      if !f.shift && energyRecoveryTimer <= 0.0 {
        currentEnergy := currentEnergy + tuning.energyRecoveryRate * f.dt;
        currentEnergy := Common.Clamp(currentEnergy, 0.0, tuning.maxEnergy);
      }
    }

    method UpdateFootsteps(f: Frame)
      requires FrameSane(f) && stepCycle >= 0.0
      modifies this
      ensures Snapshot() == FootstepStep(old(Snapshot()), tuning, f)
    {
      var currentStepInterval := if isCrouching then CrouchStepInterval else tuning.stepInterval;
      if f.speedMagnitude > MovingThreshold && isGrounded {
        stepCycle := stepCycle + f.dt * (f.speedMagnitude + if isCrouching then 0.5 else 1.0);
        if stepCycle >= currentStepInterval {
          footsteps := footsteps + 1;
          stepCycle := 0.0;
        }
      } else {
        stepCycle := 0.0;
      }
    }

    method ApplyDamage(damage: real)
      modifies this
      ensures Snapshot() == DamageStep(old(Snapshot()), damage)
    {
      health := health - damage;
      health := Common.Clamp(health, 0.0, MaxHealth);
    }

    method Die()
      modifies this
      ensures Snapshot() == DieStep(old(Snapshot()))
    {
      if isDead {
        return;
      }
      isDead := true;
      timeScale := 0.0;
    }
  }
}
