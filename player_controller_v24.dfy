/** PlayerController2D v2.4 (Assets/Scripts/Player/PlayerController2d.cs): the
    player's movement and combat state machine. Physics queries, key presses and
    the clock are inputs of one Update (a Frame); timers count integer ticks; the
    coroutines Dash, FreezeDuringSlice, EndAirSlice, EndSlashAfterTime,
    ComboDashThenSlash, ExecuteSliceAfterCooldown, RecoverFromDamage and Die are
    split into the part that runs when they are started and an event for each
    point where they resume. */
module PlayerControllerV24 {
  import opened Common

  /** Inspector tuning; every time is a number of ticks. */
  datatype Tuning = Tuning(
    extraJumps: int,
    coyoteTime: int,
    jumpBufferTime: int,
    dashCooldown: int,
    wallJumpTime: int,
    sliceCooldown: int,
    slashCooldown: int)

  /** What one Update reads from the engine: elapsed ticks (Time.deltaTime),
      the clock (Time.time), the input axis and buttons pressed this frame, the
      OverlapBox results and the sign of the vertical velocity. */
  datatype Frame = Frame(
    dt: nat,
    now: int,
    moveX: int,
    jumpPressed: bool,
    dashPressed: bool,
    attackPressed: bool,
    groundedNow: bool,
    onWall: bool,
    onBarrier: bool,
    falling: bool,  // linearVelocity.y < 0
    rising: bool)   // linearVelocity.y > 0.1

  /** The controller's fields, grouped by concern. */
  datatype Vitals = Vitals(
    maxHealth: int, currentHealth: int, isDead: bool, isTakingDamage: bool, coinsCollected: int, enabled: bool)
  datatype Pose = Pose(
    isFacingRight: bool, moveX: int, isGrounded: bool, lastOnGroundTime: int, jumpBufferCounter: int)
  datatype Jumping = Jumping(
    isJumping: bool, isWallSliding: bool, isWallJumping: bool, wallJumpCounter: int, jumpsLeft: int)
  datatype Dashing = Dashing(
    isDashing: bool, isComboDashing: bool, isDashCoroutineActive: bool, lastDashTime: int, hasDashedInAir: bool)
  datatype Combat = Combat(
    lastSliceTime: int, lastSlashTime: int, isSliceFrozen: bool, isSlashActive: bool,
    queuedSlashAfterSlice: bool, queuedSliceAfterSlash: bool, isPerformingSlice: bool, isPerformingSlash: bool)
  datatype Player = Player(life: Vitals, pose: Pose, jump: Jumping, dash: Dashing, fight: Combat)

  /** The state after the field initialisers and Awake. */
  function Awoken(t: Tuning, maxHealth: int): (p: Player)
    ensures p.life.currentHealth == p.life.maxHealth == maxHealth
    ensures p.jump.jumpsLeft == t.extraJumps
    ensures !p.life.isDead && !p.life.isTakingDamage && p.life.enabled && p.pose.isFacingRight
  {
    Player(Vitals(maxHealth, maxHealth, false, false, 0, true),
           Pose(true, 0, false, 0, 0),
           Jumping(false, false, false, 0, t.extraJumps),
           Dashing(false, false, false, 0, false),
           Combat(0, 0, false, false, false, false, false, false))
  }

  predicate Attacking(c: Combat, d: Dashing) {
    c.isSliceFrozen || c.isSlashActive || d.isComboDashing || c.isPerformingSlice || c.isPerformingSlash
  }

  predicate IsAttacking(p: Player) {
    Attacking(p.fight, p.dash)
  }

  // ---------------------------------------------------------------- timers

  function TimersStep(p: Player, f: Frame): (r: Player)
    ensures r.pose.lastOnGroundTime == p.pose.lastOnGroundTime - f.dt
    ensures r.pose.jumpBufferCounter == p.pose.jumpBufferCounter - f.dt
    ensures r.jump.wallJumpCounter == if p.jump.isWallJumping then p.jump.wallJumpCounter - f.dt else p.jump.wallJumpCounter
    ensures r.life == p.life && r.dash == p.dash && r.fight == p.fight
    ensures r.pose.isGrounded == p.pose.isGrounded && r.jump.jumpsLeft == p.jump.jumpsLeft
  {
    p.(pose := p.pose.(lastOnGroundTime := p.pose.lastOnGroundTime - f.dt,
                       jumpBufferCounter := p.pose.jumpBufferCounter - f.dt),
       jump := p.jump.(wallJumpCounter := if p.jump.isWallJumping then p.jump.wallJumpCounter - f.dt
                                          else p.jump.wallJumpCounter))
  }

  // ---------------------------------------------------------------- dash

  /** The guard before either dash branch in ReadInput. */
  predicate DashGate(p: Player, t: Tuning, f: Frame) {
    f.dashPressed && f.now >= p.dash.lastDashTime + t.dashCooldown
    && !p.dash.isDashCoroutineActive && !p.jump.isWallSliding && !IsAttacking(p)
  }

  /** A dash starts: on the ground whenever the gate is open, in the air only
      while the air dash is still armed. */
  predicate DashStarts(p: Player, t: Tuning, f: Frame) {
    DashGate(p, t, f) && (p.pose.isGrounded || !p.dash.hasDashedInAir)
  }

  /** The part of the Dash coroutine that runs before its first wait. */
  function DashBegun(d: Dashing, now: int): (r: Dashing)
    requires !d.isDashCoroutineActive
    ensures r.isDashing && r.isDashCoroutineActive && r.lastDashTime == now
    ensures r.hasDashedInAir == d.hasDashedInAir && r.isComboDashing == d.isComboDashing
  {
    d.(isDashCoroutineActive := true, lastDashTime := now, isDashing := true)
  }

  /** The Dash coroutine resumes after dashDuration. */
  function DashEnded(p: Player): (r: Player)
    ensures !r.dash.isDashing && !r.dash.isDashCoroutineActive
    ensures r.(dash := p.dash) == p
  {
    p.(dash := p.dash.(isDashing := false, isDashCoroutineActive := false))
  }

  function InputStep(p: Player, t: Tuning, f: Frame): (r: Player)
    ensures r.pose.moveX == f.moveX
    ensures r.pose.jumpBufferCounter == if f.jumpPressed then t.jumpBufferTime else p.pose.jumpBufferCounter
    ensures DashStarts(p, t, f) ==> r.dash.isDashing && r.dash.isDashCoroutineActive && r.dash.lastDashTime == f.now
    ensures DashStarts(p, t, f) && !p.pose.isGrounded ==> r.dash.hasDashedInAir
    ensures !DashStarts(p, t, f) || p.pose.isGrounded ==> r.dash.hasDashedInAir == p.dash.hasDashedInAir
    ensures !DashStarts(p, t, f) ==> r.dash == p.dash
    ensures r.life == p.life && r.jump == p.jump && r.fight == p.fight
    ensures r.pose.isGrounded == p.pose.isGrounded && r.dash.isComboDashing == p.dash.isComboDashing
  {
    var p1 := p.(pose := p.pose.(moveX := f.moveX,
                                 jumpBufferCounter := if f.jumpPressed then t.jumpBufferTime
                                                      else p.pose.jumpBufferCounter));
    if DashStarts(p, t, f) then
      var d := DashBegun(p.dash, f.now);
      p1.(dash := if p.pose.isGrounded then d else d.(hasDashedInAir := true))
    else
      p1
  }

  // ---------------------------------------------------------------- collisions

  function CollisionStep(p: Player, t: Tuning, f: Frame): (r: Player)
    ensures r.pose.isGrounded == f.groundedNow
    ensures f.groundedNow ==> r.jump.jumpsLeft == t.extraJumps && r.pose.lastOnGroundTime == t.coyoteTime
    ensures !f.groundedNow ==> r.jump.jumpsLeft == p.jump.jumpsLeft && r.pose.lastOnGroundTime == p.pose.lastOnGroundTime
    ensures f.groundedNow && !p.pose.isGrounded ==> !r.dash.hasDashedInAir
    ensures !(f.groundedNow && !p.pose.isGrounded) ==> r.dash == p.dash
    ensures r.jump.isWallSliding <==> (f.onWall || f.onBarrier) && !f.groundedNow && f.falling && !p.jump.isWallJumping
    ensures r.jump.isWallSliding ==> !r.pose.isGrounded
    ensures r.life == p.life && r.fight == p.fight && r.dash.isDashing == p.dash.isDashing
    ensures r.dash.isComboDashing == p.dash.isComboDashing
    ensures r.pose.jumpBufferCounter == p.pose.jumpBufferCounter && r.jump.isWallJumping == p.jump.isWallJumping
  {
    p.(dash := if f.groundedNow && !p.pose.isGrounded then p.dash.(hasDashedInAir := false) else p.dash,
       pose := p.pose.(lastOnGroundTime := if f.groundedNow then t.coyoteTime else p.pose.lastOnGroundTime,
                       isGrounded := f.groundedNow),
       jump := p.jump.(jumpsLeft := if f.groundedNow then t.extraJumps else p.jump.jumpsLeft,
                       isWallSliding := (f.onWall || f.onBarrier) && !f.groundedNow && f.falling
                                        && !p.jump.isWallJumping))
  }

  // ---------------------------------------------------------------- jumps

  datatype JumpKind = NoJump | GroundJump | WallJump | DoubleJump

  /** Which jump a buffered press performs: coyote/ground, then wall, then double. */
  function JumpChoice(p: Player, f: Frame): (k: JumpKind)
    ensures k != NoJump ==> p.pose.jumpBufferCounter > 0
    ensures k == GroundJump <==> p.pose.jumpBufferCounter > 0 && p.pose.lastOnGroundTime > 0
    ensures k == WallJump ==> p.pose.lastOnGroundTime <= 0 && p.jump.isWallSliding && f.onWall
    ensures k == DoubleJump ==> p.jump.jumpsLeft > 0 && !f.onBarrier && p.pose.lastOnGroundTime <= 0
                                && !(p.jump.isWallSliding && f.onWall)
    ensures k == NoJump && p.pose.jumpBufferCounter > 0 ==>
              p.pose.lastOnGroundTime <= 0 && !(p.jump.isWallSliding && f.onWall)
              && (p.jump.jumpsLeft <= 0 || f.onBarrier)
  {
    if p.pose.jumpBufferCounter > 0 then
      if p.pose.lastOnGroundTime > 0 then GroundJump
      else if p.jump.isWallSliding && f.onWall then WallJump
      else if p.jump.jumpsLeft > 0 && !f.onBarrier then DoubleJump
      else NoJump
    else NoJump
  }

  function GroundJumped(p: Player): (r: Player)
    ensures r.jump.isJumping && r.pose.jumpBufferCounter == 0 && r.pose.lastOnGroundTime == 0
    ensures r.jump.jumpsLeft == p.jump.jumpsLeft
  {
    p.(jump := p.jump.(isJumping := true),
       pose := p.pose.(jumpBufferCounter := 0, lastOnGroundTime := 0))
  }

  /** A wall jump always turns the player away from the wall: the direction it
      pushes is opposite to the facing, so the Flip test in PerformWallJump
      always holds. */
  function WallJumped(p: Player, t: Tuning): (r: Player)
    ensures r.jump.isJumping && r.jump.isWallJumping && r.jump.wallJumpCounter == t.wallJumpTime
    ensures r.pose.jumpBufferCounter == 0
    ensures r.pose.isFacingRight == !p.pose.isFacingRight
    ensures r.jump.jumpsLeft == p.jump.jumpsLeft
  {
    var dir := if p.pose.isFacingRight then -1 else 1;
    var p1 := p.(jump := p.jump.(isJumping := true, isWallJumping := true, wallJumpCounter := t.wallJumpTime),
                 pose := p.pose.(jumpBufferCounter := 0));
    if (dir > 0 && !p1.pose.isFacingRight) || (dir < 0 && p1.pose.isFacingRight)
    then p1.(pose := p1.pose.(isFacingRight := !p1.pose.isFacingRight))
    else p1
  }

  function DoubleJumped(p: Player): (r: Player)
    ensures r.jump.isJumping && r.pose.jumpBufferCounter == 0
    ensures r.jump.jumpsLeft == p.jump.jumpsLeft - 1
  {
    p.(jump := p.jump.(isJumping := true, jumpsLeft := p.jump.jumpsLeft - 1),
       pose := p.pose.(jumpBufferCounter := 0))
  }

  predicate JumpBlocked(p: Player) {
    IsAttacking(p) || p.dash.isDashing || p.life.isTakingDamage
  }

  function JumpStep(p: Player, t: Tuning, f: Frame): (r: Player)
    ensures JumpBlocked(p) ==> r == p
    ensures r.jump.jumpsLeft == (if !JumpBlocked(p) && JumpChoice(p, f) == DoubleJump
                                 then p.jump.jumpsLeft - 1 else p.jump.jumpsLeft)
    ensures r.life == p.life && r.dash == p.dash && r.fight == p.fight
    ensures r.pose.isGrounded == p.pose.isGrounded && r.pose.moveX == p.pose.moveX
    ensures r.jump.isWallSliding == p.jump.isWallSliding
  {
    if JumpBlocked(p) then p
    else
      var p1 := match JumpChoice(p, f)
                case GroundJump => GroundJumped(p)
                case WallJump => WallJumped(p, t)
                case DoubleJump => DoubleJumped(p)
                case NoJump => p;
      if p1.jump.isWallJumping && p1.jump.wallJumpCounter <= 0 then p1.(jump := p1.jump.(isWallJumping := false))
      else p1
  }

  // ---------------------------------------------------------------- flip

  function FlipStep(p: Player): (r: Player)
    ensures IsAttacking(p) || p.jump.isWallJumping || p.dash.isDashing ==> r == p
    ensures !(IsAttacking(p) || p.jump.isWallJumping || p.dash.isDashing) ==>
              r.pose.isFacingRight == (if p.pose.moveX > 0 then true else if p.pose.moveX < 0 then false
                                       else p.pose.isFacingRight)
    ensures r.pose.(isFacingRight := p.pose.isFacingRight) == p.pose
    ensures r.life == p.life && r.jump == p.jump && r.dash == p.dash && r.fight == p.fight
  {
    if IsAttacking(p) || p.jump.isWallJumping || p.dash.isDashing then p
    else if p.pose.moveX > 0 && !p.pose.isFacingRight then p.(pose := p.pose.(isFacingRight := true))
    else if p.pose.moveX < 0 && p.pose.isFacingRight then p.(pose := p.pose.(isFacingRight := false))
    else p
  }

  // ---------------------------------------------------------------- attacks

  function SlashExecuted(c: Combat, now: int): (r: Combat)
    ensures r.isPerformingSlash && !r.isPerformingSlice && r.isSlashActive && r.lastSlashTime == now
    ensures r.isSliceFrozen == c.isSliceFrozen && r.lastSliceTime == c.lastSliceTime
  {
    c.(isPerformingSlash := true, isPerformingSlice := false, isSlashActive := true, lastSlashTime := now)
  }

  /** TryExecuteSlice; on the ground it also starts FreezeDuringSlice, whose
      first part freezes the slice and zeroes the horizontal input. */
  function SliceTried(p: Player, t: Tuning, now: int): (r: Player)
    ensures now < p.fight.lastSliceTime + t.sliceCooldown || p.fight.isSlashActive ==> r == p
    ensures !(now < p.fight.lastSliceTime + t.sliceCooldown || p.fight.isSlashActive) ==>
              r.fight.isPerformingSlice && !r.fight.isPerformingSlash && r.fight.lastSliceTime == now
              && r.fight.isSliceFrozen == (p.pose.isGrounded || p.fight.isSliceFrozen)
              && r.pose.moveX == (if p.pose.isGrounded then 0 else p.pose.moveX)
    ensures r.life == p.life && r.jump == p.jump && r.dash == p.dash && r.pose.isGrounded == p.pose.isGrounded
  {
    if now < p.fight.lastSliceTime + t.sliceCooldown || p.fight.isSlashActive then p
    else
      var c := p.fight.(isPerformingSlice := true, isPerformingSlash := false, lastSliceTime := now);
      if p.pose.isGrounded then p.(fight := c.(isSliceFrozen := true), pose := p.pose.(moveX := 0))
      else p.(fight := c)
  }

  function SlashTried(p: Player, t: Tuning, now: int): (r: Player)
    ensures now < p.fight.lastSlashTime + t.slashCooldown || p.fight.isSliceFrozen ==> r == p
    ensures !(now < p.fight.lastSlashTime + t.slashCooldown || p.fight.isSliceFrozen) ==>
              r == p.(fight := SlashExecuted(p.fight, now))
  {
    if now < p.fight.lastSlashTime + t.slashCooldown || p.fight.isSliceFrozen then p
    else p.(fight := SlashExecuted(p.fight, now))
  }

  /** HandleAttacks: a press during a frozen slice only queues a slash, a press
      during a slash or combo dash only queues a slice, and a press while
      wall-sliding or damaged is ignored. */
  function AttackStep(p: Player, t: Tuning, f: Frame): (r: Player)
    ensures !f.attackPressed || p.jump.isWallSliding || p.life.isTakingDamage ==> r == p
    ensures f.attackPressed && !p.jump.isWallSliding && !p.life.isTakingDamage && p.fight.isSliceFrozen ==>
              r == p.(fight := p.fight.(queuedSlashAfterSlice := true))
    ensures (f.attackPressed && !p.jump.isWallSliding && !p.life.isTakingDamage && !p.fight.isSliceFrozen
             && (p.fight.isSlashActive || p.dash.isComboDashing)) ==>
              r == p.(fight := p.fight.(queuedSliceAfterSlash := true))
    ensures r.life == p.life && r.jump == p.jump && r.dash == p.dash && r.pose.isGrounded == p.pose.isGrounded
  {
    if !f.attackPressed || p.jump.isWallSliding || p.life.isTakingDamage then p
    else if p.fight.isSliceFrozen then p.(fight := p.fight.(queuedSlashAfterSlice := true))
    else if p.fight.isSlashActive || p.dash.isComboDashing then p.(fight := p.fight.(queuedSliceAfterSlash := true))
    else if p.pose.isGrounded then SliceTried(p, t, f.now)
    else if f.rising then SlashTried(p, t, f.now)
    else SliceTried(p, t, f.now)
  }

  // ---------------------------------------------------------------- Update

  /** What Update does before HandleJump: timers, input unless hurt, collisions. */
  function PreJump(p: Player, t: Tuning, f: Frame): Player
  {
    var p1 := TimersStep(p, f);
    var p2 := if !p1.life.isTakingDamage then InputStep(p1, t, f) else p1.(pose := p1.pose.(moveX := 0));
    CollisionStep(p2, t, f)
  }

  /** One Update call. */
  function FrameStep(p: Player, t: Tuning, f: Frame): (r: Player)
    ensures p.life.isDead ==> r == p
  {
    if p.life.isDead then p
    else AttackStep(FlipStep(JumpStep(PreJump(p, t, f), t, f)), t, f)
  }

  // ---------------------------------------------------------------- coroutine events

  /** FreezeDuringSlice resumes after sliceFreezeTime; ComboFollows says whether
      it then starts ComboDashThenSlash. */
  predicate ComboFollows(p: Player) {
    p.fight.queuedSlashAfterSlice && !p.life.isTakingDamage
  }

  function SliceFreezeEnded(p: Player): (r: Player)
    ensures !r.fight.isSliceFrozen && !r.fight.isPerformingSlice && !r.fight.queuedSlashAfterSlice
    ensures r.(fight := p.fight) == p
  {
    p.(fight := p.fight.(isSliceFrozen := false, isPerformingSlice := false, queuedSlashAfterSlice := false))
  }

  function AirSliceEnded(p: Player): (r: Player)
    ensures !r.fight.isPerformingSlice
    ensures r.(fight := p.fight) == p
  {
    p.(fight := p.fight.(isPerformingSlice := false))
  }

  /** EndSlashAfterTime resumes after slashDuration; SliceFollows says whether it
      then starts ExecuteSliceAfterCooldown. */
  predicate SliceFollows(p: Player) {
    p.fight.queuedSliceAfterSlash && !p.life.isTakingDamage
  }

  function SlashEnded(p: Player): (r: Player)
    ensures !r.fight.isSlashActive && !r.fight.isPerformingSlash && !r.fight.queuedSliceAfterSlash
    ensures r.(fight := p.fight) == p
  {
    p.(fight := p.fight.(isSlashActive := false, isPerformingSlash := false, queuedSliceAfterSlash := false))
  }

  function ComboDashBegun(p: Player): (r: Player)
    ensures r.dash.isComboDashing
    ensures r.(dash := p.dash) == p
  {
    p.(dash := p.dash.(isComboDashing := true))
  }

  /** ComboDashThenSlash resumes after comboDashDuration and runs the slash;
      nothing there checks isDead, so a combo that outlives the player still
      marks a slash active. */
  function ComboDashEnded(p: Player, now: int): (r: Player)
    ensures !r.dash.isComboDashing && r.fight.isSlashActive && r.fight.lastSlashTime == now
    ensures r.life == p.life
  {
    p.(dash := p.dash.(isComboDashing := false), fight := SlashExecuted(p.fight, now))
  }

  // ---------------------------------------------------------------- health

  /** The first part of the Die coroutine. */
  function Died(p: Player): (r: Player)
    ensures r.life.isDead && r.life.(isDead := p.life.isDead) == p.life
    ensures !r.fight.queuedSlashAfterSlice && !r.fight.queuedSliceAfterSlash
    ensures !r.fight.isSlashActive && !r.fight.isSliceFrozen && !r.dash.isComboDashing && !r.dash.isDashing
    ensures r.pose == p.pose && r.jump == p.jump
  {
    p.(life := p.life.(isDead := true),
       fight := p.fight.(queuedSlashAfterSlice := false, queuedSliceAfterSlash := false,
                         isSlashActive := false, isSliceFrozen := false),
       dash := p.dash.(isComboDashing := false, isDashing := false))
  }

  /** A hit is ignored while dead or still recovering from the previous one. */
  predicate HitIgnored(p: Player) {
    p.life.isDead || p.life.isTakingDamage
  }

  /** TakeDamage(dmg). */
  function Damaged(p: Player, dmg: int): (r: Player)
    ensures HitIgnored(p) ==> r == p
    ensures !HitIgnored(p) ==> r.life.currentHealth == Max(p.life.currentHealth - dmg, 0)
    ensures !HitIgnored(p) && p.life.currentHealth - dmg <= 0 ==> r == Died(p.(life := p.life.(currentHealth := 0)))
    ensures !HitIgnored(p) && p.life.currentHealth - dmg > 0 ==>
              !r.life.isDead && r.life.isTakingDamage
              && !r.fight.queuedSlashAfterSlice && !r.fight.queuedSliceAfterSlash
    ensures r.life.maxHealth == p.life.maxHealth && r.life.coinsCollected == p.life.coinsCollected
  {
    if HitIgnored(p) then p
    else
      var h := Max(p.life.currentHealth - dmg, 0);
      var willDie := h <= 0;
      if willDie then Died(p.(life := p.life.(currentHealth := h)))
      else p.(life := p.life.(currentHealth := h, isTakingDamage := true),
              fight := p.fight.(queuedSlashAfterSlice := false, queuedSliceAfterSlash := false))
  }

  // ---------------------------------------------------------------- properties over frames

  /** Whether this Update starts a dash. */
  predicate DashesThisFrame(p: Player, t: Tuning, f: Frame) {
    !p.life.isDead && !p.life.isTakingDamage && DashStarts(TimersStep(p, f), t, f)
  }

  function Run(p: Player, t: Tuning, fs: seq<Frame>): Player
    decreases |fs|
  {
    if fs == [] then p else Run(FrameStep(p, t, fs[0]), t, fs[1..])
  }

  /** How many dashes a run of Updates starts. */
  function DashCount(p: Player, t: Tuning, fs: seq<Frame>): nat
    decreases |fs|
  {
    if fs == [] then 0
    else (if DashesThisFrame(p, t, fs[0]) then 1 else 0) + DashCount(FrameStep(p, t, fs[0]), t, fs[1..])
  }

  /** One airborne Update keeps the player airborne and never re-arms the air
      dash; a dash it starts is the air dash and disarms it. */
  lemma AirborneFrame(p: Player, t: Tuning, f: Frame)
    requires !p.pose.isGrounded && !f.groundedNow
    ensures !FrameStep(p, t, f).pose.isGrounded
    ensures p.dash.hasDashedInAir ==> FrameStep(p, t, f).dash.hasDashedInAir
    ensures DashesThisFrame(p, t, f) ==> !p.dash.hasDashedInAir && FrameStep(p, t, f).dash.hasDashedInAir
  {
    if !p.life.isDead {
      var p1 := TimersStep(p, f);
      var p2 := if !p1.life.isTakingDamage then InputStep(p1, t, f) else p1.(pose := p1.pose.(moveX := 0));
      assert DashesThisFrame(p, t, f) ==> p2.dash.hasDashedInAir;
      var p3 := CollisionStep(p2, t, f);
      assert PreJump(p, t, f) == p3;
      var p4 := JumpStep(p3, t, f);
      var p5 := FlipStep(p4);
      assert p5.dash == p2.dash && !p5.pose.isGrounded;
    }
  }

  /** At most one dash per airborne period: once the player is airborne (its
      last Update saw no ground) and stays airborne, the run of Updates starts
      at most one dash, and none if the air dash was already used. */
  lemma {:induction false} OneAirDashPerAirbornePeriod(p: Player, t: Tuning, fs: seq<Frame>)
    requires !p.pose.isGrounded
    requires forall i :: 0 <= i < |fs| ==> !fs[i].groundedNow
    ensures DashCount(p, t, fs) <= (if p.dash.hasDashedInAir then 0 else 1)
    decreases |fs|
  {
    if fs != [] {
      AirborneFrame(p, t, fs[0]);
      var q := FrameStep(p, t, fs[0]);
      assert forall i :: 0 <= i < |fs[1..]| ==> !fs[1..][i].groundedNow by {
        forall i | 0 <= i < |fs[1..]| ensures !fs[1..][i].groundedNow {
          assert fs[1..][i] == fs[i + 1];
        }
      }
      OneAirDashPerAirbornePeriod(q, t, fs[1..]);
    }
  }

  /** The gate in ReadInput is what lets a dash start: a dash in an Update
      needs the press, the elapsed cooldown since the last dash, no running
      dash coroutine, no wall slide and no attack, and it stamps lastDashTime;
      an Update without a dash leaves the stamp alone. So two dashes are at
      least dashCooldown apart. */
  lemma DashNeedsGate(p: Player, t: Tuning, f: Frame)
    ensures DashesThisFrame(p, t, f) ==>
              f.dashPressed && f.now >= p.dash.lastDashTime + t.dashCooldown
              && !p.dash.isDashCoroutineActive && !p.jump.isWallSliding && !IsAttacking(p)
    ensures DashesThisFrame(p, t, f) ==>
              FrameStep(p, t, f).dash.lastDashTime == f.now && FrameStep(p, t, f).dash.isDashCoroutineActive
    ensures !DashesThisFrame(p, t, f) ==> FrameStep(p, t, f).dash.lastDashTime == p.dash.lastDashTime
  {
  }

  /** The frame on which the player leaves the ground still reads the previous
      frame's isGrounded, so a dash started then takes the unlimited ground
      branch and leaves the air dash armed. */
  lemma LeavingGroundDashKeepsAirDash(p: Player, t: Tuning, f: Frame)
    requires p.pose.isGrounded && !p.life.isDead && !p.life.isTakingDamage && !f.groundedNow
    requires DashGate(TimersStep(p, f), t, f)
    ensures DashesThisFrame(p, t, f)
    ensures FrameStep(p, t, f).dash.hasDashedInAir == p.dash.hasDashedInAir
    ensures !FrameStep(p, t, f).pose.isGrounded
  {
    var p1 := TimersStep(p, f);
    var p2 := InputStep(p1, t, f);
    assert p2.dash.hasDashedInAir == p.dash.hasDashedInAir;
    var p3 := CollisionStep(p2, t, f);
    assert PreJump(p, t, f) == p3;
    var p4 := JumpStep(p3, t, f);
    var p5 := FlipStep(p4);
    assert p5.dash.hasDashedInAir == p.dash.hasDashedInAir;
  }

  /** As written, an airborne period can hold two dashes: one on the take-off
      Update, which still sees the ground, and the air dash after that dash has
      finished. */
  lemma TakeOffAllowsTwoDashes(p: Player, t: Tuning, f1: Frame, f2: Frame)
    requires p.pose.isGrounded && !p.life.isDead && !p.life.isTakingDamage && !p.dash.hasDashedInAir
    requires !f1.groundedNow && !f2.groundedNow
    requires DashGate(TimersStep(p, f1), t, f1)
    requires DashGate(TimersStep(DashEnded(FrameStep(p, t, f1)), f2), t, f2)
    ensures DashesThisFrame(p, t, f1) && DashesThisFrame(DashEnded(FrameStep(p, t, f1)), t, f2)
    ensures !FrameStep(DashEnded(FrameStep(p, t, f1)), t, f2).pose.isGrounded
  {
    LeavingGroundDashKeepsAirDash(p, t, f1);
    var q := DashEnded(FrameStep(p, t, f1));
    assert !q.pose.isGrounded && !q.dash.hasDashedInAir;
    AirborneFrame(q, t, f2);
  }

  /** The evidently intended gate: the ground branch only when the current
      frame's ground check succeeds. */
  predicate IntendedDashStarts(p: Player, t: Tuning, f: Frame) {
    DashGate(p, t, f) && (f.groundedNow || !p.dash.hasDashedInAir)
  }

  /** ReadInput with the intended gate: InputStep on the current frame's ground. */
  function IntendedInputStep(p: Player, t: Tuning, f: Frame): (r: Player)
    ensures IntendedDashStarts(p, t, f) ==> r.dash.isDashing && r.dash.isDashCoroutineActive && r.dash.lastDashTime == f.now
    ensures IntendedDashStarts(p, t, f) && !f.groundedNow ==> r.dash.hasDashedInAir
    ensures !IntendedDashStarts(p, t, f) ==> r.dash == p.dash
    ensures r.pose.isGrounded == p.pose.isGrounded && r.pose.moveX == f.moveX
    ensures r.life == p.life && r.jump == p.jump && r.fight == p.fight
  {
    var q := InputStep(p.(pose := p.pose.(isGrounded := f.groundedNow)), t, f);
    q.(pose := q.pose.(isGrounded := p.pose.isGrounded))
  }

  /** Update with the intended gate. */
  function IntendedFrameStep(p: Player, t: Tuning, f: Frame): (r: Player)
    ensures p.life.isDead ==> r == p
    ensures !p.life.isDead ==> r.pose.isGrounded == f.groundedNow
    ensures IntendedDashes(p, t, f) ==> r.dash.lastDashTime == f.now && r.dash.isDashCoroutineActive
  {
    if p.life.isDead then p
    else
      var p1 := TimersStep(p, f);
      var p2 := if !p1.life.isTakingDamage then IntendedInputStep(p1, t, f) else p1.(pose := p1.pose.(moveX := 0));
      AttackStep(FlipStep(JumpStep(CollisionStep(p2, t, f), t, f)), t, f)
  }

  predicate IntendedDashes(p: Player, t: Tuning, f: Frame) {
    !p.life.isDead && !p.life.isTakingDamage && IntendedDashStarts(TimersStep(p, f), t, f)
  }

  /** The intended gate differs from the code only on the take-off and
      landing Updates, where the stale and the current ground disagree. */
  lemma IntendedAgreesWhenGroundIsCurrent(p: Player, t: Tuning, f: Frame)
    requires p.pose.isGrounded == f.groundedNow
    ensures IntendedFrameStep(p, t, f) == FrameStep(p, t, f)
    ensures IntendedDashes(p, t, f) <==> DashesThisFrame(p, t, f)
  {
    var p1 := TimersStep(p, f);
    assert p1.(pose := p1.pose.(isGrounded := f.groundedNow)) == p1;
  }

  /** With the intended gate every airborne Update, the take-off one included,
      keeps a used air dash used and refuses a dash then; a dash it starts
      is the air dash. */
  lemma IntendedAirborneFrame(p: Player, t: Tuning, f: Frame)
    requires !f.groundedNow
    ensures IntendedDashes(p, t, f) ==> !p.dash.hasDashedInAir && IntendedFrameStep(p, t, f).dash.hasDashedInAir
    ensures p.dash.hasDashedInAir ==> !IntendedDashes(p, t, f) && IntendedFrameStep(p, t, f).dash.hasDashedInAir
    ensures !p.life.isDead ==> !IntendedFrameStep(p, t, f).pose.isGrounded
  {
    if !p.life.isDead {
      var p1 := TimersStep(p, f);
      var p2 := if !p1.life.isTakingDamage then IntendedInputStep(p1, t, f) else p1.(pose := p1.pose.(moveX := 0));
      assert IntendedDashes(p, t, f) ==> p2.dash.hasDashedInAir;
      assert p.dash.hasDashedInAir ==> p2.dash.hasDashedInAir;
      var p3 := CollisionStep(p2, t, f);
      assert p3.dash == p2.dash;
      var p5 := FlipStep(JumpStep(p3, t, f));
      assert p5.dash == p2.dash && !p5.pose.isGrounded;
    }
  }

  /** With the intended gate the take-off dash is the air dash: after it has
      finished, no second dash starts before landing. */
  lemma {:induction false} IntendedOneDashAfterTakeOff(p: Player, t: Tuning, f1: Frame, f2: Frame)
    requires !f1.groundedNow && !f2.groundedNow
    requires IntendedDashes(p, t, f1)
    ensures !IntendedDashes(DashEnded(IntendedFrameStep(p, t, f1)), t, f2)
  {
    IntendedAirborneFrame(p, t, f1);
    IntendedAirborneFrame(DashEnded(IntendedFrameStep(p, t, f1)), t, f2);
  }

  /** With a positive coyote time, the Update that lands re-arms the air dash
      and restores every extra jump. */
  lemma LandingRearms(p: Player, t: Tuning, f: Frame)
    requires !p.life.isDead && f.groundedNow && !p.pose.isGrounded
    requires t.coyoteTime > 0
    ensures !FrameStep(p, t, f).dash.hasDashedInAir
    ensures FrameStep(p, t, f).pose.isGrounded
    ensures FrameStep(p, t, f).jump.jumpsLeft == t.extraJumps
  {
    var p3 := PreJump(p, t, f);
    assert p3.pose.lastOnGroundTime == t.coyoteTime && !p3.dash.hasDashedInAir && p3.pose.isGrounded;
    assert p3.jump.jumpsLeft == t.extraJumps;
    var p4 := JumpStep(p3, t, f);
    var p5 := FlipStep(p4);
    assert p5.dash == p3.dash && p5.jump == p4.jump;
  }

  /** jumpsLeft stays within [0, extraJumps]: it is only refilled to extraJumps
      on the ground and a double jump needs jumpsLeft > 0. */
  lemma JumpsLeftBounded(p: Player, t: Tuning, f: Frame)
    requires 0 <= t.extraJumps
    requires 0 <= p.jump.jumpsLeft <= t.extraJumps
    ensures 0 <= FrameStep(p, t, f).jump.jumpsLeft <= t.extraJumps
  {
    if !p.life.isDead {
      var p3 := PreJump(p, t, f);
      assert 0 <= p3.jump.jumpsLeft <= t.extraJumps;
      var p4 := JumpStep(p3, t, f);
      var p5 := FlipStep(p4);
      assert p5.jump == p4.jump;
    }
  }

  lemma {:induction false} JumpsLeftBoundedRun(p: Player, t: Tuning, fs: seq<Frame>)
    requires 0 <= t.extraJumps
    requires 0 <= p.jump.jumpsLeft <= t.extraJumps
    ensures 0 <= Run(p, t, fs).jump.jumpsLeft <= t.extraJumps
    decreases |fs|
  {
    if fs != [] {
      JumpsLeftBounded(p, t, fs[0]);
      JumpsLeftBoundedRun(FrameStep(p, t, fs[0]), t, fs[1..]);
    }
  }

  /** A dead player's Updates change nothing and start no dash. */
  lemma {:induction false} DeadPlayerFrozen(p: Player, t: Tuning, fs: seq<Frame>)
    requires p.life.isDead
    ensures Run(p, t, fs) == p
    ensures DashCount(p, t, fs) == 0
    decreases |fs|
  {
    if fs != [] {
      DeadPlayerFrozen(FrameStep(p, t, fs[0]), t, fs[1..]);
    }
  }

  function Hits(p: Player, hits: seq<int>): Player
    decreases |hits|
  {
    if hits == [] then p else Hits(Damaged(p, hits[0]), hits[1..])
  }

  /** Health never goes below zero under any sequence of hits. */
  lemma {:induction false} HealthStaysNonNegative(p: Player, hits: seq<int>)
    requires p.life.currentHealth >= 0
    ensures Hits(p, hits).life.currentHealth >= 0
    decreases |hits|
  {
    if hits != [] {
      HealthStaysNonNegative(Damaged(p, hits[0]), hits[1..]);
    }
  }

  // ---------------------------------------------------------------- the component

  /** The MonoBehaviour. Its fields are kept in the five groups of Player, so
      `life.currentHealth` is the C# field `currentHealth`. */
  class PlayerController2D {
    const tuning: Tuning
    var life: Vitals
    var pose: Pose
    var jump: Jumping
    var dash: Dashing
    var fight: Combat

    function Snapshot(): Player
      reads this
    {
      Player(life, pose, jump, dash, fight)
    }

    /** Field initialisers followed by Awake. */
    constructor (t: Tuning, inspectorMaxHealth: int)
      ensures tuning == t
      ensures Snapshot() == Awoken(t, inspectorMaxHealth)
    {
      tuning := t;
      pose := Pose(true, 0, false, 0, 0);
      dash := Dashing(false, false, false, 0, false);
      fight := Combat(0, 0, false, false, false, false, false, false);
      // Awake: currentHealth = maxHealth, jumpsLeft = extraJumps
      life := Vitals(inspectorMaxHealth, inspectorMaxHealth, false, false, 0, true);
      jump := Jumping(false, false, false, 0, t.extraJumps);
    }

    predicate IsAttacking()
      reads this
      ensures IsAttacking() == Attacking(fight, dash)
    {
      fight.isSliceFrozen || fight.isSlashActive || dash.isComboDashing
      || fight.isPerformingSlice || fight.isPerformingSlash
    }

    method Update(f: Frame)
      modifies this
      ensures Snapshot() == FrameStep(old(Snapshot()), tuning, f)
    {
      if life.isDead { return; }
      HandleTimers(f);
      if !life.isTakingDamage { ReadInput(f); } else { pose := pose.(moveX := 0); }
      CheckCollisions(f);
      HandleJump(f);
      HandleFlip();
      HandleAttacks(f);
    }

    method HandleTimers(f: Frame)
      modifies this`pose, this`jump
      ensures Snapshot() == TimersStep(old(Snapshot()), f)
    {
      pose := pose.(lastOnGroundTime := pose.lastOnGroundTime - f.dt);
      pose := pose.(jumpBufferCounter := pose.jumpBufferCounter - f.dt);
      if jump.isWallJumping { jump := jump.(wallJumpCounter := jump.wallJumpCounter - f.dt); }
    }

    method ReadInput(f: Frame)
      modifies this`pose, this`dash
      ensures Snapshot() == InputStep(old(Snapshot()), tuning, f)
    {
      pose := pose.(moveX := f.moveX);
      if f.jumpPressed { pose := pose.(jumpBufferCounter := tuning.jumpBufferTime); }
      var cdOK := f.now >= dash.lastDashTime + tuning.dashCooldown;
      if f.dashPressed && cdOK && !dash.isDashCoroutineActive && !jump.isWallSliding && !IsAttacking() {
        if pose.isGrounded {
          StartDash(f.now);
        } else if !dash.hasDashedInAir {
          StartDash(f.now);
          dash := dash.(hasDashedInAir := true);
        }
      }
    }

    /** StartCoroutine(Dash()), up to its first wait; a second start while one
        runs ends at once. */
    method StartDash(now: int)
      modifies this`dash
      ensures !old(dash.isDashCoroutineActive) ==> dash == DashBegun(old(dash), now)
      ensures old(dash.isDashCoroutineActive) ==> dash == old(dash)
    {
      if dash.isDashCoroutineActive { return; }
      dash := dash.(isDashCoroutineActive := true, lastDashTime := now, isDashing := true);
    }

    /** The Dash coroutine resumes after dashDuration. */
    method DashFinished()
      modifies this`dash
      ensures Snapshot() == DashEnded(old(Snapshot()))
    {
      dash := dash.(isDashing := false, isDashCoroutineActive := false);
    }

    method CheckCollisions(f: Frame)
      modifies this`dash, this`pose, this`jump
      ensures Snapshot() == CollisionStep(old(Snapshot()), tuning, f)
    {
      if f.groundedNow && !pose.isGrounded { dash := dash.(hasDashedInAir := false); }
      if f.groundedNow {
        pose := pose.(lastOnGroundTime := tuning.coyoteTime);
        jump := jump.(jumpsLeft := tuning.extraJumps);
      }
      pose := pose.(isGrounded := f.groundedNow);
      jump := jump.(isWallSliding := (f.onWall || f.onBarrier) && !f.groundedNow && f.falling && !jump.isWallJumping);
    }

    method HandleJump(f: Frame)
      modifies this`pose, this`jump
      ensures Snapshot() == JumpStep(old(Snapshot()), tuning, f)
    {
      if IsAttacking() || dash.isDashing || life.isTakingDamage { return; }
      if pose.jumpBufferCounter > 0 {
        if pose.lastOnGroundTime > 0 { PerformGroundJump(); }
        else if jump.isWallSliding && f.onWall { PerformWallJump(); }
        else if jump.jumpsLeft > 0 && !f.onBarrier { PerformDoubleJump(); }
      }
      if jump.isWallJumping && jump.wallJumpCounter <= 0 { jump := jump.(isWallJumping := false); }
    }

    method PerformGroundJump()
      modifies this`pose, this`jump
      ensures Snapshot() == GroundJumped(old(Snapshot()))
    {
      jump := jump.(isJumping := true);
      pose := pose.(jumpBufferCounter := 0, lastOnGroundTime := 0);
    }

    method PerformWallJump()
      modifies this`pose, this`jump
      ensures Snapshot() == WallJumped(old(Snapshot()), tuning)
    {
      jump := jump.(isJumping := true, isWallJumping := true, wallJumpCounter := tuning.wallJumpTime);
      pose := pose.(jumpBufferCounter := 0);
      var dir := if pose.isFacingRight then -1 else 1;
      if (dir > 0 && !pose.isFacingRight) || (dir < 0 && pose.isFacingRight) { Flip(); }
    }

    method PerformDoubleJump()
      modifies this`pose, this`jump
      ensures Snapshot() == DoubleJumped(old(Snapshot()))
    {
      jump := jump.(isJumping := true, jumpsLeft := jump.jumpsLeft - 1);
      pose := pose.(jumpBufferCounter := 0);
    }

    method HandleFlip()
      modifies this`pose
      ensures Snapshot() == FlipStep(old(Snapshot()))
    {
      if IsAttacking() || jump.isWallJumping || dash.isDashing { return; }
      if pose.moveX > 0 && !pose.isFacingRight { Flip(); }
      else if pose.moveX < 0 && pose.isFacingRight { Flip(); }
    }

    method Flip()
      modifies this`pose
      ensures pose == old(pose).(isFacingRight := !old(pose.isFacingRight))
    {
      pose := pose.(isFacingRight := !pose.isFacingRight);
    }

    method HandleAttacks(f: Frame)
      modifies this`fight, this`pose
      ensures Snapshot() == AttackStep(old(Snapshot()), tuning, f)
    {
      if !f.attackPressed || jump.isWallSliding || life.isTakingDamage { return; }
      if fight.isSliceFrozen { fight := fight.(queuedSlashAfterSlice := true); return; }
      if fight.isSlashActive || dash.isComboDashing { fight := fight.(queuedSliceAfterSlash := true); return; }
      if pose.isGrounded { TryExecuteSlice(f.now); }
      else if f.rising { TryExecuteSlash(f.now); }
      else { TryExecuteSlice(f.now); }
    }

    method TryExecuteSlice(now: int)
      modifies this`fight, this`pose
      ensures Snapshot() == SliceTried(old(Snapshot()), tuning, now)
    {
      if now < fight.lastSliceTime + tuning.sliceCooldown || fight.isSlashActive { return; }
      fight := fight.(isPerformingSlice := true, isPerformingSlash := false, lastSliceTime := now);
      if pose.isGrounded {
        // FreezeDuringSlice, up to its wait
        fight := fight.(isSliceFrozen := true);
        pose := pose.(moveX := 0);
      }
    }

    method TryExecuteSlash(now: int)
      modifies this`fight
      ensures Snapshot() == SlashTried(old(Snapshot()), tuning, now)
    {
      if now < fight.lastSlashTime + tuning.slashCooldown || fight.isSliceFrozen { return; }
      ExecuteSlash(now);
    }

    method ExecuteSlash(now: int)
      modifies this`fight
      ensures fight == SlashExecuted(old(fight), now)
    {
      fight := fight.(isPerformingSlash := true, isPerformingSlice := false, isSlashActive := true,
                      lastSlashTime := now);
    }

    /** FreezeDuringSlice resumes; the result says whether ComboDashThenSlash starts. */
    method SliceFreezeFinished() returns (comboStarts: bool)
      modifies this`fight
      ensures comboStarts == ComboFollows(old(Snapshot()))
      ensures Snapshot() == SliceFreezeEnded(old(Snapshot()))
    {
      fight := fight.(isSliceFrozen := false, isPerformingSlice := false);
      comboStarts := fight.queuedSlashAfterSlice && !life.isTakingDamage;
      fight := fight.(queuedSlashAfterSlice := false);
    }

    /** EndAirSlice resumes. */
    method AirSliceFinished()
      modifies this`fight
      ensures Snapshot() == AirSliceEnded(old(Snapshot()))
    {
      fight := fight.(isPerformingSlice := false);
    }

    /** EndSlashAfterTime resumes; the result says whether ExecuteSliceAfterCooldown starts. */
    method SlashFinished() returns (sliceStarts: bool)
      modifies this`fight
      ensures sliceStarts == SliceFollows(old(Snapshot()))
      ensures Snapshot() == SlashEnded(old(Snapshot()))
    {
      fight := fight.(isSlashActive := false, isPerformingSlash := false);
      sliceStarts := fight.queuedSliceAfterSlash && !life.isTakingDamage;
      fight := fight.(queuedSliceAfterSlash := false);
    }

    /** ComboDashThenSlash passes its cooldown wait and starts the combo dash. */
    method ComboDashBegin()
      modifies this`dash
      ensures Snapshot() == ComboDashBegun(old(Snapshot()))
    {
      dash := dash.(isComboDashing := true);
    }

    /** ComboDashThenSlash resumes after comboDashDuration. */
    method ComboDashFinished(now: int)
      modifies this`dash, this`fight
      ensures Snapshot() == ComboDashEnded(old(Snapshot()), now)
    {
      dash := dash.(isComboDashing := false);
      ExecuteSlash(now);
    }

    /** ExecuteSliceAfterCooldown resumes. */
    method SliceAfterCooldown(now: int)
      modifies this`fight, this`pose
      ensures Snapshot() == SliceTried(old(Snapshot()), tuning, now)
    {
      TryExecuteSlice(now);
    }

    method TakeDamage(dmg: int)
      modifies this`life, this`fight, this`dash
      ensures Snapshot() == Damaged(old(Snapshot()), dmg)
    {
      if life.isDead || life.isTakingDamage { return; }
      life := life.(currentHealth := Max(life.currentHealth - dmg, 0));
      var willDie := life.currentHealth <= 0;
      if willDie { Die(); return; }
      life := life.(isTakingDamage := true);
      fight := fight.(queuedSlashAfterSlice := false, queuedSliceAfterSlash := false);
    }

    /** RecoverFromDamage resumes. */
    method DamageRecovered()
      modifies this`life
      ensures life == old(life).(isTakingDamage := false)
    {
      life := life.(isTakingDamage := false);
    }

    /** StartCoroutine(Die()), up to its wait. */
    method Die()
      modifies this`life, this`fight, this`dash
      ensures Snapshot() == Died(old(Snapshot()))
    {
      life := life.(isDead := true);
      fight := fight.(queuedSlashAfterSlice := false, queuedSliceAfterSlash := false);
      fight := fight.(isSlashActive := false, isSliceFrozen := false);
      dash := dash.(isComboDashing := false, isDashing := false);
    }

    /** The Die coroutine resumes and disables the component. */
    method DeathFinished()
      modifies this`life
      ensures life == old(life).(enabled := false)
    {
      life := life.(enabled := false);
    }

    /** A collision with a collider tagged Enemy or EnemyAttack costs the default 10. */
    method OnCollisionEnter2D(enemyTagged: bool)
      modifies this`life, this`fight, this`dash
      ensures Snapshot() == if enemyTagged then Damaged(old(Snapshot()), 10) else old(Snapshot())
    {
      if enemyTagged { TakeDamage(10); }
    }
  }
}
