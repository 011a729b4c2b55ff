/** PlayerController2D v1.2 (Assets/Scripts/PlayerController2d.cs): ground,
    coyote, wall and double jumps, and a dash whose coroutine polls the clock
    until dashDuration has passed and then waits dashCooldown before re-arming
    canDash. Physics queries and keys are Frame inputs; timers are ticks. */
module PlayerControllerV12 {

  datatype Tuning = Tuning(
    extraJumps: int,
    coyoteTime: int,
    jumpBufferTime: int,
    dashDuration: int,
    wallJumpTime: int)

  datatype Frame = Frame(
    dt: nat,
    now: int,
    moveX: int,
    jumpPressed: bool,
    dashPressed: bool,
    grounded: bool,
    onWall: bool,
    falling: bool)  // linearVelocity.y < 0

  /** Where the Dash coroutine is: not running; polling the clock since
      startTime; waiting out the cooldown. */
  datatype DashPhase = Ready | Dashing(startTime: int) | Cooling

  datatype Pose = Pose(isFacingRight: bool, moveX: int, lastOnGroundTime: int, jumpBufferCounter: int)
  datatype Jumps = Jumps(isJumping: bool, isWallSliding: bool, isWallJumping: bool, wallJumpCounter: int, jumpsLeft: int)
  datatype DashState = DashState(canDash: bool, isDashing: bool, phase: DashPhase)
  datatype Player = Player(pose: Pose, jump: Jumps, dash: DashState)

  /** canDash is false for exactly as long as the coroutine runs, and isDashing
      holds exactly while it polls. */
  predicate DashConsistent(d: DashState) {
    (d.canDash <==> d.phase == Ready) && (d.isDashing <==> d.phase.Dashing?)
  }

  function Awoken(t: Tuning): (p: Player)
    ensures p.jump.jumpsLeft == t.extraJumps && p.dash.canDash && !p.dash.isDashing
    ensures DashConsistent(p.dash)
  {
    Player(Pose(true, 0, 0, 0), Jumps(false, false, false, 0, t.extraJumps), DashState(true, false, Ready))
  }

  // ---------------------------------------------------------------- dash

  /** The Dash coroutine up to its first yield: the polling loop is entered at
      once, so a non-positive duration ends the dash immediately. */
  function DashBegun(d: DashState, t: Tuning, now: int): (r: DashState)
    ensures !r.canDash
    ensures r.isDashing <==> t.dashDuration > 0
    ensures DashConsistent(r)
  {
    if 0 < t.dashDuration then DashState(false, true, Dashing(now))
    else DashState(false, false, Cooling)
  }

  /** The polling loop resumes on a frame at time now. */
  function DashPolled(d: DashState, t: Tuning, now: int): (r: DashState)
    ensures !d.phase.Dashing? ==> r == d
    ensures d.phase.Dashing? && now - d.phase.startTime < t.dashDuration ==> r == d
    ensures d.phase.Dashing? && now - d.phase.startTime >= t.dashDuration ==>
              r == d.(isDashing := false, phase := Cooling)
  {
    if d.phase.Dashing? && now - d.phase.startTime >= t.dashDuration then d.(isDashing := false, phase := Cooling)
    else d
  }

  /** WaitForSeconds(dashCooldown) elapses. */
  function CooldownElapsed(d: DashState): (r: DashState)
    ensures d.phase == Cooling ==> r.canDash && r.phase == Ready && r.isDashing == d.isDashing
    ensures d.phase != Cooling ==> r == d
  {
    if d.phase == Cooling then d.(canDash := true, phase := Ready) else d
  }

  /** The dash loop's exit test over the times of successive frames: the index
      of the first frame at which dashDuration has passed since startTime, or
      |times| when none has. */
  method FirstFrameAfterDuration(startTime: int, duration: int, times: seq<int>) returns (k: nat)
    ensures k <= |times|
    ensures forall i :: 0 <= i < k ==> times[i] - startTime < duration
    ensures k < |times| ==> times[k] - startTime >= duration
  {
    k := 0;
    while k < |times| && times[k] - startTime < duration
      invariant k <= |times|
      invariant forall i :: 0 <= i < k ==> times[i] - startTime < duration
    {
      k := k + 1;
    }
  }

  // ---------------------------------------------------------------- one Update

  function TimersStep(p: Player, f: Frame): (r: Player)
    ensures r.pose.lastOnGroundTime == p.pose.lastOnGroundTime - f.dt
    ensures r.pose.jumpBufferCounter == p.pose.jumpBufferCounter - f.dt
    ensures r.jump.wallJumpCounter == if p.jump.isWallJumping then p.jump.wallJumpCounter - f.dt else p.jump.wallJumpCounter
    ensures r.dash == p.dash && r.jump.jumpsLeft == p.jump.jumpsLeft
  {
    p.(pose := p.pose.(lastOnGroundTime := p.pose.lastOnGroundTime - f.dt,
                       jumpBufferCounter := p.pose.jumpBufferCounter - f.dt),
       jump := p.jump.(wallJumpCounter := if p.jump.isWallJumping then p.jump.wallJumpCounter - f.dt
                                          else p.jump.wallJumpCounter))
  }

  /** ReadInput: the dash starts only when canDash holds. */
  function InputStep(p: Player, t: Tuning, f: Frame): (r: Player)
    ensures r.pose.moveX == f.moveX
    ensures r.pose.jumpBufferCounter == if f.jumpPressed then t.jumpBufferTime else p.pose.jumpBufferCounter
    ensures f.dashPressed && p.dash.canDash ==> r.dash == DashBegun(p.dash, t, f.now)
    ensures !(f.dashPressed && p.dash.canDash) ==> r.dash == p.dash
    ensures r.jump == p.jump
  {
    var p1 := p.(pose := p.pose.(moveX := f.moveX,
                                 jumpBufferCounter := if f.jumpPressed then t.jumpBufferTime
                                                      else p.pose.jumpBufferCounter));
    if f.dashPressed && p.dash.canDash then p1.(dash := DashBegun(p.dash, t, f.now)) else p1
  }

  function CollisionStep(p: Player, t: Tuning, f: Frame): (r: Player)
    ensures f.grounded ==> r.pose.lastOnGroundTime == t.coyoteTime && r.jump.jumpsLeft == t.extraJumps
    ensures !f.grounded ==> r.pose.lastOnGroundTime == p.pose.lastOnGroundTime && r.jump.jumpsLeft == p.jump.jumpsLeft
    ensures r.jump.isWallSliding <==> f.onWall && !f.grounded && f.falling && !p.jump.isWallJumping
    ensures r.dash == p.dash && r.pose.jumpBufferCounter == p.pose.jumpBufferCounter
    ensures r.jump.isWallJumping == p.jump.isWallJumping && r.jump.wallJumpCounter == p.jump.wallJumpCounter
  {
    p.(pose := p.pose.(lastOnGroundTime := if f.grounded then t.coyoteTime else p.pose.lastOnGroundTime),
       jump := p.jump.(jumpsLeft := if f.grounded then t.extraJumps else p.jump.jumpsLeft,
                       isWallSliding := f.onWall && !f.grounded && f.falling && !p.jump.isWallJumping))
  }

  datatype JumpKind = NoJump | GroundJump | WallJump | DoubleJump

  /** A buffered press jumps from the ground or coyote time first, then from a
      wall slide, then uses an extra jump if one is left. */
  function JumpChoice(p: Player): (k: JumpKind)
    ensures k != NoJump <==> p.pose.jumpBufferCounter > 0
                             && (p.pose.lastOnGroundTime > 0 || p.jump.isWallSliding || p.jump.jumpsLeft > 0)
    ensures k == GroundJump <==> p.pose.jumpBufferCounter > 0 && p.pose.lastOnGroundTime > 0
    ensures k == WallJump <==> p.pose.jumpBufferCounter > 0 && p.pose.lastOnGroundTime <= 0 && p.jump.isWallSliding
    ensures k == DoubleJump ==> p.jump.jumpsLeft > 0
  {
    if p.pose.jumpBufferCounter > 0 then
      if p.pose.lastOnGroundTime > 0 then GroundJump
      else if p.jump.isWallSliding then WallJump
      else if p.jump.jumpsLeft > 0 then DoubleJump
      else NoJump
    else NoJump
  }

  function GroundJumped(p: Player): (r: Player)
    ensures r.jump.isJumping && r.pose.jumpBufferCounter == 0 && r.pose.lastOnGroundTime == 0
    ensures r.jump.jumpsLeft == p.jump.jumpsLeft && r.dash == p.dash
  {
    p.(jump := p.jump.(isJumping := true), pose := p.pose.(jumpBufferCounter := 0, lastOnGroundTime := 0))
  }

  /** The push direction is opposite to the facing, so a wall jump always flips. */
  function WallJumped(p: Player, t: Tuning): (r: Player)
    ensures r.jump.isJumping && r.jump.isWallJumping && r.jump.wallJumpCounter == t.wallJumpTime
    ensures r.pose.jumpBufferCounter == 0 && r.pose.isFacingRight == !p.pose.isFacingRight
    ensures r.jump.jumpsLeft == p.jump.jumpsLeft && r.dash == p.dash
  {
    var dir := if p.pose.isFacingRight then -1 else 1;
    var p1 := p.(jump := p.jump.(isJumping := true, isWallJumping := true, wallJumpCounter := t.wallJumpTime),
                 pose := p.pose.(jumpBufferCounter := 0));
    if (dir > 0 && !p1.pose.isFacingRight) || (dir < 0 && p1.pose.isFacingRight)
    then p1.(pose := p1.pose.(isFacingRight := !p1.pose.isFacingRight))
    else p1
  }

  function DoubleJumped(p: Player): (r: Player)
    ensures r.jump.isJumping && r.pose.jumpBufferCounter == 0
    ensures r.jump.jumpsLeft == p.jump.jumpsLeft - 1 && r.dash == p.dash
  {
    p.(jump := p.jump.(isJumping := true, jumpsLeft := p.jump.jumpsLeft - 1), pose := p.pose.(jumpBufferCounter := 0))
  }

  function JumpStep(p: Player, t: Tuning): (r: Player)
    ensures r.jump.jumpsLeft == if JumpChoice(p) == DoubleJump then p.jump.jumpsLeft - 1 else p.jump.jumpsLeft
    ensures r.jump.isWallJumping ==> r.jump.wallJumpCounter > 0
    ensures r.dash == p.dash && r.pose.moveX == p.pose.moveX
  {
    var p1 := match JumpChoice(p)
              case GroundJump => GroundJumped(p)
              case WallJump => WallJumped(p, t)
              case DoubleJump => DoubleJumped(p)
              case NoJump => p;
    if p1.jump.isWallJumping && p1.jump.wallJumpCounter <= 0 then p1.(jump := p1.jump.(isWallJumping := false))
    else p1
  }

  /** No flip while dashing or wall-jumping; otherwise facing follows the input. */
  function FlipStep(p: Player): (r: Player)
    ensures p.dash.isDashing || p.jump.isWallJumping ==> r == p
    ensures !(p.dash.isDashing || p.jump.isWallJumping) ==>
              r.pose.isFacingRight == (if p.pose.moveX > 0 then true else if p.pose.moveX < 0 then false
                                       else p.pose.isFacingRight)
    ensures r.jump == p.jump && r.dash == p.dash
  {
    if p.dash.isDashing || p.jump.isWallJumping then p
    else if p.pose.moveX > 0 && !p.pose.isFacingRight then p.(pose := p.pose.(isFacingRight := true))
    else if p.pose.moveX < 0 && p.pose.isFacingRight then p.(pose := p.pose.(isFacingRight := false))
    else p
  }

  /** One Update: the dash starts exactly when it is pressed while armed,
      and the ground refills the extra jumps before a jump may use one. */
  function FrameStep(p: Player, t: Tuning, f: Frame): (r: Player)
    ensures r.dash == if f.dashPressed && p.dash.canDash then DashBegun(p.dash, t, f.now) else p.dash
    ensures r.pose.moveX == f.moveX
    ensures f.grounded ==> t.extraJumps - 1 <= r.jump.jumpsLeft <= t.extraJumps
    ensures !f.grounded ==> p.jump.jumpsLeft - 1 <= r.jump.jumpsLeft <= p.jump.jumpsLeft
  {
    FlipStep(JumpStep(CollisionStep(InputStep(TimersStep(p, f), t, f), t, f), t))
  }

  // ---------------------------------------------------------------- properties

  /** Everything that can happen to the controller: an Update, a resume of the
      dash loop, the end of the dash cooldown. */
  datatype Event = Tick(f: Frame) | DashResume(now: int) | DashCooldownEnd

  function Apply(p: Player, t: Tuning, e: Event): Player {
    match e
    case Tick(f) => FrameStep(p, t, f)
    case DashResume(now) => p.(dash := DashPolled(p.dash, t, now))
    case DashCooldownEnd => p.(dash := CooldownElapsed(p.dash))
  }

  function Replay(p: Player, t: Tuning, es: seq<Event>): Player
    decreases |es|
  {
    if es == [] then p else Replay(Apply(p, t, es[0]), t, es[1..])
  }

  lemma EventKeepsDashConsistent(p: Player, t: Tuning, e: Event)
    requires DashConsistent(p.dash)
    ensures DashConsistent(Apply(p, t, e).dash)
  {
    if e.Tick? {
      var p2 := InputStep(TimersStep(p, e.f), t, e.f);
      assert DashConsistent(p2.dash);
      assert FrameStep(p, t, e.f).dash == p2.dash;
    }
  }

  /** Once a dash has started, canDash stays false through any Updates and
      dash-loop resumes until the cooldown ends. */
  lemma {:induction false} CanDashStaysFalseUntilCooldown(p: Player, t: Tuning, es: seq<Event>)
    requires DashConsistent(p.dash) && !p.dash.canDash
    requires forall i :: 0 <= i < |es| ==> es[i] != DashCooldownEnd
    ensures !Replay(p, t, es).dash.canDash
    ensures DashConsistent(Replay(p, t, es).dash)
    decreases |es|
  {
    if es != [] {
      EventKeepsDashConsistent(p, t, es[0]);
      var q := Apply(p, t, es[0]);
      assert !q.dash.canDash by {
        if es[0].Tick? {
          assert InputStep(TimersStep(p, es[0].f), t, es[0].f).dash == p.dash;
          assert FrameStep(p, t, es[0].f).dash == p.dash;
        }
      }
      assert forall i :: 0 <= i < |es[1..]| ==> es[1..][i] != DashCooldownEnd by {
        forall i | 0 <= i < |es[1..]| ensures es[1..][i] != DashCooldownEnd {
          assert es[1..][i] == es[i + 1];
        }
      }
      CanDashStaysFalseUntilCooldown(q, t, es[1..]);
    }
  }

  /** A dash started by an Update disarms canDash. */
  lemma DashStartDisarms(p: Player, t: Tuning, f: Frame)
    requires f.dashPressed && p.dash.canDash
    ensures !FrameStep(p, t, f).dash.canDash
  {
    assert InputStep(TimersStep(p, f), t, f).dash == DashBegun(p.dash, t, f.now);
  }

  /** jumpsLeft stays within [0, extraJumps]. */
  lemma JumpsLeftBounded(p: Player, t: Tuning, f: Frame)
    requires 0 <= t.extraJumps && 0 <= p.jump.jumpsLeft <= t.extraJumps
    ensures 0 <= FrameStep(p, t, f).jump.jumpsLeft <= t.extraJumps
  {
    var p3 := CollisionStep(InputStep(TimersStep(p, f), t, f), t, f);
    assert 0 <= p3.jump.jumpsLeft <= t.extraJumps;
  }

  // ---------------------------------------------------------------- the component

  /** The MonoBehaviour; its fields are kept in the groups of Player. */
  class PlayerController2D {
    const tuning: Tuning
    var pose: Pose
    var jump: Jumps
    var dash: DashState

    function Snapshot(): Player
      reads this
    {
      Player(pose, jump, dash)
    }

    /** Field initialisers followed by Awake. */
    constructor (t: Tuning)
      ensures tuning == t && Snapshot() == Awoken(t)
    {
      tuning := t;
      pose := Pose(true, 0, 0, 0);
      jump := Jumps(false, false, false, 0, t.extraJumps);
      dash := DashState(true, false, Ready);
    }

    method Update(f: Frame)
      modifies this
      ensures Snapshot() == FrameStep(old(Snapshot()), tuning, f)
    {
      HandleTimers(f);
      ReadInput(f);
      CheckCollisions(f);
      HandleJump();
      HandleFlip();
    }

    method HandleTimers(f: Frame)
      modifies this`pose, this`jump
      ensures Snapshot() == TimersStep(old(Snapshot()), f)
    {
      pose := pose.(lastOnGroundTime := pose.lastOnGroundTime - f.dt,
                    jumpBufferCounter := pose.jumpBufferCounter - f.dt);
      if jump.isWallJumping { jump := jump.(wallJumpCounter := jump.wallJumpCounter - f.dt); }
    }

    method ReadInput(f: Frame)
      modifies this`pose, this`dash
      ensures Snapshot() == InputStep(old(Snapshot()), tuning, f)
    {
      pose := pose.(moveX := f.moveX);
      if f.jumpPressed { pose := pose.(jumpBufferCounter := tuning.jumpBufferTime); }
      if f.dashPressed && dash.canDash { StartDash(f.now); }
    }

    /** StartCoroutine(Dash()), up to its first yield. */
    method StartDash(now: int)
      modifies this`dash
      ensures dash == DashBegun(old(dash), tuning, now)
    {
      dash := dash.(canDash := false, isDashing := true, phase := Dashing(now));
      // the while loop tests the clock once before its first yield, when no time has passed
      if tuning.dashDuration <= 0 {
        dash := dash.(isDashing := false, phase := Cooling);
      }
    }

    /** The dash loop resumes on the frames at the given times: it keeps
        yielding while less than dashDuration has passed and ends the dash on
        the first frame at which it has. The result is how many frames it
        yielded on. */
    method ResumeDash(times: seq<int>) returns (yielded: nat)
      modifies this`dash
      ensures yielded <= |times|
      ensures !old(dash.phase).Dashing? ==> dash == old(dash) && yielded == 0
      ensures old(dash.phase).Dashing? ==>
                (forall i :: 0 <= i < yielded ==> times[i] - old(dash.phase).startTime < tuning.dashDuration)
      ensures old(dash.phase).Dashing? && yielded < |times| ==>
                dash == DashPolled(old(dash), tuning, times[yielded])
      ensures old(dash.phase).Dashing? && yielded == |times| ==> dash == old(dash)
    {
      if !dash.phase.Dashing? { return 0; }
      yielded := FirstFrameAfterDuration(dash.phase.startTime, tuning.dashDuration, times);
      if yielded < |times| {
        dash := DashPolled(dash, tuning, times[yielded]);
      }
    }

    /** The WaitForSeconds(dashCooldown) after the dash finishes. */
    method DashCooldownFinished()
      modifies this`dash
      ensures dash == CooldownElapsed(old(dash))
    {
      if dash.phase == Cooling { dash := dash.(canDash := true, phase := Ready); }
    }

    method CheckCollisions(f: Frame)
      modifies this`pose, this`jump
      ensures Snapshot() == CollisionStep(old(Snapshot()), tuning, f)
    {
      if f.grounded {
        pose := pose.(lastOnGroundTime := tuning.coyoteTime);
        jump := jump.(jumpsLeft := tuning.extraJumps);
      }
      if f.onWall && !f.grounded && f.falling && !jump.isWallJumping {
        jump := jump.(isWallSliding := true);
      } else {
        jump := jump.(isWallSliding := false);
      }
    }

    method HandleJump()
      modifies this`pose, this`jump
      ensures Snapshot() == JumpStep(old(Snapshot()), tuning)
    {
      if pose.jumpBufferCounter > 0 {
        if pose.lastOnGroundTime > 0 { PerformGroundJump(); }
        else if jump.isWallSliding { PerformWallJump(); }
        else if jump.jumpsLeft > 0 { PerformDoubleJump(); }
      }
      if jump.isWallJumping && jump.wallJumpCounter <= 0 { jump := jump.(isWallJumping := false); }
    }

    method PerformGroundJump()
      modifies this`pose, this`jump
      ensures Snapshot() == GroundJumped(old(Snapshot()))
    {
      jump := jump.(isJumping := true);
      pose := pose.(jumpBufferCounter := 0, lastOnGroundTime := 0);
    }

    method PerformWallJump()
      modifies this`pose, this`jump
      ensures Snapshot() == WallJumped(old(Snapshot()), tuning)
    {
      jump := jump.(isJumping := true, isWallJumping := true, wallJumpCounter := tuning.wallJumpTime);
      pose := pose.(jumpBufferCounter := 0);
      var dir := if pose.isFacingRight then -1 else 1;
      if (dir > 0 && !pose.isFacingRight) || (dir < 0 && pose.isFacingRight) { Flip(); }
    }

    method PerformDoubleJump()
      modifies this`pose, this`jump
      ensures Snapshot() == DoubleJumped(old(Snapshot()))
    {
      jump := jump.(isJumping := true, jumpsLeft := jump.jumpsLeft - 1);
      pose := pose.(jumpBufferCounter := 0);
    }

    method HandleFlip()
      modifies this`pose
      ensures Snapshot() == FlipStep(old(Snapshot()))
    {
      if dash.isDashing || jump.isWallJumping { return; }
      if pose.moveX > 0 && !pose.isFacingRight { Flip(); }
      else if pose.moveX < 0 && pose.isFacingRight { Flip(); }
    }

    method Flip()
      modifies this`pose
      ensures pose == old(pose).(isFacingRight := !old(pose.isFacingRight))
    {
      pose := pose.(isFacingRight := !pose.isFacingRight);
    }
  }
}
