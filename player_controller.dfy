/** PlayerController (Assets/Scripts/PlayerController.cs): the earliest player
    script, one long Update with coyote time, a jump buffer, wall slide and wall
    jump, an air dash re-armed by ground or wall contact, and attack triggers.
    OverlapBox results, the side the wall check sits on, key presses and the
    animator's can-attack test are Frame inputs; the DoDash and ResetAttack
    coroutines and the Invoke of StopWallJumping are events. The transform's
    x scale is tracked as a sign (the prefab's scale is taken to be 1). */
module PlayerController {

  datatype Tuning = Tuning(coyoteTime: int, jumpBufferTime: int, wallJumpingTime: int)

  datatype Frame = Frame(
    dt: nat,
    horizontal: int,
    grounded: bool,
    walled: bool,
    wallOnLeft: bool,    // wallCheck.position.x < transform.position.x
    wallOnRight: bool,   // wallCheck.position.x > transform.position.x
    jumpPressed: bool,
    dashPressed: bool,   // right mouse button
    attackPressed: bool, // left mouse button
    canAttack: bool,     // animator is in Idle, Run, Jump or Fall
    flipPressed: bool)   // F key

  /** The animator trigger an Update fires for an attack. */
  datatype AttackTrigger = NoAttack | Slash | Sweep

  datatype Pose = Pose(horizontal: int, isFacingRight: bool, scaleX: int, isGrounded: bool, wasGrounded: bool)
  datatype Counters = Counters(coyoteCounter: int, jumpBufferCounter: int)
  datatype Wall = Wall(
    isWallSliding: bool, isWallJumping: bool, wallJumpingDirection: int, wallJumpingCounter: int,
    pendingStops: nat)  // Invoke(StopWallJumping) calls not yet run or cancelled
  datatype Action = Action(isDashing: bool, canDash: bool, isAttacking: bool)
  datatype Player = Player(pose: Pose, counters: Counters, wall: Wall, act: Action)

  datatype Outcome = Outcome(p: Player, trigger: AttackTrigger)

  function Started(): (p: Player)
    ensures p.act.canDash && !p.act.isDashing && !p.act.isAttacking && p.pose.isFacingRight
    ensures FacingMatchesScale(p)
  {
    Player(Pose(0, true, 1, false, false), Counters(0, 0), Wall(false, false, 0, 0, 0), Action(false, true, false))
  }

  /** Every flip changes isFacingRight and the transform's scale together. */
  predicate FacingMatchesScale(p: Player) {
    p.pose.scaleX == if p.pose.isFacingRight then 1 else -1
  }

  /** isFacingRight = !isFacingRight; Flip(). */
  function Turned(ps: Pose): (r: Pose)
    ensures r.isFacingRight == !ps.isFacingRight && r.scaleX == -ps.scaleX
    ensures r.isGrounded == ps.isGrounded && r.horizontal == ps.horizontal
  {
    ps.(isFacingRight := !ps.isFacingRight, scaleX := -ps.scaleX)
  }

  // ---------------------------------------------------------------- Update, up to the jump

  /** Sensing, coyote time, dash re-arm, jump buffer, wall slide and the wall
      jump setup (lines 71-137). */
  function SensePart(p: Player, t: Tuning, f: Frame): (r: Player)
    ensures r.pose.isGrounded == f.grounded && r.pose.horizontal == f.horizontal
    ensures r.counters.coyoteCounter == if f.grounded then t.coyoteTime else p.counters.coyoteCounter - f.dt
    ensures r.counters.jumpBufferCounter ==
              if f.jumpPressed then t.jumpBufferTime else p.counters.jumpBufferCounter - f.dt
    ensures r.act.canDash == (f.grounded || f.walled || p.act.canDash)
    ensures r.wall.isWallSliding <==> f.walled && !f.grounded && !p.wall.isWallJumping
    ensures r.wall.isWallSliding ==>
              r.wall.wallJumpingCounter == t.wallJumpingTime && r.wall.pendingStops == 0
              && r.wall.wallJumpingDirection == -r.pose.scaleX
    ensures !r.wall.isWallSliding ==>
              r.wall.wallJumpingCounter == p.wall.wallJumpingCounter - f.dt && r.wall.pendingStops == p.wall.pendingStops
              && r.wall.wallJumpingDirection == p.wall.wallJumpingDirection && r.pose.isFacingRight == p.pose.isFacingRight
    ensures r.wall.isWallJumping == p.wall.isWallJumping
    ensures r.act.isDashing == p.act.isDashing && r.act.isAttacking == p.act.isAttacking
    ensures FacingMatchesScale(p) ==> FacingMatchesScale(r)
  {
    var pose1 := p.pose.(horizontal := f.horizontal, isGrounded := f.grounded);
    var coyote := if f.grounded then t.coyoteTime else p.counters.coyoteCounter - f.dt;
    var act1 := if f.grounded || f.walled then p.act.(canDash := true) else p.act;
    var buffer := if f.jumpPressed then t.jumpBufferTime else p.counters.jumpBufferCounter - f.dt;
    var sliding := f.walled && !f.grounded && !p.wall.isWallJumping;
    var pose2 :=
      if !sliding then pose1
      else if f.wallOnLeft && pose1.isFacingRight then Turned(pose1)
      else if f.wallOnRight && !pose1.isFacingRight then Turned(pose1)
      else pose1;
    var wall1 :=
      if sliding then p.wall.(isWallSliding := true, wallJumpingDirection := -pose2.scaleX,
                              wallJumpingCounter := t.wallJumpingTime, pendingStops := 0)
      else p.wall.(isWallSliding := false, wallJumpingCounter := p.wall.wallJumpingCounter - f.dt);
    Player(pose2, Counters(coyote, buffer), wall1, act1)
  }

  datatype JumpKind = NoJump | WallJump | CoyoteJump

  /** A buffered press wall-jumps while sliding, or shortly after sliding while
      still walled in the air; only otherwise does it use coyote time. */
  function JumpChoice(p: Player, f: Frame): (k: JumpKind)
    ensures k == WallJump <==> (p.counters.jumpBufferCounter > 0
              && (p.wall.isWallSliding || (p.wall.wallJumpingCounter > 0 && !f.grounded && f.walled)))
    ensures k == CoyoteJump <==> p.counters.jumpBufferCounter > 0 && k != WallJump && p.counters.coyoteCounter > 0
  {
    if p.counters.jumpBufferCounter > 0 then
      if p.wall.isWallSliding || (p.wall.wallJumpingCounter > 0 && !f.grounded && f.walled) then WallJump
      else if p.counters.coyoteCounter > 0 then CoyoteJump
      else NoJump
    else NoJump
  }

  /** Lines 140-167. */
  function JumpPart(p: Player, f: Frame): (r: Player)
    ensures JumpChoice(p, f) == WallJump ==>
              r.wall.isWallJumping && r.wall.wallJumpingCounter == 0 && r.counters.jumpBufferCounter == 0
              && r.wall.pendingStops == p.wall.pendingStops + 1
              && r.counters.coyoteCounter == p.counters.coyoteCounter
              && r.pose.isFacingRight == (if p.pose.scaleX != p.wall.wallJumpingDirection then !p.pose.isFacingRight
                                          else p.pose.isFacingRight)
    ensures JumpChoice(p, f) == CoyoteJump ==>
              r.counters == Counters(0, 0) && r.wall == p.wall && r.pose == p.pose
    ensures JumpChoice(p, f) == NoJump ==> r == p
    ensures r.act == p.act && r.wall.isWallSliding == p.wall.isWallSliding && r.pose.isGrounded == p.pose.isGrounded
    ensures FacingMatchesScale(p) ==> FacingMatchesScale(r)
  {
    match JumpChoice(p, f)
    case WallJump =>
      var pose1 := if p.pose.scaleX != p.wall.wallJumpingDirection then Turned(p.pose) else p.pose;
      p.(wall := p.wall.(isWallJumping := true, wallJumpingCounter := 0, pendingStops := p.wall.pendingStops + 1),
         counters := p.counters.(jumpBufferCounter := 0),
         pose := pose1)
    case CoyoteJump => p.(counters := Counters(0, 0))
    case NoJump => p
  }

  // ---------------------------------------------------------------- the rest of Update

  predicate DashGate(p: Player, f: Frame) {
    f.dashPressed && !p.act.isDashing && !p.wall.isWallSliding && p.act.canDash
  }

  /** The part of DoDash before its wait. */
  function DashStarted(a: Action): (r: Action)
    ensures r.isDashing && r.isAttacking && !r.canDash
  {
    Action(true, false, true)
  }

  /** Lines 183-205: an attack needs no attack in progress and an animator
      state that allows it; the trigger is Slash on the ground, Sweep in the air. */
  function AttackPart(p: Player, f: Frame): (o: Outcome)
    ensures o.trigger != NoAttack <==> f.attackPressed && !p.act.isAttacking && f.canAttack
    ensures o.trigger == Slash <==> o.trigger != NoAttack && p.pose.isGrounded
    ensures o.trigger != NoAttack ==> o.p == p.(act := p.act.(isAttacking := true))
    ensures o.trigger == NoAttack ==> o.p == p
  {
    if f.attackPressed && !p.act.isAttacking && f.canAttack then
      Outcome(p.(act := p.act.(isAttacking := true)), if p.pose.isGrounded then Slash else Sweep)
    else Outcome(p, NoAttack)
  }

  /** Lines 209-231: facing follows the input unless wall-jumping or sliding;
      F turns the player; the grounded flag is remembered. */
  function FlipPart(p: Player, f: Frame): (r: Player)
    ensures !p.wall.isWallJumping && !p.wall.isWallSliding && p.pose.horizontal != 0 && !f.flipPressed ==>
              r.pose.isFacingRight == (p.pose.horizontal > 0)
    ensures (p.wall.isWallJumping || p.wall.isWallSliding || p.pose.horizontal == 0) ==>
              r.pose.isFacingRight == (p.pose.isFacingRight != f.flipPressed)
    ensures r.pose.wasGrounded == p.pose.isGrounded
    ensures r.act == p.act && r.wall == p.wall && r.counters == p.counters
    ensures FacingMatchesScale(p) ==> FacingMatchesScale(r)
  {
    var pose1 :=
      if !p.wall.isWallJumping && !p.wall.isWallSliding && p.pose.horizontal != 0
         && ((p.pose.horizontal < 0 && p.pose.isFacingRight) || (p.pose.horizontal > 0 && !p.pose.isFacingRight))
      then Turned(p.pose) else p.pose;
    var pose2 := if f.flipPressed then Turned(pose1) else pose1;
    p.(pose := pose2.(wasGrounded := pose2.isGrounded))
  }

  /** One Update call and the attack trigger it fires. */
  function FrameStep(p: Player, t: Tuning, f: Frame): (o: Outcome)
    ensures p.act.isDashing ==> o == Outcome(p, NoAttack)
    // a dash ends the frame: no attack, no input flip, canDash cleared
    ensures !p.act.isDashing && DashGate(JumpPart(SensePart(p, t, f), f), f) ==>
              o.trigger == NoAttack && o.p.act == Action(true, false, true)
              && o.p.pose == JumpPart(SensePart(p, t, f), f).pose
    ensures o.trigger != NoAttack ==> !p.act.isAttacking && f.attackPressed && f.canAttack
    ensures o.trigger == Slash ==> f.grounded
    ensures o.trigger == Sweep ==> !f.grounded
  {
    if p.act.isDashing then Outcome(p, NoAttack)
    else
      var p1 := JumpPart(SensePart(p, t, f), f);
      if DashGate(p1, f) then Outcome(p1.(act := DashStarted(p1.act)), NoAttack)
      else
        var o := AttackPart(p1, f);
        Outcome(FlipPart(o.p, f), o.trigger)
  }

  // ---------------------------------------------------------------- properties

  /** A dash starts in an Update exactly when the button is pressed, the dash
      is armed (or ground or wall contact re-arms it in that frame) and the
      player is not wall sliding. */
  lemma DashNeedsGate(p: Player, t: Tuning, f: Frame)
    requires !p.act.isDashing
    ensures FrameStep(p, t, f).p.act.isDashing <==>
              f.dashPressed && (p.act.canDash || f.grounded || f.walled)
              && !(f.walled && !f.grounded && !p.wall.isWallJumping)
  {
  }

  /** Ground or wall contact re-arms the dash unless a dash starts in that frame. */
  lemma ContactRearmsDash(p: Player, t: Tuning, f: Frame)
    requires !p.act.isDashing && (f.grounded || f.walled)
    ensures FrameStep(p, t, f).p.act.canDash <==> !DashGate(JumpPart(SensePart(p, t, f), f), f)
  {
    var p1 := JumpPart(SensePart(p, t, f), f);
    assert p1.act.canDash;
    if !DashGate(p1, f) {
      var o := AttackPart(p1, f);
      assert o.p.act.canDash;
      assert FlipPart(o.p, f).act == o.p.act;
    }
  }

  /** Facing and scale never disagree. */
  lemma FrameKeepsFacing(p: Player, t: Tuning, f: Frame)
    requires FacingMatchesScale(p)
    ensures FacingMatchesScale(FrameStep(p, t, f).p)
  {
    if !p.act.isDashing {
      var p1 := JumpPart(SensePart(p, t, f), f);
      assert FacingMatchesScale(p1);
      if !DashGate(p1, f) {
        var o := AttackPart(p1, f);
        assert FacingMatchesScale(o.p);
      }
    }
  }

  /** A wall jump from a slide in the same frame always turns the player: the
      direction saved then is the opposite of the scale. */
  lemma SlideWallJumpTurns(p: Player, t: Tuning, f: Frame)
    requires FacingMatchesScale(p)
    requires SensePart(p, t, f).wall.isWallSliding && SensePart(p, t, f).counters.jumpBufferCounter > 0
    ensures JumpPart(SensePart(p, t, f), f).pose.isFacingRight == !SensePart(p, t, f).pose.isFacingRight
  {
    var s := SensePart(p, t, f);
    assert JumpChoice(s, f) == WallJump;
    assert s.pose.scaleX != s.wall.wallJumpingDirection;
  }

  // ---------------------------------------------------------------- the component

  class PlayerController {
    const tuning: Tuning
    var pose: Pose
    var counters: Counters
    var wall: Wall
    var act: Action

    function Snapshot(): Player
      reads this
    {
      Player(pose, counters, wall, act)
    }

    /** Field initialisers (Start only fetches components). */
    constructor (t: Tuning)
      ensures tuning == t && Snapshot() == Started()
    {
      tuning := t;
      pose := Pose(0, true, 1, false, false);
      counters := Counters(0, 0);
      wall := Wall(false, false, 0, 0, 0);
      act := Action(false, true, false);
    }

    method Update(f: Frame) returns (trigger: AttackTrigger)
      modifies this
      ensures Outcome(Snapshot(), trigger) == FrameStep(old(Snapshot()), tuning, f)
    {
      trigger := NoAttack;
      if act.isDashing { return; }
      Sense(f);
      HandleJumpInput(f);
      if f.dashPressed && !act.isDashing && !wall.isWallSliding && act.canDash {
        DoDash();
        return;
      }
      if f.attackPressed && !act.isAttacking {
        if f.canAttack {
          trigger := if pose.isGrounded then Slash else Sweep;
          act := act.(isAttacking := true);
        }
      }
      if !wall.isWallJumping && !wall.isWallSliding && pose.horizontal != 0 {
        if (pose.horizontal < 0 && pose.isFacingRight) || (pose.horizontal > 0 && !pose.isFacingRight) {
          TurnAround();
        }
      }
      if f.flipPressed { TurnAround(); }
      pose := pose.(wasGrounded := pose.isGrounded);
    }

    /** Update, lines 71-137. */
    method Sense(f: Frame)
      modifies this`pose, this`counters, this`wall, this`act
      ensures Snapshot() == SensePart(old(Snapshot()), tuning, f)
    {
      pose := pose.(horizontal := f.horizontal, isGrounded := f.grounded);
      if pose.isGrounded {
        counters := counters.(coyoteCounter := tuning.coyoteTime);
      } else {
        counters := counters.(coyoteCounter := counters.coyoteCounter - f.dt);
      }
      if pose.isGrounded || f.walled { act := act.(canDash := true); }
      if f.jumpPressed {
        counters := counters.(jumpBufferCounter := tuning.jumpBufferTime);
      } else {
        counters := counters.(jumpBufferCounter := counters.jumpBufferCounter - f.dt);
      }
      if f.walled && !pose.isGrounded && !wall.isWallJumping {
        wall := wall.(isWallSliding := true);
        if f.wallOnLeft && pose.isFacingRight { TurnAround(); }
        else if f.wallOnRight && !pose.isFacingRight { TurnAround(); }
      } else {
        wall := wall.(isWallSliding := false);
      }
      if wall.isWallSliding {
        wall := wall.(wallJumpingDirection := -pose.scaleX, wallJumpingCounter := tuning.wallJumpingTime);
        wall := wall.(pendingStops := 0);  // CancelInvoke(StopWallJumping)
      } else {
        wall := wall.(wallJumpingCounter := wall.wallJumpingCounter - f.dt);
      }
    }

    /** Update, lines 140-167. */
    method HandleJumpInput(f: Frame)
      modifies this`pose, this`counters, this`wall
      ensures Snapshot() == JumpPart(old(Snapshot()), f)
    {
      if counters.jumpBufferCounter > 0 {
        if wall.isWallSliding || (wall.wallJumpingCounter > 0 && !f.grounded && f.walled) {
          wall := wall.(isWallJumping := true, wallJumpingCounter := 0);
          counters := counters.(jumpBufferCounter := 0);
          if pose.scaleX != wall.wallJumpingDirection { TurnAround(); }
          wall := wall.(pendingStops := wall.pendingStops + 1);  // Invoke(StopWallJumping)
        } else if counters.coyoteCounter > 0 {
          counters := counters.(jumpBufferCounter := 0, coyoteCounter := 0);
        }
      }
    }

    /** isFacingRight = !isFacingRight followed by Flip(). */
    method TurnAround()
      modifies this`pose
      ensures pose == Turned(old(pose))
    {
      pose := pose.(isFacingRight := !pose.isFacingRight);
      pose := pose.(scaleX := pose.scaleX * -1);
    }

    /** StartCoroutine(DoDash()), up to its wait. */
    method DoDash()
      modifies this`act
      ensures act == DashStarted(old(act))
    {
      act := act.(isDashing := true, isAttacking := true, canDash := false);
    }

    /** DoDash resumes after dashDuration. */
    method DoDashFinished()
      modifies this`act
      ensures act == old(act).(isDashing := false, isAttacking := false)
    {
      act := act.(isDashing := false, isAttacking := false);
    }

    /** ResetAttack resumes after its delay. */
    method ResetAttackFinished()
      modifies this`act
      ensures act == old(act).(isAttacking := false)
    {
      act := act.(isAttacking := false);
    }

    /** An Invoke(StopWallJumping) comes due; cancelled ones never run. */
    method StopWallJumpingDue()
      modifies this`wall
      ensures old(wall.pendingStops) > 0 ==>
                wall == old(wall).(isWallJumping := false, pendingStops := old(wall.pendingStops) - 1)
      ensures old(wall.pendingStops) == 0 ==> wall == old(wall)
    {
      if wall.pendingStops > 0 {
        wall := wall.(isWallJumping := false, pendingStops := wall.pendingStops - 1);
      }
    }
  }
}
