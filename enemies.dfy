/** What the enemy scripts share: the per-frame physics answers they read
    (ground, wall and edge boxes, the player's distance and side), the facts
    they keep about their surroundings, their facing, and the patrol rule
    "turn at a wall or at the end of the floor, then walk the way you face". */
module Enemies {

  /** One frame's engine answers. */
  datatype Frame = Frame(
    dt: nat,
    grounded: bool,       // OverlapBox at groundCheck
    verticalStill: bool,  // |velocity.y| < 0.01
    wallAhead: bool,      // OverlapBox at wallCheck
    edgeAhead: bool,      // OverlapBox at edgeCheck: floor continues ahead
    playerPresent: bool,  // the player transform is not null
    playerInRadius: bool, // distance to the player <= detectionRadius
    inAttackRange: bool,  // distance to the player <= attackRange
    playerRight: bool,    // player.position.x > transform.position.x
    playerLeft: bool)     // player.position.x < transform.position.x

  datatype Senses = Senses(isGrounded: bool, isWallAhead: bool, isEdgeAhead: bool, isPlayerDetected: bool)

  /** Facing, and the sign of the horizontal velocity the script last wrote. */
  datatype Motion = Motion(isFacingRight: bool, vx: int)

  /** A force passed to AddForce with ForceMode2D.Impulse. */
  datatype Impulse = Impulse(x: real, y: real)

  /** `isFacingRight ? 1f : -1f`. */
  function FacingSign(right: bool): (s: int)
    ensures s == 1 || s == -1
    ensures s == 1 <==> right
  {
    if right then 1 else -1
  }

  /** Unity's Mathf.Sign: 1 for zero and positive values, -1 for negative ones. */
  function MathfSign(d: int): (s: int)
    ensures s == 1 || s == -1
    ensures s == 1 <==> d >= 0
  {
    if d >= 0 then 1 else -1
  }

  /** Flip(): turns the sprite; the velocity is left alone. */
  function Flipped(m: Motion): (r: Motion)
    ensures r.isFacingRight == !m.isFacingRight && r.vx == m.vx
  {
    m.(isFacingRight := !m.isFacingRight)
  }

  /** The wall, edge and player checks of a grounded frame. */
  function Sensed(s: Senses, f: Frame): (r: Senses)
    ensures r.isGrounded == s.isGrounded
    ensures r.isWallAhead == f.wallAhead && r.isEdgeAhead == f.edgeAhead
    ensures r.isPlayerDetected <==> f.playerPresent && f.playerInRadius
  {
    Senses(s.isGrounded, f.wallAhead, f.edgeAhead, f.playerPresent && f.playerInRadius)
  }

  predicate Blocked(s: Senses) {
    !s.isEdgeAhead || s.isWallAhead
  }

  /** Turn at a wall or at the end of the floor, then walk the way the enemy faces. */
  function Patrolled(m: Motion, s: Senses): (r: Motion)
    ensures r.isFacingRight == (m.isFacingRight != Blocked(s))
    ensures r.vx == FacingSign(r.isFacingRight)
  {
    var m1 := if Blocked(s) then Flipped(m) else m;
    m1.(vx := FacingSign(m1.isFacingRight))
  }

  /** Turn to face the player when it is on the other side. */
  function FacedPlayer(m: Motion, f: Frame): (r: Motion)
    ensures f.playerRight && !f.playerLeft ==> r.isFacingRight
    ensures f.playerLeft && !f.playerRight ==> !r.isFacingRight
    ensures !f.playerRight && !f.playerLeft ==> r == m
    ensures r.vx == m.vx
  {
    if (f.playerRight && !m.isFacingRight) || (f.playerLeft && m.isFacingRight) then Flipped(m) else m
  }

  /** What ShootProjectile does: nothing without a prefab or a spawn point;
      otherwise a projectile appears, and moves the way the spider faces when
      it has a Rigidbody2D. */
  datatype Shot = NotFired | Fired(moving: bool, direction: int)

  function Shoot(hasPrefab: bool, hasSpawnPoint: bool, hasBody: bool, facingRight: bool): (r: Shot)
    ensures r == NotFired <==> !hasPrefab || !hasSpawnPoint
    ensures r.Fired? ==> r.moving == hasBody && r.direction == FacingSign(facingRight)
  {
    if !hasPrefab || !hasSpawnPoint then NotFired else Fired(hasBody, FacingSign(facingRight))
  }

  /** Patrolling never keeps walking into what blocked it: the new velocity
      points away from the side that was blocked, and walking on needs no turn. */
  lemma PatrolTurnsAway(m: Motion, s: Senses)
    ensures Blocked(s) ==> Patrolled(m, s).vx == -FacingSign(m.isFacingRight)
    ensures !Blocked(s) ==> Patrolled(m, s).vx == FacingSign(m.isFacingRight)
    ensures Patrolled(Patrolled(m, s), s).isFacingRight == m.isFacingRight || !Blocked(s)
  {
  }
}
