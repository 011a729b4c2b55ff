/** SpiderController (Assets/Scripts/Enemies/Spider/SpiderController.cs): a
    stand-alone spider with 2 health, a hurt state ended by landing, a
    prepare-then-attack flag pair, the patrol walk, and a projectile fired on a
    cooldown while attacking. Without a groundCheck the spider never counts as
    grounded, so it never acts. `enabled` is the behaviour's enabled flag. */
module SpiderController {
  import opened Common
  import opened Enemies

  /** Inspector values and which references are assigned. */
  datatype Config = Config(
    damagePushForceX: real, damagePushForceY: real, projectileCooldown: int,
    hasGroundCheck: bool, hasPrefab: bool, hasSpawnPoint: bool, hasBody: bool)

  datatype Status = Status(health: int, isTakingDamage: bool, isDead: bool, enabled: bool)
  datatype Attack = Attack(isPreparingAttack: bool, isAttacking: bool, projectileCooldownTimer: int)
  datatype Spider = Spider(status: Status, senses: Senses, attack: Attack, motion: Motion)

  datatype Step = Step(s: Spider, shot: Shot)
  datatype Hit = Hit(s: Spider, push: Option<Impulse>)

  function Started(): (s: Spider)
    ensures s.status == Status(2, false, false, true)
    ensures !s.attack.isPreparingAttack && !s.attack.isAttacking && s.motion.isFacingRight
  {
    Spider(Status(2, false, false, true), Senses(false, false, false, false), Attack(false, false, 0), Motion(true, 0))
  }

  /** Lines 70-88: read the ground, disable a landed corpse, end the hurt state on landing. */
  function Grounding(s: Spider, c: Config, f: Frame): (r: Spider)
    ensures !c.hasGroundCheck ==> r == s
    ensures c.hasGroundCheck ==> r.senses.isGrounded == f.grounded
    ensures c.hasGroundCheck && f.grounded ==>
              !r.status.isTakingDamage && (r.status.enabled <==> s.status.enabled && !s.status.isDead)
    ensures c.hasGroundCheck && !f.grounded ==> r.status == s.status
    ensures r.attack == s.attack && r.motion == s.motion
    ensures r.status.health == s.status.health && r.status.isDead == s.status.isDead
  {
    if !c.hasGroundCheck then s
    else
      var s0 := s.(senses := s.senses.(isGrounded := f.grounded));
      var st := if s.status.isDead && f.grounded then s0.status.(enabled := false) else s0.status;
      s0.(status := if f.grounded then st.(isTakingDamage := false) else st)
  }

  /** Lines 90-154: the wall, edge and player checks and the choice between
      attacking a detected player and patrolling. */
  function Decided(s: Spider, f: Frame): (r: Spider)
    ensures r.status == s.status && r.senses == Sensed(s.senses, f)
    ensures r.senses.isPlayerDetected ==>
              r.attack.isPreparingAttack == (s.attack.isPreparingAttack || !s.attack.isAttacking)
              && r.attack.isAttacking == (s.attack.isAttacking || !s.attack.isPreparingAttack)
              && r.motion.isFacingRight == FacedPlayer(s.motion, f).isFacingRight
    ensures !r.senses.isPlayerDetected ==> !r.attack.isPreparingAttack && !r.attack.isAttacking
    ensures !r.senses.isPlayerDetected && s.senses.isGrounded ==> r.motion == Patrolled(s.motion, r.senses)
    ensures r.attack.projectileCooldownTimer == s.attack.projectileCooldownTimer
  {
    var sn := Sensed(s.senses, f);
    if sn.isPlayerDetected then
      var start := !s.attack.isPreparingAttack && !s.attack.isAttacking;
      var a := if start then s.attack.(isPreparingAttack := true, isAttacking := true) else s.attack;
      var m := if start then s.motion.(vx := 0) else s.motion;
      Spider(s.status, sn, a, if a.isPreparingAttack || a.isAttacking then FacedPlayer(m, f) else m)
    else
      var m := if sn.isGrounded then Patrolled(s.motion, sn) else s.motion.(vx := FacingSign(s.motion.isFacingRight));
      Spider(s.status, sn, s.attack.(isPreparingAttack := false, isAttacking := false), m)
  }

  predicate CanShoot(s: Spider) {
    s.attack.isAttacking && !s.status.isTakingDamage && s.senses.isGrounded
  }

  /** Lines 157-168: fire when the timer has run out and restart it, or count down. */
  function Projectile(s: Spider, c: Config, dt: nat): (r: Step)
    ensures !CanShoot(s) ==> r == Step(s, NotFired)
    ensures CanShoot(s) && s.attack.projectileCooldownTimer <= 0 ==>
              r.s == s.(attack := s.attack.(projectileCooldownTimer := c.projectileCooldown))
              && r.shot == Shoot(c.hasPrefab, c.hasSpawnPoint, c.hasBody, s.motion.isFacingRight)
    ensures CanShoot(s) && s.attack.projectileCooldownTimer > 0 ==>
              r == Step(s.(attack := s.attack.(projectileCooldownTimer := s.attack.projectileCooldownTimer - dt)), NotFired)
  {
    if !CanShoot(s) then Step(s, NotFired)
    else if s.attack.projectileCooldownTimer <= 0 then
      Step(s.(attack := s.attack.(projectileCooldownTimer := c.projectileCooldown)),
           Shoot(c.hasPrefab, c.hasSpawnPoint, c.hasBody, s.motion.isFacingRight))
    else
      Step(s.(attack := s.attack.(projectileCooldownTimer := s.attack.projectileCooldownTimer - dt)), NotFired)
  }

  /** One Update, when the engine calls it. */
  function Updated(s: Spider, c: Config, f: Frame): (r: Step)
    ensures !s.status.enabled ==> r == Step(s, NotFired)
    ensures r.s.status.health == s.status.health && r.s.status.isDead == s.status.isDead
  {
    if !s.status.enabled then Step(s, NotFired)
    else
      var s1 := Grounding(s, c, f);
      var s2 := if !s1.status.isTakingDamage && s1.senses.isGrounded then Decided(s1, f) else s1;
      Projectile(s2, c, f.dt)
  }

  /** A shot needs an enabled spider that, by the end of the frame's
      checks, is attacking, unhurt and grounded, with the timer run out and
      both the prefab and the spawn point present. */
  lemma ShotNeedsCanShoot(s: Spider, c: Config, f: Frame)
    ensures Updated(s, c, f).shot.Fired? ==>
              s.status.enabled && CanShoot(Updated(s, c, f).s)
              && s.attack.projectileCooldownTimer <= 0 && c.hasPrefab && c.hasSpawnPoint
  {
  }

  /** The hurt, airborne spider does nothing but wait; landing unblocks it. */
  lemma HurtAirborneWaits(s: Spider, c: Config, f: Frame)
    requires s.status.enabled && s.status.isTakingDamage && !f.grounded
    ensures Updated(s, c, f).s.motion == s.motion && Updated(s, c, f).shot == NotFired
    ensures Updated(s, c, f).s.attack == s.attack
  {
  }

  /** TakeDamage: hurt, one point less, pushed away from where it faces, and dead
      with a purely horizontal push once health reaches 0. */
  function Damaged(s: Spider, c: Config): (h: Hit)
    ensures s.status.isDead ==> h == Hit(s, None)
    ensures !s.status.isDead ==>
              h.s == s.(status := s.status.(isTakingDamage := true, health := s.status.health - 1,
                                            isDead := s.status.health - 1 <= 0))
    ensures !s.status.isDead ==>
              h.push == Some(Impulse(-FacingSign(s.motion.isFacingRight) as real * c.damagePushForceX,
                                     if s.status.health - 1 <= 0 then 0.0 else c.damagePushForceY))
  {
    if s.status.isDead then Hit(s, None)
    else
      var health := s.status.health - 1;
      var pushDirection := if s.motion.isFacingRight then -1.0 else 1.0;
      var push := if health <= 0 then Impulse(pushDirection * c.damagePushForceX, 0.0)
                  else Impulse(pushDirection * c.damagePushForceX, c.damagePushForceY);
      Hit(s.(status := s.status.(isTakingDamage := true, health := health, isDead := health <= 0)), Some(push))
  }

  /** The spider starts with 2 health: the first hit hurts, the second kills,
      and later hits change nothing. */
  lemma SecondHitKills(c: Config, s3: Spider)
    requires s3 == Damaged(Damaged(Started(), c).s, c).s
    ensures !Damaged(Started(), c).s.status.isDead
    ensures s3.status.isDead && s3.status.health == 0
    ensures Damaged(s3, c) == Hit(s3, None)
  {
  }

  /** OnPrepAttackComplete, the animation event. */
  function PrepCompleted(a: Attack): (r: Attack)
    ensures !r.isPreparingAttack && r.isAttacking
    ensures r.projectileCooldownTimer == a.projectileCooldownTimer
  {
    a.(isPreparingAttack := false, isAttacking := true)
  }

  class SpiderController {
    const config: Config
    var status: Status
    var senses: Senses
    var attack: Attack
    var motion: Motion

    function Snapshot(): Spider
      reads this
    {
      Spider(status, senses, attack, motion)
    }

    constructor (c: Config)
      ensures config == c && Snapshot() == Started()
    {
      config := c;
      status := Status(2, false, false, true);
      senses := Senses(false, false, false, false);
      attack := Attack(false, false, 0);
      motion := Motion(true, 0);
    }

    method Update(f: Frame) returns (shot: Shot)
      modifies this
      ensures Step(Snapshot(), shot) == Updated(old(Snapshot()), config, f)
    {
      shot := NotFired;
      if !status.enabled { return; }
      if config.hasGroundCheck {
        senses := senses.(isGrounded := f.grounded);
        if status.isDead && senses.isGrounded {
          status := status.(enabled := false);  // layer "Dead"
        }
        if senses.isGrounded {
          status := status.(isTakingDamage := false);
        }
      }
      if !status.isTakingDamage && senses.isGrounded {
        Decide(f);
      }
      if attack.isAttacking && !status.isTakingDamage && senses.isGrounded {
        if attack.projectileCooldownTimer <= 0 {
          shot := ShootProjectile();
          attack := attack.(projectileCooldownTimer := config.projectileCooldown);
        } else {
          attack := attack.(projectileCooldownTimer := attack.projectileCooldownTimer - f.dt);
        }
      }
    }

    /** Lines 94-151 of Update. */
    method Decide(f: Frame)
      modifies this`senses, this`attack, this`motion
      ensures Snapshot() == Decided(old(Snapshot()), f)
    {
      senses := senses.(isWallAhead := f.wallAhead, isEdgeAhead := f.edgeAhead);
      senses := senses.(isPlayerDetected := f.playerPresent && f.playerInRadius);
      if senses.isPlayerDetected {
        if !attack.isPreparingAttack && !attack.isAttacking {
          attack := attack.(isPreparingAttack := true, isAttacking := true);
          motion := motion.(vx := 0);
        }
        if attack.isPreparingAttack || attack.isAttacking {
          if (f.playerRight && !motion.isFacingRight) || (f.playerLeft && motion.isFacingRight) {
            Flip();
          }
        }
      } else {
        attack := attack.(isPreparingAttack := false, isAttacking := false);
        if senses.isGrounded {
          if !senses.isEdgeAhead || senses.isWallAhead {
            Flip();
          }
        }
        motion := motion.(vx := if motion.isFacingRight then 1 else -1);
      }
    }

    method TakeDamage() returns (push: Option<Impulse>)
      modifies this`status
      ensures Hit(Snapshot(), push) == Damaged(old(Snapshot()), config)
    {
      push := None;
      if status.isDead { return; }
      status := status.(isTakingDamage := true);
      status := status.(health := status.health - 1);
      var pushDirection := if motion.isFacingRight then -1.0 else 1.0;
      if status.health <= 0 {
        status := status.(isDead := true);
        push := Some(Impulse(pushDirection * config.damagePushForceX, 0.0));
      } else {
        push := Some(Impulse(pushDirection * config.damagePushForceX, config.damagePushForceY));
      }
    }

    method OnPrepAttackComplete()
      modifies this`attack
      ensures attack == PrepCompleted(old(attack))
    {
      attack := attack.(isPreparingAttack := false, isAttacking := true);
    }

    method Flip()
      modifies this`motion
      ensures motion == Flipped(old(motion))
    {
      motion := motion.(isFacingRight := !motion.isFacingRight);
    }

    method ShootProjectile() returns (shot: Shot)
      ensures shot == Shoot(config.hasPrefab, config.hasSpawnPoint, config.hasBody, motion.isFacingRight)
    {
      if !config.hasPrefab || !config.hasSpawnPoint { return NotFired; }
      shot := Fired(config.hasBody, if motion.isFacingRight then 1 else -1);
    }
  }
}
