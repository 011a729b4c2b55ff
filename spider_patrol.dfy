/** SpiderPatrol (Assets/Scripts/SpiderPatrol.cs): the older EnemyBase with a
    projectile attack. Each frame runs the base Update first; then, while the
    spider is attacking, unhurt and grounded, a cooldown timer in ticks either
    fires a shot and restarts or counts down. */
module SpiderPatrol {
  import opened Enemies
  import LegacyEnemyBase

  /** projectileCooldown, and whether the prefab, the spawn point and the
      prefab's Rigidbody2D are present. */
  datatype Config = Config(projectileCooldown: int, hasPrefab: bool, hasSpawnPoint: bool, hasBody: bool)

  datatype Spider = Spider(core: LegacyEnemyBase.Enemy, projectileCooldownTimer: int)

  /** The frame's result and the shot it fired, if any. */
  datatype Step = Step(s: Spider, shot: Shot)

  predicate CanShoot(e: LegacyEnemyBase.Enemy) {
    e.attack.isAttacking && !e.status.isTakingDamage && e.senses.isGrounded
  }

  /** The projectile part of Update, after the base update. */
  function ProjectileStep(e: LegacyEnemyBase.Enemy, timer: int, c: Config, dt: nat): (r: Step)
    ensures r.s.core == e
    ensures !CanShoot(e) ==> r == Step(Spider(e, timer), NotFired)
    ensures CanShoot(e) && timer <= 0 ==>
              r.s.projectileCooldownTimer == c.projectileCooldown
              && r.shot == Shoot(c.hasPrefab, c.hasSpawnPoint, c.hasBody, e.motion.isFacingRight)
    ensures CanShoot(e) && timer > 0 ==> r == Step(Spider(e, timer - dt), NotFired)
  {
    if CanShoot(e) then
      if timer <= 0 then
        Step(Spider(e, c.projectileCooldown), Shoot(c.hasPrefab, c.hasSpawnPoint, c.hasBody, e.motion.isFacingRight))
      else Step(Spider(e, timer - dt), NotFired)
    else Step(Spider(e, timer), NotFired)
  }

  /** Update: base.Update, then the projectile rule on what it left. */
  function Updated(s: Spider, c: Config, f: Frame): (r: Step)
    ensures r.s.core == LegacyEnemyBase.Updated(s.core, f)
    ensures !s.core.status.enabled ==> r == Step(s, NotFired)
    ensures s.core.status.enabled ==> r == ProjectileStep(LegacyEnemyBase.Updated(s.core, f), s.projectileCooldownTimer, c, f.dt)
  {
    if !s.core.status.enabled then Step(s, NotFired)
    else ProjectileStep(LegacyEnemyBase.Updated(s.core, f), s.projectileCooldownTimer, c, f.dt)
  }

  /** A shot needs an enabled spider that is grounded in this frame and, after
      the base update, attacking and unhurt, with the timer run out and both
      the prefab and the spawn point present; while it cannot shoot the timer
      stands still. */
  lemma ShotNeedsCanShoot(s: Spider, c: Config, f: Frame)
    ensures Updated(s, c, f).shot.Fired? ==>
              s.core.status.enabled && f.grounded && CanShoot(LegacyEnemyBase.Updated(s.core, f))
              && s.projectileCooldownTimer <= 0 && c.hasPrefab && c.hasSpawnPoint
    ensures !CanShoot(LegacyEnemyBase.Updated(s.core, f)) ==>
              Updated(s, c, f).s.projectileCooldownTimer == s.projectileCooldownTimer
  {
  }

  /** With a positive cooldown, the frame after a shot never shoots: the timer
      was just set above zero. */
  lemma NoShotsBackToBack(s: Spider, c: Config, f1: Frame, f2: Frame)
    requires c.projectileCooldown > 0
    requires Updated(s, c, f1).shot.Fired?
    ensures Updated(Updated(s, c, f1).s, c, f2).shot == NotFired
  {
    var s1 := Updated(s, c, f1).s;
    assert s1.projectileCooldownTimer == c.projectileCooldown;
  }

  class SpiderPatrol {
    const base: LegacyEnemyBase.EnemyBase
    const config: Config
    var projectileCooldownTimer: int

    function Snapshot(): Spider
      reads this, base
    {
      Spider(base.Snapshot(), projectileCooldownTimer)
    }

    constructor (b: LegacyEnemyBase.Config, c: Config)
      ensures fresh(base) && base.config == b && config == c
      ensures Snapshot() == Spider(LegacyEnemyBase.Started(), 0)
    {
      base := new LegacyEnemyBase.EnemyBase(b);
      config := c;
      projectileCooldownTimer := 0;
    }

    method Update(f: Frame) returns (shot: Shot)
      modifies this, base
      ensures Step(Snapshot(), shot) == Updated(old(Snapshot()), config, f)
    {
      shot := NotFired;
      if !base.status.enabled { return; }
      base.Update(f);
      if base.attack.isAttacking && !base.status.isTakingDamage && base.senses.isGrounded {
        if projectileCooldownTimer <= 0 {
          shot := ShootProjectile();
          projectileCooldownTimer := config.projectileCooldown;
        } else {
          projectileCooldownTimer := projectileCooldownTimer - f.dt;
        }
      }
    }

    method ShootProjectile() returns (shot: Shot)
      ensures shot == Shoot(config.hasPrefab, config.hasSpawnPoint, config.hasBody, base.motion.isFacingRight)
    {
      if !config.hasPrefab || !config.hasSpawnPoint { return NotFired; }
      shot := Fired(config.hasBody, if base.motion.isFacingRight then 1 else -1);
    }
  }
}
