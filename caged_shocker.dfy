/** CagedShocker (Assets/Scripts/CagedShocker.cs): an EnemyBase that never
    patrols (CanMove is false). Within attack range it runs AttackSequence:
    prepare, hold the charge until the attack cooldown has run out, slide
    forward with the hitbox on, then keep the hitbox on for the rest of its
    window. Within detection range it walks toward the player. A hit cancels
    the attack; death keeps the collider and clears the hurt state.
    The coroutine's waits are events: PrepElapsed (WaitForSeconds(prepDuration)),
    Resume (a frame's `yield return null`) and TailElapsed (the remaining
    hitbox time). Time is in integer ticks. */
module CagedShocker {
  import opened Common
  import opened Enemies
  import EB = EnemyBase

  /** attackCooldown, slideTime and fastHitboxActiveTime in ticks, and whether
      attackCollider is assigned. */
  datatype Config = Config(attackCooldown: int, slideTime: int, fastHitboxActiveTime: int, hasAttackCollider: bool)

  /** Where AttackSequence is suspended, if it is running. */
  datatype Phase = Idle | Preparing | Charging | Sliding(elapsed: int) | HitboxTail

  datatype Combat = Combat(attackCooldownTimer: int, isAttacking: bool, hitboxEnabled: bool, phase: Phase)
  datatype Shocker = Shocker(core: EB.Enemy, fight: Combat)

  datatype Hit = Hit(s: Shocker, push: Option<Impulse>)

  /** isAttacking is true exactly while AttackSequence runs, and the hitbox is
      on only from the strike to the end of the sequence. */
  predicate Inv(s: Shocker, c: Config) {
    (s.fight.isAttacking <==> s.fight.phase != Idle)
    && (s.fight.hitboxEnabled <==> c.hasAttackCollider && (s.fight.phase.Sliding? || s.fight.phase == HitboxTail))
  }

  function Started(e: EB.Config): (s: Shocker)
    ensures s.core == EB.Started(e) && s.fight == Combat(0, false, false, Idle)
  {
    Shocker(EB.Started(e), Combat(0, false, false, Idle))
  }

  lemma StartedValid(e: EB.Config, c: Config)
    ensures Inv(Started(e), c)
  {
  }

  /** StartCoroutine(AttackSequence()) up to its first wait. */
  function AttackBegun(f: Combat, c: Config): (r: Combat)
    ensures r == Combat(c.attackCooldown, true, f.hitboxEnabled, Preparing)
  {
    f.(isAttacking := true, attackCooldownTimer := c.attackCooldown, phase := Preparing)
  }

  /** The end of AttackSequence. */
  function Finished(f: Combat): (r: Combat)
    ensures !r.isAttacking && !r.hitboxEnabled && r.phase == Idle
    ensures r.attackCooldownTimer == f.attackCooldownTimer
  {
    f.(hitboxEnabled := false, isAttacking := false, phase := Idle)
  }

  /** One pass of the slide loop with `timer` elapsed, and what follows it. */
  function SlideStep(s: Shocker, c: Config, timer: int, dt: nat): (r: Shocker)
    requires Inv(s, c) && s.fight.isAttacking && s.fight.hitboxEnabled == c.hasAttackCollider
    ensures Inv(r, c)
    ensures timer < c.slideTime ==>
              r.fight.phase == Sliding(timer + dt) && r.core.motion.vx == FacingSign(s.core.motion.isFacingRight)
    ensures timer >= c.slideTime ==> r.core.motion.vx == 0
    ensures timer >= c.slideTime && c.fastHitboxActiveTime - c.slideTime > 0 ==> r.fight.phase == HitboxTail
    ensures timer >= c.slideTime && c.fastHitboxActiveTime - c.slideTime <= 0 ==> r.fight == Finished(s.fight)
    ensures r.core.life == s.core.life && r.fight.attackCooldownTimer == s.fight.attackCooldownTimer
  {
    if timer < c.slideTime then
      Shocker(s.core.(motion := s.core.motion.(vx := FacingSign(s.core.motion.isFacingRight))),
              s.fight.(phase := Sliding(timer + dt)))
    else
      var core := s.core.(motion := s.core.motion.(vx := 0));
      if c.fastHitboxActiveTime - c.slideTime > 0 then Shocker(core, s.fight.(phase := HitboxTail))
      else Shocker(core, Finished(s.fight))
  }

  /** A frame's resumption of AttackSequence at a `yield return null`: the
      charge holds while the cooldown runs, then the strike turns the hitbox on
      and starts the slide. */
  function Resumed(s: Shocker, c: Config, dt: nat): (r: Shocker)
    requires Inv(s, c)
    ensures Inv(r, c)
    ensures s.fight.phase == Charging && s.fight.attackCooldownTimer > 0 ==> r == s
    // the fast attack begins only once the cooldown has run out
    ensures s.fight.phase == Charging && r.fight.phase != Charging ==> s.fight.attackCooldownTimer <= 0
    ensures !(s.fight.phase == Charging || s.fight.phase.Sliding?) ==> r == s
    ensures r.core.life == s.core.life && r.fight.attackCooldownTimer == s.fight.attackCooldownTimer
  {
    match s.fight.phase
    case Charging =>
      if s.fight.attackCooldownTimer > 0 then s
      else SlideStep(s.(fight := s.fight.(hitboxEnabled := c.hasAttackCollider, phase := Sliding(0))), c, 0, dt)
    case Sliding(timer) => SlideStep(s, c, timer, dt)
    case _ => s
  }

  /** WaitForSeconds(prepDuration) completes; the hold loop is checked at once. */
  function PrepElapsed(s: Shocker, c: Config, dt: nat): (r: Shocker)
    requires Inv(s, c) && s.fight.phase == Preparing
    ensures Inv(r, c)
    ensures s.fight.attackCooldownTimer > 0 ==> r.fight.phase == Charging
  {
    Resumed(s.(fight := s.fight.(phase := Charging)), c, dt)
  }

  /** The remaining hitbox window ends. */
  function TailElapsed(s: Shocker, c: Config): (r: Shocker)
    requires Inv(s, c) && s.fight.phase == HitboxTail
    ensures Inv(r, c) && r.fight == Finished(s.fight) && r.core == s.core
  {
    s.(fight := Finished(s.fight))
  }

  /** Update: the base update, the cooldown tick, then (when free) attack in
      range, walk toward a detected player, or idle. */
  function Updated(s: Shocker, c: Config, f: Frame): (r: Shocker)
    requires Inv(s, c)
    ensures Inv(r, c)
    // the cooldown ticks whatever state the shocker is in
    ensures r.fight.attackCooldownTimer ==
              if r.fight.phase == Preparing && s.fight.phase == Idle then c.attackCooldown
              else if s.fight.attackCooldownTimer > 0 then s.fight.attackCooldownTimer - f.dt
              else s.fight.attackCooldownTimer
    ensures r.core.life == EB.Updated(s.core, false, f).life
    // dead, hurt or attacking: no movement decision
    ensures (r.core.life.isDead || r.core.life.isTakingDamage || s.fight.isAttacking) ==>
              r.core == EB.Updated(s.core, false, f) && r.fight.phase == s.fight.phase
    ensures !r.core.life.isDead && !r.core.life.isTakingDamage && !s.fight.isAttacking ==>
              (f.inAttackRange ==> r.core.motion.vx == 0 && r.fight.phase == Preparing)
              && (!f.inAttackRange && r.core.senses.isPlayerDetected ==>
                    r.core.motion.isFacingRight == !f.playerLeft && r.core.motion.vx == (if f.playerLeft then -1 else 1))
              && (!f.inAttackRange && !r.core.senses.isPlayerDetected ==> r.core.motion.vx == 0 && r.fight.phase == Idle)
  {
    var core := EB.Updated(s.core, false, f);
    var timer := if s.fight.attackCooldownTimer > 0 then s.fight.attackCooldownTimer - f.dt else s.fight.attackCooldownTimer;
    var fight := s.fight.(attackCooldownTimer := timer);
    if core.life.isDead || core.life.isTakingDamage || fight.isAttacking then Shocker(core, fight)
    else if f.inAttackRange then
      Shocker(core.(motion := core.motion.(vx := 0)), AttackBegun(fight, c))
    else if core.senses.isPlayerDetected then
      var dir := if f.playerLeft then -1 else 1;
      var m := core.motion.(vx := dir);
      var m1 := if (dir > 0 && !m.isFacingRight) || (dir < 0 && m.isFacingRight) then Flipped(m) else m;
      Shocker(core.(motion := m1), fight)
    else Shocker(core.(motion := core.motion.(vx := 0)), fight)
  }

  /** TakeDamage, with dx = transform.position.x - player.position.x. */
  function Damaged(s: Shocker, e: EB.Config, c: Config, dx: int): (h: Hit)
    requires Inv(s, c)
    ensures Inv(h.s, c)
    ensures s.core.life.isDead ==> h == Hit(s, None)
    // a hit cancels the attack and turns the hitbox off
    ensures !s.core.life.isDead ==>
              !h.s.fight.isAttacking && !h.s.fight.hitboxEnabled && h.s.fight.phase == Idle
              && h.s.core.life.currentHealth == s.core.life.currentHealth - 1 && h.s.core.motion.vx == 0
    ensures !s.core.life.isDead && s.core.life.currentHealth - 1 <= 0 ==>
              h.s.core.life.isDead && !h.s.core.life.isTakingDamage
              && h.s.core.life.coinsDropped == s.core.life.coinsDropped + EB.Drops(e)
              && h.s.fight.attackCooldownTimer == s.fight.attackCooldownTimer
              && h.push == Some(Impulse(MathfSign(dx) as real * 5.0, 0.0))
    ensures !s.core.life.isDead && s.core.life.currentHealth - 1 > 0 ==>
              !h.s.core.life.isDead && h.s.core.life.isTakingDamage
              && h.s.fight.attackCooldownTimer == c.attackCooldown
              && h.push == Some(Impulse(MathfSign(dx) as real * 4.0, 2.5))
  {
    if s.core.life.isDead then Hit(s, None)
    else
      var fight := if s.fight.isAttacking then Finished(s.fight) else s.fight;
      var life := s.core.life.(currentHealth := s.core.life.currentHealth - 1);
      var core := s.core.(motion := s.core.motion.(vx := 0));
      var pushDir := MathfSign(dx) as real;
      if life.currentHealth <= 0 then
        var dead := EB.Died(life, e).(isTakingDamage := false);
        Hit(Shocker(core.(life := dead), fight), Some(Impulse(pushDir * 5.0, 0.0)))
      else
        Hit(Shocker(core.(life := life.(isTakingDamage := true)), fight.(attackCooldownTimer := c.attackCooldown)),
            Some(Impulse(pushDir * 4.0, 2.5)))
  }

  /** OnCollisionEnter2D: touching the player starts an attack when free. */
  function Touched(s: Shocker, c: Config, playerTagged: bool): (r: Shocker)
    requires Inv(s, c)
    ensures Inv(r, c)
    ensures (s.core.life.isDead || s.core.life.isTakingDamage || s.fight.isAttacking || !playerTagged) ==> r == s
    ensures !s.core.life.isDead && !s.core.life.isTakingDamage && !s.fight.isAttacking && playerTagged ==>
              r == s.(fight := AttackBegun(s.fight, c))
  {
    if s.core.life.isDead || s.core.life.isTakingDamage || s.fight.isAttacking then s
    else if playerTagged then s.(fight := AttackBegun(s.fight, c))
    else s
  }

  /** OnTriggerEnter2D: whether the player is sent TakeDamage. */
  function DamagesPlayer(f: Combat, c: Config, playerTagged: bool): (b: bool)
    ensures b <==> c.hasAttackCollider && f.hitboxEnabled && f.isAttacking && playerTagged
  {
    if !c.hasAttackCollider || !f.hitboxEnabled then false
    else if !f.isAttacking then false
    else playerTagged
  }

  /** Under the invariant, only the strike and its hitbox window hurt the player. */
  lemma OnlyStrikesHurt(s: Shocker, c: Config, playerTagged: bool)
    requires Inv(s, c) && DamagesPlayer(s.fight, c, playerTagged)
    ensures s.fight.phase.Sliding? || s.fight.phase == HitboxTail
  {
  }

  class CagedShocker {
    const base: EB.EnemyBase
    const config: Config
    var fight: Combat

    function Snapshot(): Shocker
      reads this, base
    {
      Shocker(base.Snapshot(), fight)
    }

    /** Start: the base start, and the attack collider switched off. */
    constructor (e: EB.Config, c: Config)
      ensures fresh(base) && base.config == e && !base.canMove && config == c
      ensures Snapshot() == Started(e)
    {
      base := new EB.EnemyBase(e, false);
      config := c;
      fight := Combat(0, false, false, Idle);
    }

    method Update(f: Frame)
      requires Inv(Snapshot(), config) && !base.canMove
      modifies this, base
      ensures Snapshot() == Updated(old(Snapshot()), config, f)
    {
      base.Update(f);
      if fight.attackCooldownTimer > 0 {
        fight := fight.(attackCooldownTimer := fight.attackCooldownTimer - f.dt);
      }
      if base.life.isDead || base.life.isTakingDamage { return; }
      if fight.isAttacking { return; }
      Decide(f);
    }

    /** Update, from the range checks on. */
    method Decide(f: Frame)
      requires !fight.isAttacking
      modifies this`fight, base`motion
      ensures var s := old(Snapshot());
              Snapshot() == if f.inAttackRange then Shocker(s.core.(motion := s.core.motion.(vx := 0)), AttackBegun(s.fight, config))
                            else if s.core.senses.isPlayerDetected then
                              Shocker(s.core.(motion := Motion(!f.playerLeft, if f.playerLeft then -1 else 1)), s.fight)
                            else Shocker(s.core.(motion := s.core.motion.(vx := 0)), s.fight)
    {
      if f.inAttackRange {
        base.motion := base.motion.(vx := 0);
        if !fight.isAttacking {
          AttackSequence();
        }
      } else if base.senses.isPlayerDetected {
        var dir := if f.playerLeft then -1 else 1;
        base.motion := base.motion.(vx := dir);
        if (dir > 0 && !base.motion.isFacingRight) || (dir < 0 && base.motion.isFacingRight) {
          base.Flip();
        }
      } else {
        base.motion := base.motion.(vx := 0);
      }
    }

    /** StartCoroutine(AttackSequence()), up to WaitForSeconds(prepDuration). */
    method AttackSequence()
      modifies this`fight
      ensures fight == AttackBegun(old(fight), config)
    {
      fight := fight.(isAttacking := true, attackCooldownTimer := config.attackCooldown);
      fight := fight.(phase := Preparing);
    }

    /** AttackSequence resumes at a `yield return null`. */
    method Resume(dt: nat)
      requires Inv(Snapshot(), config)
      modifies this`fight, base`motion
      ensures Snapshot() == Resumed(old(Snapshot()), config, dt)
    {
      match fight.phase {
        case Charging =>
          if fight.attackCooldownTimer > 0 { return; }
          fight := fight.(hitboxEnabled := config.hasAttackCollider, phase := Sliding(0));
          Slide(0, dt);
        case Sliding(timer) =>
          Slide(timer, dt);
        case _ =>
      }
    }

    method Slide(timer: int, dt: nat)
      requires Inv(Snapshot(), config) && fight.phase.Sliding?
      modifies this`fight, base`motion
      ensures Snapshot() == SlideStep(old(Snapshot()), config, timer, dt)
    {
      if timer < config.slideTime {
        base.motion := base.motion.(vx := if base.motion.isFacingRight then 1 else -1);
        fight := fight.(phase := Sliding(timer + dt));
      } else {
        base.motion := base.motion.(vx := 0);
        if config.fastHitboxActiveTime - config.slideTime > 0 {
          fight := fight.(phase := HitboxTail);
        } else {
          fight := fight.(hitboxEnabled := false, isAttacking := false, phase := Idle);
        }
      }
    }

    method PrepDurationElapsed(dt: nat)
      requires Inv(Snapshot(), config) && fight.phase == Preparing
      modifies this`fight, base`motion
      ensures Snapshot() == PrepElapsed(old(Snapshot()), config, dt)
    {
      fight := fight.(phase := Charging);
      Resume(dt);
    }

    method HitboxWindowElapsed()
      requires Inv(Snapshot(), config) && fight.phase == HitboxTail
      modifies this`fight
      ensures Snapshot() == TailElapsed(old(Snapshot()), config)
    {
      fight := fight.(hitboxEnabled := false, isAttacking := false, phase := Idle);
    }

    method TakeDamage(dx: int) returns (push: Option<Impulse>)
      requires Inv(Snapshot(), config)
      modifies this`fight, base`life, base`motion
      ensures Hit(Snapshot(), push) == Damaged(old(Snapshot()), base.config, config, dx)
    {
      push := None;
      if base.life.isDead { return; }
      if fight.isAttacking {
        fight := fight.(isAttacking := false, phase := Idle);  // StopAllCoroutines
        fight := fight.(hitboxEnabled := false);
      }
      base.life := base.life.(currentHealth := base.life.currentHealth - 1);
      base.motion := base.motion.(vx := 0);
      var pushDir := MathfSign(dx) as real;
      if base.life.currentHealth <= 0 {
        push := Some(Impulse(pushDir * 5.0, 0.0));
        base.Die();
        OnDeath();
        return;
      }
      base.life := base.life.(isTakingDamage := true);
      push := Some(Impulse(pushDir * 4.0, 2.5));
      fight := fight.(attackCooldownTimer := config.attackCooldown);
    }

    /** The OnDeath override. */
    method OnDeath()
      modifies base`life
      ensures base.life == old(base.life).(isTakingDamage := false)
    {
      base.life := base.life.(isTakingDamage := false);
    }

    method OnCollisionEnter2D(playerTagged: bool)
      requires Inv(Snapshot(), config)
      modifies this`fight
      ensures Snapshot() == Touched(old(Snapshot()), config, playerTagged)
    {
      if base.life.isDead || base.life.isTakingDamage || fight.isAttacking { return; }
      if playerTagged {
        AttackSequence();
      }
    }

    method OnTriggerEnter2D(playerTagged: bool) returns (damagesPlayer: bool)
      ensures damagesPlayer == DamagesPlayer(fight, config, playerTagged)
    {
      damagesPlayer := false;
      if !config.hasAttackCollider || !fight.hitboxEnabled { return; }
      if !fight.isAttacking { return; }
      if playerTagged {
        damagesPlayer := true;
      }
    }
  }
}
