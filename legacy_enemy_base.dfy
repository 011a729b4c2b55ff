/** EnemyBase (Assets/Scripts/EnemyBase.cs): the older enemy base class, which
    SpiderPatrol extends. Health is a fixed 2, a hit pushes the enemy away from
    where it faces, landing ends the hurt state, a dead enemy that lands
    disables itself, and a grounded enemy either prepares an attack toward a
    detected player or patrols. `enabled` is the behaviour's enabled flag: the
    engine stops calling Update once it is false. */
module LegacyEnemyBase {
  import opened Common
  import opened Enemies

  /** Inspector values damagePushForceX and damagePushForceY. */
  datatype Config = Config(damagePushForceX: real, damagePushForceY: real)

  datatype Status = Status(health: int, isTakingDamage: bool, isDead: bool, enabled: bool)
  datatype Attack = Attack(isPreparingAttack: bool, isAttacking: bool)
  datatype Enemy = Enemy(status: Status, senses: Senses, attack: Attack, motion: Motion)

  datatype Hit = Hit(e: Enemy, push: Option<Impulse>)

  /** Field initialisers; Start only looks up components and the player. */
  function Started(): (e: Enemy)
    ensures e.status == Status(2, false, false, true)
    ensures e.attack == Attack(false, false) && e.motion.isFacingRight
  {
    Enemy(Status(2, false, false, true), Senses(false, false, false, false), Attack(false, false), Motion(true, 0))
  }

  /** The AI of a grounded, unhurt frame: attack a detected player, else patrol. */
  function Decided(e: Enemy, f: Frame): (r: Enemy)
    ensures r.status == e.status
    ensures r.senses == Sensed(e.senses, f)
    ensures r.senses.isPlayerDetected && !e.attack.isPreparingAttack && !e.attack.isAttacking ==>
              r.attack == Attack(true, true) && r.motion == FacedPlayer(e.motion.(vx := 0), f)
    ensures r.senses.isPlayerDetected && (e.attack.isPreparingAttack || e.attack.isAttacking) ==>
              r.attack == e.attack && r.motion == FacedPlayer(e.motion, f)
    ensures !r.senses.isPlayerDetected ==> r.attack == Attack(false, false) && r.motion == Patrolled(e.motion, r.senses)
  {
    var s := Sensed(e.senses, f);
    if s.isPlayerDetected then
      var started := !e.attack.isPreparingAttack && !e.attack.isAttacking;
      var a := if started then Attack(true, true) else e.attack;
      var m := if started then e.motion.(vx := 0) else e.motion;
      Enemy(e.status, s, a, FacedPlayer(m, f))
    else
      Enemy(e.status, s, Attack(false, false), Patrolled(e.motion, s))
  }

  /** Update, when the engine calls it (the behaviour is enabled). */
  function Updated(e: Enemy, f: Frame): (r: Enemy)
    ensures !e.status.enabled ==> r == e
    ensures e.status.enabled ==> r.senses.isGrounded == f.grounded
    // a dead enemy that lands disables itself
    ensures e.status.enabled ==> (r.status.enabled <==> !(e.status.isDead && f.grounded))
    // landing ends the hurt state, and the AI waits for the ground
    ensures e.status.enabled && f.grounded ==> !r.status.isTakingDamage
    ensures e.status.enabled && !f.grounded ==>
              r.attack == e.attack && r.motion == e.motion && r.status.isTakingDamage == e.status.isTakingDamage
    ensures e.status.enabled && f.grounded ==>
              r == Decided(e.(status := r.status, senses := e.senses.(isGrounded := true)), f)
    ensures r.status.health == e.status.health && r.status.isDead == e.status.isDead
  {
    if !e.status.enabled then e
    else
      var s0 := e.senses.(isGrounded := f.grounded);
      var st1 := if e.status.isDead && f.grounded then e.status.(enabled := false) else e.status;
      var st2 := if st1.isTakingDamage && f.grounded then st1.(isTakingDamage := false) else st1;
      var e1 := e.(status := st2, senses := s0);
      if st2.isTakingDamage || !f.grounded then e1 else Decided(e1, f)
  }

  /** TakeDamage: the push is away from the facing direction and has no
      vertical part when the hit is lethal. */
  function Damaged(e: Enemy, c: Config): (h: Hit)
    ensures e.status.isDead ==> h == Hit(e, None)
    ensures !e.status.isDead ==>
              h.e == e.(status := e.status.(isTakingDamage := true, health := e.status.health - 1,
                                            isDead := e.status.health - 1 <= 0))
    ensures !e.status.isDead ==>
              h.push == Some(Impulse(-FacingSign(e.motion.isFacingRight) as real * c.damagePushForceX,
                                     if e.status.health - 1 <= 0 then 0.0 else c.damagePushForceY))
  {
    if e.status.isDead then Hit(e, None)
    else
      var health := e.status.health - 1;
      var pushDirection := if e.motion.isFacingRight then -1.0 else 1.0;
      var push := Impulse(pushDirection * c.damagePushForceX, if health <= 0 then 0.0 else c.damagePushForceY);
      Hit(e.(status := e.status.(isTakingDamage := true, health := health, isDead := health <= 0)), Some(push))
  }

  function Hits(e: Enemy, c: Config, n: nat): Enemy
    decreases n
  {
    if n == 0 then e else Hits(Damaged(e, c).e, c, n - 1)
  }

  /** Each hit on a live enemy costs one point and leaves it hurt, and it is
      dead exactly once its health is used up. */
  lemma {:induction false} HitsCountDown(e: Enemy, c: Config, n: nat)
    requires !e.status.isDead && n <= e.status.health
    ensures Hits(e, c, n).status.health == e.status.health - n
    ensures Hits(e, c, n).status.isDead <==> n == e.status.health && n > 0
    ensures n > 0 ==> Hits(e, c, n).status.isTakingDamage
    decreases n
  {
    if n > 1 {
      HitsCountDown(Damaged(e, c).e, c, n - 1);
    }
  }

  /** With the initial health of 2, one hit hurts and the second kills. */
  lemma TwoHitsKill(c: Config)
    ensures !Hits(Started(), c, 1).status.isDead && Hits(Started(), c, 1).status.health == 1
    ensures Hits(Started(), c, 2).status.isDead && Hits(Started(), c, 2).status.health == 0
  {
    HitsCountDown(Started(), c, 1);
    HitsCountDown(Started(), c, 2);
  }

  class EnemyBase {
    const config: Config
    var status: Status
    var senses: Senses
    var attack: Attack
    var motion: Motion

    function Snapshot(): Enemy
      reads this
    {
      Enemy(status, senses, attack, motion)
    }

    constructor (c: Config)
      ensures config == c && Snapshot() == Started()
    {
      config := c;
      status := Status(2, false, false, true);
      senses := Senses(false, false, false, false);
      attack := Attack(false, false);
      motion := Motion(true, 0);
    }

    /** Update; the engine skips a disabled behaviour, so then nothing happens. */
    method Update(f: Frame)
      modifies this
      ensures Snapshot() == Updated(old(Snapshot()), f)
    {
      if !status.enabled { return; }
      senses := senses.(isGrounded := f.grounded);
      if status.isDead && senses.isGrounded {
        status := status.(enabled := false);  // layer "Dead"
      }
      if status.isTakingDamage && senses.isGrounded {
        status := status.(isTakingDamage := false);
      }
      if status.isTakingDamage || !senses.isGrounded { return; }
      Decide(f);
    }

    /** Update from the wall, edge and player checks on. */
    method Decide(f: Frame)
      modifies this`senses, this`attack, this`motion
      ensures Snapshot() == Decided(old(Snapshot()), f)
    {
      senses := senses.(isWallAhead := f.wallAhead, isEdgeAhead := f.edgeAhead);
      senses := senses.(isPlayerDetected := f.playerPresent && f.playerInRadius);
      if senses.isPlayerDetected {
        if !attack.isPreparingAttack && !attack.isAttacking {
          attack := Attack(true, true);
          motion := motion.(vx := 0);
        }
        if (f.playerRight && !motion.isFacingRight) || (f.playerLeft && motion.isFacingRight) {
          Flip();
        }
      } else {
        attack := Attack(false, false);
        if !senses.isEdgeAhead || senses.isWallAhead {
          Flip();
        }
        motion := motion.(vx := if motion.isFacingRight then 1 else -1);
      }
    }

    method TakeDamage() returns (push: Option<Impulse>)
      modifies this`status
      ensures Hit(Snapshot(), push) == Damaged(old(Snapshot()), config)
    {
      push := None;
      if status.isDead { return; }
      status := status.(isTakingDamage := true);
      status := status.(health := status.health - 1);
      var pushDirection := if motion.isFacingRight then -1.0 else 1.0;
      push := Some(if status.health <= 0 then Impulse(pushDirection * config.damagePushForceX, 0.0)
                   else Impulse(pushDirection * config.damagePushForceX, config.damagePushForceY));
      if status.health <= 0 {
        status := status.(isDead := true);
      }
    }

    method Flip()
      modifies this`motion
      ensures motion == Flipped(old(motion))
    {
      motion := motion.(isFacingRight := !motion.isFacingRight);
    }
  }
}
