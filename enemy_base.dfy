/** EnemyBase (Assets/Scripts/Enemies/Base/EnemyBase.cs): the newer enemy base
    class. It carries a health count set from maxHealth on Start, a
    damage-recovery wait, the patrol walk gated by CanMove, an idempotent Die
    that drops coins, and ResetEnemy. Coins are counted, not simulated; Die's
    OnDeath hook is empty here (CagedShocker supplies its own). */
module EnemyBase {
  import opened Common
  import opened Enemies

  /** Inspector values: maxHealth, coinsToDrop, and whether coinPrefab is set. */
  datatype Config = Config(maxHealth: int, coinsToDrop: int, hasCoinPrefab: bool)

  datatype Vitals = Vitals(
    currentHealth: int,
    startingHealth: int,
    isTakingDamage: bool,
    isDead: bool,
    coinsDropped: nat)  // coins Instantiated by Die so far

  datatype Enemy = Enemy(life: Vitals, senses: Senses, motion: Motion)

  /** The result of TakeDamage: the new state and the impulse applied, if any. */
  datatype Hit = Hit(e: Enemy, push: Option<Impulse>)

  /** The state after Start. */
  function Started(c: Config): (e: Enemy)
    ensures e.life.currentHealth == c.maxHealth && e.life.startingHealth == c.maxHealth
    ensures !e.life.isDead && !e.life.isTakingDamage && e.life.coinsDropped == 0
    ensures e.motion.isFacingRight
  {
    Enemy(Vitals(c.maxHealth, c.maxHealth, false, false, 0), Senses(false, false, false, false), Motion(true, 0))
  }

  /** The number of coins one Die spawns. */
  function Drops(c: Config): (n: nat)
    ensures n > 0 <==> c.hasCoinPrefab && c.coinsToDrop > 0
    ensures n > 0 ==> n == c.coinsToDrop
  {
    if c.hasCoinPrefab && c.coinsToDrop > 0 then c.coinsToDrop else 0
  }

  /** Die: only the first call marks the enemy dead and drops its coins. */
  function Died(v: Vitals, c: Config): (r: Vitals)
    ensures v.isDead ==> r == v
    ensures !v.isDead ==> r == v.(isDead := true, coinsDropped := v.coinsDropped + Drops(c))
  {
    if v.isDead then v else v.(isDead := true, coinsDropped := v.coinsDropped + Drops(c))
  }

  /** TakeDamage, with dx = transform.position.x - player.position.x. */
  function Damaged(e: Enemy, c: Config, dx: int): (h: Hit)
    ensures e.life.isDead ==> h == Hit(e, None)
    ensures !e.life.isDead ==>
              h.e.life.currentHealth == e.life.currentHealth - 1
              && h.e.life.startingHealth == e.life.startingHealth
              && h.e.motion == e.motion.(vx := 0) && h.e.senses == e.senses
    // the damage state is entered only from a health above 1, so never on a lethal hit
    ensures !e.life.isDead ==>
              h.e.life.isTakingDamage == (e.life.isTakingDamage || e.life.currentHealth > 1)
    ensures !e.life.isDead && e.life.currentHealth - 1 <= 0 ==>
              h.e.life.isDead && h.e.life.coinsDropped == e.life.coinsDropped + Drops(c)
              && h.push == Some(Impulse(MathfSign(dx) as real * 5.0, 0.0))
    ensures !e.life.isDead && e.life.currentHealth - 1 > 0 ==>
              !h.e.life.isDead && h.e.life.coinsDropped == e.life.coinsDropped
              && h.push == Some(Impulse(MathfSign(dx) as real * 5.0, 5.0))
  {
    if e.life.isDead then Hit(e, None)
    else
      var v1 := if e.life.currentHealth > 1 then e.life.(isTakingDamage := true) else e.life;
      var v2 := v1.(currentHealth := v1.currentHealth - 1);
      var push := if v2.currentHealth <= 0 then Impulse(MathfSign(dx) as real * 5.0, 0.0)
                  else Impulse(MathfSign(dx) as real * 5.0, 5.0);
      var v3 := if v2.currentHealth <= 0 then Died(v2, c) else v2;
      Hit(Enemy(v3, e.senses, e.motion.(vx := 0)), Some(push))
  }

  /** ResetEnemy: starting health back, alive and not hurt. */
  function Reset(e: Enemy): (r: Enemy)
    ensures r.life == e.life.(currentHealth := e.life.startingHealth, isDead := false, isTakingDamage := false)
    ensures r.senses == e.senses && r.motion == e.motion
  {
    e.(life := e.life.(currentHealth := e.life.startingHealth, isDead := false, isTakingDamage := false))
  }

  /** Update: death stops the AI, a hurt enemy waits until it rests on the
      ground, and a grounded enemy senses and then patrols if it may move. */
  function Updated(e: Enemy, canMove: bool, f: Frame): (r: Enemy)
    ensures r.senses.isGrounded == f.grounded
    ensures e.life.isDead ==> r == e.(senses := e.senses.(isGrounded := f.grounded))
    ensures !e.life.isDead && e.life.isTakingDamage && !(f.grounded && f.verticalStill) ==>
              r == e.(senses := e.senses.(isGrounded := f.grounded))
    ensures !e.life.isDead ==> r.life == e.life.(isTakingDamage := r.life.isTakingDamage)
    ensures !e.life.isDead && f.grounded && (f.verticalStill || !e.life.isTakingDamage) ==>
              !r.life.isTakingDamage && r.senses == Sensed(e.senses.(isGrounded := true), f)
              && r.motion == (if canMove then Patrolled(e.motion, r.senses) else e.motion.(vx := 0))
    ensures !f.grounded ==> r.motion == e.motion
  {
    var e0 := e.(senses := e.senses.(isGrounded := f.grounded));
    if e.life.isDead then e0
    else if e.life.isTakingDamage && !(f.grounded && f.verticalStill) then e0
    else
      var e1 := e0.(life := e0.life.(isTakingDamage := false));
      if !f.grounded then e1
      else
        var s := Sensed(e1.senses, f);
        var m := if canMove then Patrolled(e1.motion, s) else e1.motion.(vx := 0);
        Enemy(e1.life, s, m)
  }

  /** n hits in a row. */
  function Hits(e: Enemy, c: Config, dx: int, n: nat): Enemy
    decreases n
  {
    if n == 0 then e else Hits(Damaged(e, c, dx).e, c, dx, n - 1)
  }

  /** Fewer hits than the health count leave the enemy alive, one point lower
      per hit, with no coins dropped. */
  lemma {:induction false} SurvivesFewerHits(e: Enemy, c: Config, dx: int, n: nat)
    requires !e.life.isDead && n < e.life.currentHealth
    ensures !Hits(e, c, dx, n).life.isDead
    ensures Hits(e, c, dx, n).life.currentHealth == e.life.currentHealth - n
    ensures Hits(e, c, dx, n).life.coinsDropped == e.life.coinsDropped
    decreases n
  {
    if n > 0 {
      SurvivesFewerHits(Damaged(e, c, dx).e, c, dx, n - 1);
    }
  }

  /** Hits on a dead enemy change nothing. */
  lemma {:induction false} DeadStaysPut(e: Enemy, c: Config, dx: int, n: nat)
    requires e.life.isDead
    ensures Hits(e, c, dx, n) == e
    decreases n
  {
    if n > 0 {
      DeadStaysPut(Damaged(e, c, dx).e, c, dx, n - 1);
    }
  }

  /** As many hits as the health count kill the enemy, and however many more
      follow, its coins drop exactly once. */
  lemma {:induction false} KilledOnce(e: Enemy, c: Config, dx: int, n: nat)
    requires !e.life.isDead && n >= Max(e.life.currentHealth, 1)
    ensures Hits(e, c, dx, n).life.isDead
    ensures Hits(e, c, dx, n).life.coinsDropped == e.life.coinsDropped + Drops(c)
    ensures Hits(e, c, dx, n).life.currentHealth == Min(e.life.currentHealth, 1) - 1
    decreases n
  {
    var d := Damaged(e, c, dx).e;
    if e.life.currentHealth <= 1 {
      DeadStaysPut(d, c, dx, n - 1);
    } else {
      KilledOnce(d, c, dx, n - 1);
    }
  }

  /** startingHealth is written only by Start, so ResetEnemy after any number
      of hits brings back full health. */
  lemma {:induction false} ResetAfterHits(c: Config, dx: int, n: nat)
    ensures Reset(Hits(Started(c), c, dx, n)).life.currentHealth == c.maxHealth
    ensures !Reset(Hits(Started(c), c, dx, n)).life.isDead
  {
    HitsKeepStartingHealth(Started(c), c, dx, n);
  }

  lemma {:induction false} HitsKeepStartingHealth(e: Enemy, c: Config, dx: int, n: nat)
    ensures Hits(e, c, dx, n).life.startingHealth == e.life.startingHealth
    decreases n
  {
    if n > 0 {
      HitsKeepStartingHealth(Damaged(e, c, dx).e, c, dx, n - 1);
    }
  }

  /** Die twice is Die once. */
  lemma DieIdempotent(v: Vitals, c: Config)
    ensures Died(Died(v, c), c) == Died(v, c)
  {
  }

  class EnemyBase {
    const config: Config
    /** CanMove(); subclasses override it with a constant. */
    const canMove: bool
    var life: Vitals
    var senses: Senses
    var motion: Motion

    function Snapshot(): Enemy
      reads this
    {
      Enemy(life, senses, motion)
    }

    /** Start. */
    constructor (c: Config, canMove: bool)
      ensures config == c && this.canMove == canMove
      ensures Snapshot() == Started(c)
    {
      config := c;
      this.canMove := canMove;
      life := Vitals(c.maxHealth, c.maxHealth, false, false, 0);
      senses := Senses(false, false, false, false);
      motion := Motion(true, 0);
    }

    method Update(f: Frame)
      modifies this
      ensures Snapshot() == Updated(old(Snapshot()), canMove, f)
    {
      senses := senses.(isGrounded := f.grounded);
      if life.isDead { return; }
      if life.isTakingDamage {
        if senses.isGrounded && f.verticalStill {
          life := life.(isTakingDamage := false);
        } else {
          return;
        }
      }
      if !life.isTakingDamage && senses.isGrounded {
        senses := senses.(isWallAhead := f.wallAhead, isEdgeAhead := f.edgeAhead);
        if f.playerPresent {
          senses := senses.(isPlayerDetected := f.playerInRadius);
        } else {
          senses := senses.(isPlayerDetected := false);
        }
        if canMove {
          if !senses.isEdgeAhead || senses.isWallAhead {
            Flip();
          }
          motion := motion.(vx := if motion.isFacingRight then 1 else -1);
        } else {
          motion := motion.(vx := 0);
        }
      }
    }

    /** Die: the coin loop spawns coinsToDrop coins when a prefab is set. */
    method Die()
      modifies this`life
      ensures life == Died(old(life), config)
    {
      if life.isDead { return; }
      life := life.(isDead := true);
      if config.hasCoinPrefab && config.coinsToDrop > 0 {
        for i := 0 to config.coinsToDrop
          invariant life == old(life).(isDead := true, coinsDropped := old(life.coinsDropped) + i)
        {
          life := life.(coinsDropped := life.coinsDropped + 1);
        }
      }
    }

    /** TakeDamage(); dx is the player's offset as the push direction reads it. */
    method TakeDamage(dx: int) returns (push: Option<Impulse>)
      modifies this
      ensures Hit(Snapshot(), push) == Damaged(old(Snapshot()), config, dx)
    {
      push := None;
      if life.isDead { return; }
      if life.currentHealth > 1 {
        life := life.(isTakingDamage := true);
      }
      life := life.(currentHealth := life.currentHealth - 1);
      motion := motion.(vx := 0);
      var pushDirection := MathfSign(dx) as real;
      push := Some(if life.currentHealth <= 0 then Impulse(pushDirection * 5.0, 0.0)
                   else Impulse(pushDirection * 5.0, 5.0));
      if life.currentHealth <= 0 {
        Die();
      }
    }

    method Flip()
      modifies this`motion
      ensures motion == Flipped(old(motion))
    {
      motion := motion.(isFacingRight := !motion.isFacingRight);
    }

    method ResetEnemy()
      modifies this`life
      ensures Snapshot() == Reset(old(Snapshot()))
    {
      life := life.(currentHealth := life.startingHealth);
      life := life.(isDead := false, isTakingDamage := false);
    }
  }
}
