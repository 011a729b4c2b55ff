/** CardData (Assets/Prefabs/Inventario/CardData.cs): a card asset and its
    effect on the player. A Health card raises maxHealth by its amount and
    heals by the same amount up to the new maximum; removing it lowers
    maxHealth again (never below 1) and caps currentHealth. Damage and
    SpeedBoost cards adjust private float tuning by reflection; the model's
    tuning is fixed, so the Damage card's cooldown change is not represented,
    and on the player's health these cards do nothing. */
module CardData {
  import opened Common
  import PC = PlayerControllerV24

  datatype CardEffect = Health | Damage | SpeedBoost

  /** A card asset. Assets are never changed at run time, so a card is a value. */
  datatype CardData = CardData(
    cardName: Option<string>,
    description: Option<string>,
    artwork: Option<Sprite>,
    effect: CardEffect,
    amount: int)

  predicate HealthCapped(v: PC.Vitals) {
    v.currentHealth <= v.maxHealth
  }

  /** The Health branch of ApplyEffect. */
  function HealthApplied(v: PC.Vitals, amount: int): (r: PC.Vitals)
    ensures r.maxHealth == v.maxHealth + amount
    ensures r.currentHealth == Min(v.currentHealth + amount, r.maxHealth)
    ensures HealthCapped(r)
    ensures HealthCapped(v) ==> r.currentHealth == v.currentHealth + amount
    ensures r == v.(maxHealth := r.maxHealth, currentHealth := r.currentHealth)
  {
    var maxHealth := v.maxHealth + amount;
    v.(maxHealth := maxHealth, currentHealth := Min(v.currentHealth + amount, maxHealth))
  }

  /** The Health branch of RemoveEffect. */
  function HealthRemoved(v: PC.Vitals, amount: int): (r: PC.Vitals)
    ensures r.maxHealth == Max(1, v.maxHealth - amount) && r.maxHealth >= 1
    ensures r.currentHealth == Min(v.currentHealth, r.maxHealth)
    ensures HealthCapped(r) && r.currentHealth <= v.currentHealth
    ensures r == v.(maxHealth := r.maxHealth, currentHealth := r.currentHealth)
  {
    var maxHealth := Max(1, v.maxHealth - amount);
    v.(maxHealth := maxHealth, currentHealth := Min(v.currentHealth, maxHealth))
  }

  /** ApplyEffect on the player's health fields. */
  function Applied(card: CardData, v: PC.Vitals): (r: PC.Vitals)
    ensures card.effect == Health ==> r == HealthApplied(v, card.amount)
    ensures card.effect != Health ==> r == v
  {
    match card.effect
    case Health => HealthApplied(v, card.amount)
    case _ => v
  }

  /** RemoveEffect on the player's health fields. */
  function Removed(card: CardData, v: PC.Vitals): (r: PC.Vitals)
    ensures card.effect == Health ==> r == HealthRemoved(v, card.amount)
    ensures card.effect != Health ==> r == v
  {
    match card.effect
    case Health => HealthRemoved(v, card.amount)
    case _ => v
  }

  /** Removing a card right after applying it gives back the maximum health
      the player had, provided it was at least 1. The heal is not taken back:
      the player keeps it up to the old maximum. */
  lemma ApplyThenRemove(card: CardData, v: PC.Vitals)
    requires v.maxHealth >= 1
    ensures Removed(card, Applied(card, v)).maxHealth == v.maxHealth
    ensures card.effect == Health && HealthCapped(v) ==>
              Removed(card, Applied(card, v)).currentHealth == Min(v.currentHealth + card.amount, v.maxHealth)
    ensures card.effect != Health ==> Removed(card, Applied(card, v)) == v
  {
    if card.effect == Health {
      var a := HealthApplied(v, card.amount);
      assert a.maxHealth - card.amount == v.maxHealth;
    }
  }

  /** Both operations keep currentHealth <= maxHealth, whatever came before. */
  lemma EffectsKeepCap(card: CardData, v: PC.Vitals)
    requires HealthCapped(v)
    ensures HealthCapped(Applied(card, v)) && HealthCapped(Removed(card, v))
  {
  }

  method ApplyEffect(card: CardData, pc: PC.PlayerController2D)
    modifies pc`life
    ensures pc.life == Applied(card, old(pc.life))
  {
    match card.effect {
      case Health =>
        pc.life := pc.life.(maxHealth := pc.life.maxHealth + card.amount);
        pc.life := pc.life.(currentHealth := Min(pc.life.currentHealth + card.amount, pc.life.maxHealth));
      case Damage =>
      case SpeedBoost =>
    }
  }

  method RemoveEffect(card: CardData, pc: PC.PlayerController2D)
    modifies pc`life
    ensures pc.life == Removed(card, old(pc.life))
  {
    match card.effect {
      case Health =>
        pc.life := pc.life.(maxHealth := Max(1, pc.life.maxHealth - card.amount));
        pc.life := pc.life.(currentHealth := Min(pc.life.currentHealth, pc.life.maxHealth));
      case Damage =>
      case SpeedBoost =>
    }
  }
}
