/** GameSession (Assets/Scripts/GameSession.cs): the state carried between
    scenes, the coins (moedas) and health (vida). It loads both from the save
    slot at Start, copies them from the player (SalvarEstado) and back into
    the player (AplicarEstado), where health is applied only when it lies
    strictly between 0 and the player's maximum. */
module GameSession {
  import opened Common
  import PC = PlayerControllerV24
  import SS = SaveSystem
  import DecimalText

  datatype Session = Session(moedas: int, vida: int)

  /** Start's effect: a save, when present, gives both values. */
  function Loaded(s: Session, store: SS.Store): (r: Session)
    ensures !SS.HasSave(store) ==> r == s
    ensures SS.HasSave(store) ==> r == Session(store[SS.SaveKey].moedasColetadas, store[SS.SaveKey].vidaAtual)
  {
    match SS.LoadGame(store)
    case None => s
    case Some(d) => Session(d.moedasColetadas, d.vidaAtual)
  }

  /** SalvarEstado on a player. */
  function Saved(v: PC.Vitals): (r: Session)
    ensures r.moedas == v.coinsCollected && r.vida == v.currentHealth
  {
    Session(v.coinsCollected, v.currentHealth)
  }

  /** AplicarEstado on a player: coins always, health only in (0, maxHealth). */
  function Applied(s: Session, v: PC.Vitals): (r: PC.Vitals)
    ensures r.coinsCollected == s.moedas
    ensures 0 < s.vida < v.maxHealth ==> r.currentHealth == s.vida
    ensures !(0 < s.vida < v.maxHealth) ==> r.currentHealth == v.currentHealth
    ensures r == v.(coinsCollected := r.coinsCollected, currentHealth := r.currentHealth)
  {
    var v1 := v.(coinsCollected := s.moedas);
    if 0 < s.vida < v.maxHealth then v1.(currentHealth := s.vida) else v1
  }

  /** Saving a player and applying the session to the player of the next
      scene carries the coins over, and the health too when it is in range for
      the new player; applied to the same player it changes nothing. */
  lemma SaveThenApply(v: PC.Vitals, next: PC.Vitals)
    ensures Applied(Saved(v), next).coinsCollected == v.coinsCollected
    ensures 0 < v.currentHealth < next.maxHealth ==> Applied(Saved(v), next).currentHealth == v.currentHealth
    ensures v.currentHealth <= 0 || v.currentHealth >= next.maxHealth ==>
              Applied(Saved(v), next).currentHealth == next.currentHealth
    ensures Applied(Saved(v), v) == v
  {
  }

  /** A save written by SaveSystem.SaveGame restores the health but resets
      the session's coins to 0. */
  lemma StartAfterSaveGame(s: Session, store: SS.Store, scene: string, x: real, y: real, health: int)
    ensures Loaded(s, SS.Saved(store, SS.Recorded(scene, x, y, health))) == Session(0, health)
  {
  }

  class GameSession {
    var moedas: int
    var vida: int

    function Snapshot(): Session
      reads this
    {
      Session(moedas, vida)
    }

    /** Awake of the surviving instance, with the inspector values. */
    constructor (moedas: int, vida: int)
      ensures Snapshot() == Session(moedas, vida)
    {
      this.moedas := moedas;
      this.vida := vida;
    }

    method Start(prefs: SS.PlayerPrefs)
      modifies this
      ensures Snapshot() == Loaded(old(Snapshot()), prefs.entries)
    {
      if SS.HasSave(prefs.entries) {
        var data := SS.LoadGame(prefs.entries);
        if data.Some? {
          moedas := data.value.moedasColetadas;
          vida := data.value.vidaAtual;
        }
      }
    }

    method SalvarEstado(player: Option<PC.PlayerController2D>)
      modifies this
      ensures player.None? ==> Snapshot() == old(Snapshot())
      ensures player.Some? ==> Snapshot() == Saved(player.value.life)
    {
      if player.Some? {
        moedas := player.value.life.coinsCollected;
        vida := player.value.life.currentHealth;
      }
    }

    /** AplicarEstado. `coinText` is the text given to the coin counter's
        label when the player is there (the engine finds the label); the
        health bar refresh is not modelled. */
    method AplicarEstado(player: Option<PC.PlayerController2D>) returns (coinText: Option<string>)
      modifies (if player.Some? then {player.value} else {})`life
      ensures player.None? ==> coinText.None?
      ensures player.Some? ==> player.value.life == Applied(Snapshot(), old(player.value.life))
      ensures player.Some? ==> coinText == Some(DecimalText.Show(moedas))
    {
      coinText := None;
      if player.Some? {
        var p := player.value;
        p.life := p.life.(coinsCollected := moedas);
        if vida > 0 && vida < p.life.maxHealth {
          p.life := p.life.(currentHealth := vida);
        }
        coinText := Some(DecimalText.Show(p.life.coinsCollected));
      }
    }
  }
}
