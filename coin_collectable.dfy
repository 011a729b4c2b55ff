/** CoinCollectable (Assets/Scripts/Items/Coins/CoinCollectable.cs): a coin
    that a Player-tagged collider collects once. The coin is latched as
    collected as soon as such a collider touches it, even when that collider
    has no PlayerController2D, in which case nothing is counted and the coin
    stays in the scene, dead. A counted coin adds its value to the player,
    passes the new count to the session, refreshes the coin label and
    deactivates itself. */
module CoinCollectable {
  import opened Common
  import PC = PlayerControllerV24
  import GS = GameSession
  import CUI = CoinUIController
  import DecimalText

  /** One trigger contact: whether the collider is tagged "Player" and
      whether it carries a PlayerController2D. */
  datatype Contact = Contact(playerTag: bool, hasController: bool)

  /** A coin's latch and activity. */
  datatype Coin = Coin(isCollected: bool, active: bool)

  /** The effect of one contact on the coin, and the coins it adds. */
  function Touched(c: Coin, t: Contact, value: int): (r: (Coin, int))
    ensures c.isCollected || !t.playerTag ==> r == (c, 0)
    ensures !c.isCollected && t.playerTag ==> r.0.isCollected
    ensures !c.isCollected && t.playerTag && t.hasController ==> r == (Coin(true, false), value)
    ensures !c.isCollected && t.playerTag && !t.hasController ==> r == (c.(isCollected := true), 0)
  {
    if c.isCollected || !t.playerTag then (c, 0)
    else if t.hasController then (Coin(true, false), value)
    else (c.(isCollected := true), 0)
  }

  /** The coins added over a run of contacts. */
  function Credited(c: Coin, ts: seq<Contact>, value: int): int
    decreases |ts|
  {
    if |ts| == 0 then 0
    else
      var r := Touched(c, ts[0], value);
      r.1 + Credited(r.0, ts[1..], value)
  }

  /** A coin is counted at most once: over any run of contacts it adds its
      value once or not at all, and nothing once it is latched. */
  lemma {:induction false} CountedAtMostOnce(c: Coin, ts: seq<Contact>, value: int)
    ensures c.isCollected ==> Credited(c, ts, value) == 0
    ensures Credited(c, ts, value) == 0 || Credited(c, ts, value) == value
    decreases |ts|
  {
    if |ts| > 0 {
      var r := Touched(c, ts[0], value);
      CountedAtMostOnce(r.0, ts[1..], value);
    }
  }

  class CoinCollectable {
    const value: int
    var isCollected: bool
    var active: bool

    constructor (value: int)
      ensures this.value == value && !isCollected && active
    {
      this.value := value;
      isCollected := false;
      active := true;
    }

    /** OnTriggerEnter2D. `player` is the collider's PlayerController2D (if
        any), `session` is GameSession.Instance, `coinUI` what FindObjectOfType
        finds; the sound and the delayed Destroy are not modelled. */
    method OnTriggerEnter2D(playerTag: bool, player: Option<PC.PlayerController2D>,
                            session: Option<GS.GameSession>, coinUI: Option<CUI.CoinUIController>)
      requires coinUI.Some? ==> coinUI.value.Shows()
      modifies this
      modifies (if player.Some? then {player.value} else {})`life
      modifies if session.Some? then {session.value} else {}
      modifies (if coinUI.Some? then {coinUI.value} else {})`lastCoinCount
      modifies (if coinUI.Some? then {coinUI.value} else {})`coinText
      ensures var r := Touched(Coin(old(isCollected), old(active)), Contact(playerTag, player.Some?), value);
              Coin(isCollected, active) == r.0
              && (player.Some? ==> player.value.life == old(player.value.life).(coinsCollected := old(player.value.life.coinsCollected) + r.1))
      ensures !old(isCollected) && playerTag && player.Some? && session.Some? ==>
                session.value.moedas == player.value.life.coinsCollected
      ensures session.Some? ==> session.value.vida == old(session.value.vida)
      ensures !(!old(isCollected) && playerTag && player.Some?) && session.Some? ==>
                session.value.moedas == old(session.value.moedas)
      ensures coinUI.Some? ==> coinUI.value.Shows()
      // the counter's label shows the new count exactly when the coin is credited
      ensures !old(isCollected) && playerTag && player.Some? && coinUI.Some? && coinUI.value.hasCoinText
              && coinUI.value.player.Some? ==>
                coinUI.value.coinText == DecimalText.Show(coinUI.value.player.value.life.coinsCollected)
                && coinUI.value.lastCoinCount == coinUI.value.player.value.life.coinsCollected
      ensures coinUI.Some? && !(!old(isCollected) && playerTag && player.Some? && coinUI.value.hasCoinText
                                && coinUI.value.player.Some?) ==>
                coinUI.value.coinText == old(coinUI.value.coinText)
                && coinUI.value.lastCoinCount == old(coinUI.value.lastCoinCount)
    {
      if isCollected { return; }
      if playerTag {
        isCollected := true;
        if player.Some? {
          var p := player.value;
          p.life := p.life.(coinsCollected := p.life.coinsCollected + value);
          if session.Some? {
            session.value.moedas := p.life.coinsCollected;
          }
          if coinUI.Some? {
            coinUI.value.UpdateCoinText();
          }
          active := false;
        }
      }
    }
  }
}
