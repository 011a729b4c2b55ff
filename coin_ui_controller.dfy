/** CoinUIController (Assets/Scripts/Items/Coins/CoinUIController.cs): the
    coin counter label. It mirrors the player's coinsCollected into its text
    and into the session, refreshing only when the count differs from the last
    one shown; the starting -1 forces the first refresh. At Start the player's
    and the session's counts are both raised to the larger of the two. The
    player and the session are what FindObjectOfType and GameSession.Instance
    return in that call, so they are parameters. */
module CoinUIController {
  import opened Common
  import PC = PlayerControllerV24
  import GS = GameSession
  import DecimalText

  /** The max-sync of Start: returns the player's and the session's new counts. */
  function Synced(playerCoins: int, sessionCoins: int): (r: (int, int))
    ensures r.0 == r.1 == Max(playerCoins, sessionCoins)
    ensures r.0 >= playerCoins && r.1 >= sessionCoins
  {
    if sessionCoins > playerCoins then (sessionCoins, sessionCoins)
    else if playerCoins > sessionCoins then (playerCoins, playerCoins)
    else (playerCoins, sessionCoins)
  }

  /** Syncing twice changes nothing more: no coins are lost or made up. */
  lemma SyncIdempotent(p: int, s: int)
    ensures Synced(Synced(p, s).0, Synced(p, s).1) == Synced(p, s)
    ensures Synced(p, s).0 == p || Synced(p, s).0 == s
  {
  }

  class CoinUIController {
    /** Whether the coinText reference is assigned. */
    const hasCoinText: bool
    var player: Option<PC.PlayerController2D>
    var lastCoinCount: int
    var coinText: string

    /** The label text has been written for lastCoinCount, unless it is the starting -1. */
    predicate Shows()
      reads this
    {
      lastCoinCount != -1 ==> hasCoinText && coinText == DecimalText.Show(lastCoinCount)
    }

    constructor (hasCoinText: bool, text: string)
      ensures this.hasCoinText == hasCoinText && player.None? && lastCoinCount == -1 && coinText == text
      ensures Shows()
    {
      this.hasCoinText := hasCoinText;
      player := None;
      lastCoinCount := -1;
      coinText := text;
    }

    method Start(found: Option<PC.PlayerController2D>, session: Option<GS.GameSession>)
      requires Shows()
      modifies this`player, this`lastCoinCount, this`coinText
      modifies (if found.Some? then {found.value} else {})`life
      modifies if session.Some? then {session.value} else {}
      ensures player == found && Shows()
      ensures found.Some? && session.Some? ==>
                found.value.life == old(found.value.life).(coinsCollected := found.value.life.coinsCollected)
                && (found.value.life.coinsCollected, session.value.moedas)
                   == Synced(old(found.value.life.coinsCollected), old(session.value.moedas))
      ensures found.Some? && session.None? ==> found.value.life == old(found.value.life)
      ensures session.Some? && found.None? ==> session.value.moedas == old(session.value.moedas)
      ensures session.Some? ==> session.value.vida == old(session.value.vida)
      ensures found.Some? && hasCoinText ==>
                lastCoinCount == found.value.life.coinsCollected
                && coinText == DecimalText.Show(found.value.life.coinsCollected)
      ensures found.None? || !hasCoinText ==> lastCoinCount == old(lastCoinCount) && coinText == old(coinText)
    {
      player := found;
      if session.Some? && player.Some? {
        var gs, p := session.value, player.value;
        if gs.moedas > p.life.coinsCollected {
          p.life := p.life.(coinsCollected := gs.moedas);
        } else if p.life.coinsCollected > gs.moedas {
          gs.moedas := p.life.coinsCollected;
        }
      }
      UpdateCoinText();
    }

    /** Update; `found` is what FindObjectOfType returns when the player is missing. */
    method Update(found: Option<PC.PlayerController2D>, session: Option<GS.GameSession>)
      requires Shows()
      modifies this`player, this`lastCoinCount, this`coinText
      modifies if session.Some? then {session.value} else {}
      ensures Shows()
      ensures old(player).Some? ==> player == old(player)
      ensures old(player).None? ==> player == found
      ensures session.Some? ==> session.value.vida == old(session.value.vida)
      // a count that changed is shown and passed on to the session
      ensures old(player).Some? && old(player).value.life.coinsCollected != old(lastCoinCount) ==>
                (hasCoinText ==> lastCoinCount == player.value.life.coinsCollected
                                 && coinText == DecimalText.Show(player.value.life.coinsCollected))
                && (session.Some? ==> session.value.moedas == player.value.life.coinsCollected)
      // an unchanged count leaves everything alone
      ensures old(player).Some? && old(player).value.life.coinsCollected == old(lastCoinCount) ==>
                lastCoinCount == old(lastCoinCount) && coinText == old(coinText)
                && (session.Some? ==> session.value.moedas == old(session.value.moedas))
      // a player found again is shown, and the session is left alone
      ensures old(player).None? ==>
                (session.Some? ==> session.value.moedas == old(session.value.moedas))
                && (found.Some? && hasCoinText ==> lastCoinCount == found.value.life.coinsCollected)
    {
      if player.Some? {
        if player.value.life.coinsCollected != lastCoinCount {
          UpdateCoinText();
          if session.Some? {
            session.value.moedas := player.value.life.coinsCollected;
          }
        }
      } else {
        player := found;
        if player.Some? {
          UpdateCoinText();
        }
      }
    }

    method UpdateCoinText()
      requires Shows()
      modifies this`lastCoinCount, this`coinText
      ensures Shows()
      ensures hasCoinText && player.Some? ==>
                coinText == DecimalText.Show(player.value.life.coinsCollected)
                && lastCoinCount == player.value.life.coinsCollected
      ensures !(hasCoinText && player.Some?) ==> lastCoinCount == old(lastCoinCount) && coinText == old(coinText)
    {
      if hasCoinText && player.Some? {
        coinText := DecimalText.Show(player.value.life.coinsCollected);
        lastCoinCount := player.value.life.coinsCollected;
      }
    }

    /** OnCoinCollected(amount): the amount is not added; the label and the
        session are refreshed from the player's count. */
    method OnCoinCollected(amount: int, session: Option<GS.GameSession>)
      requires Shows()
      modifies this`lastCoinCount, this`coinText
      modifies if session.Some? then {session.value} else {}
      ensures Shows()
      ensures player.Some? ==> player.value.life == old(player.value.life)
      ensures player.Some? && session.Some? ==> session.value.Snapshot() == GS.Saved(player.value.life)
      ensures player.None? ==> lastCoinCount == old(lastCoinCount) && coinText == old(coinText)
      ensures player.None? && session.Some? ==> session.value.Snapshot() == old(session.value.Snapshot())
    {
      if player.Some? {
        UpdateCoinText();
        if session.Some? {
          session.value.moedas := player.value.life.coinsCollected;
          session.value.SalvarEstado(player);
        }
      }
    }
  }
}
