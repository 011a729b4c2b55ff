/** InventoryManager (Assets/Prefabs/Inventario/InventoryManager.cs): the
    persistent holder of the picked-up cards (a list) and the equipped cards
    (an array of consumeSlotCount entries), and the open/closed state of the
    inventory screen, which pauses the game and blocks the player while open. */
module InventoryManager {
  import opened Common
  import CD = CardData
  import IC = InventarioController
  import PC = PlayerControllerV24

  /** The inventory screen: the isOpen flag, whether the UI root is active, and
      Time.timeScale. */
  datatype Screen = Screen(isOpen: bool, rootActive: bool, timeScale: real)

  /** The screen is shown exactly when open and the game runs exactly when closed. */
  predicate Consistent(s: Screen) {
    s.rootActive == s.isOpen && s.timeScale == (if s.isOpen then 0.0 else 1.0)
  }

  /** ToggleUI's effect on the screen. */
  function Toggled(s: Screen): (r: Screen)
    ensures r.isOpen == !s.isOpen
    ensures r.rootActive == r.isOpen
    ensures r.timeScale == 0.0 <==> r.isOpen
    ensures Consistent(r)
  {
    var open := !s.isOpen;
    Screen(open, open, if open then 0.0 else 1.0)
  }

  /** Two toggles give back the open state, and of a consistent screen the
      whole screen. */
  lemma ToggleTwice(s: Screen)
    ensures Toggled(Toggled(s)).isOpen == s.isOpen
    ensures Consistent(s) ==> Toggled(Toggled(s)) == s
  {
  }

  /** The equipped array after EquipCard(i, card): only an in-range index is written. */
  function Equipped(cards: seq<Option<CD.CardData>>, i: int, card: Option<CD.CardData>): (r: seq<Option<CD.CardData>>)
    ensures |r| == |cards|
    ensures 0 <= i < |cards| ==> r[i] == card
    ensures forall k :: 0 <= k < |cards| && k != i ==> r[k] == cards[k]
    ensures !(0 <= i < |cards|) ==> r == cards
  {
    if 0 <= i < |cards| then cards[i := card] else cards
  }

  /** The card list after AddCard: a null card is ignored. */
  function Added(cards: seq<CD.CardData>, card: Option<CD.CardData>): (r: seq<CD.CardData>)
    ensures card.None? ==> r == cards
    ensures card.Some? ==> |r| == |cards| + 1 && r[..|cards|] == cards && r[|cards|] == card.value
  {
    if card.Some? then cards + [card.value] else cards
  }

  /** A card added is in the list as many more times as it was, once. */
  lemma AddedOnce(cards: seq<CD.CardData>, c: CD.CardData)
    ensures multiset(Added(cards, Some(c)))[c] == multiset(cards)[c] + 1
    ensures multiset(Added(cards, None)) == multiset(cards)
  {
    assert Added(cards, Some(c)) == cards + [c];
  }

  class InventoryManager {
    /** The InventarioController of the instantiated inventory prefab. */
    const ui: IC.InventarioController
    /** The player found by the "Player" tag, if any. */
    const player: Option<PC.PlayerController2D>
    var inventoryCards: seq<CD.CardData>
    const equippedCards: array<Option<CD.CardData>>
    var screen: Screen

    /** Awake for the instance that becomes the singleton: an empty card list,
        an equipped array of consumeSlotCount empty entries, and the UI root
        instantiated inactive. Time.timeScale is whatever it was. */
    constructor (consumeSlotCount: int, ui: IC.InventarioController, player: Option<PC.PlayerController2D>, timeScale: real)
      requires consumeSlotCount >= 0
      ensures this.ui == ui && this.player == player
      ensures inventoryCards == [] && fresh(equippedCards) && equippedCards.Length == consumeSlotCount
      ensures forall k :: 0 <= k < equippedCards.Length ==> equippedCards[k].None?
      ensures screen == Screen(false, false, timeScale)
    {
      this.ui := ui;
      this.player := player;
      inventoryCards := [];
      equippedCards := new Option<CD.CardData>[consumeSlotCount](_ => None);
      screen := Screen(false, false, timeScale);
    }

    /** ToggleUI: flips isOpen, shows or hides the UI, pauses or resumes, blocks
        or releases the player; on closing the selection is cleared. `refresh`
        says the UI is asked to refresh its slots (on opening). */
    method ToggleUI() returns (refresh: bool)
      requires ui.Valid()
      modifies this`screen, ui.Slots(), ui`selectedInventory, ui`selectedConsume, ui`panel
      modifies (if player.Some? then {player.value} else {})`life
      ensures screen == Toggled(old(screen))
      ensures player.Some? ==> player.value.life == old(player.value.life).(enabled := !screen.isOpen)
      ensures refresh == screen.isOpen
      ensures ui.Valid()
      ensures screen.isOpen ==> ui.selectedInventory == old(ui.selectedInventory) && ui.selectedConsume == old(ui.selectedConsume)
      ensures !screen.isOpen ==> ui.selectedInventory.None? && ui.selectedConsume.None?
      ensures IC.DataOf(ui.inventorySlots) == old(IC.DataOf(ui.inventorySlots))
      ensures IC.DataOf(ui.consumeSlots) == old(IC.DataOf(ui.consumeSlots))
      ensures screen.isOpen ==> IC.ViewsOf(ui.inventorySlots) == old(IC.ViewsOf(ui.inventorySlots))
                                && IC.ViewsOf(ui.consumeSlots) == old(IC.ViewsOf(ui.consumeSlots))
      ensures IC.OnlyHighlightsMoved(ui.inventorySlots, IC.ViewsOf(ui.inventorySlots), old(IC.ViewsOf(ui.inventorySlots)))
      ensures IC.OnlyHighlightsMoved(ui.consumeSlots, IC.ViewsOf(ui.consumeSlots), old(IC.ViewsOf(ui.consumeSlots)))
    {
      ghost var iv, cv := IC.ViewsOf(ui.inventorySlots), IC.ViewsOf(ui.consumeSlots);
      var open := !screen.isOpen;
      screen := Screen(open, open, if open then 0.0 else 1.0);
      if player.Some? {
        player.value.life := player.value.life.(enabled := !open);
      }
      if open {
        assert IC.ViewsOf(ui.inventorySlots) == iv && IC.ViewsOf(ui.consumeSlots) == cv;
        refresh := true;
      } else {
        refresh := false;
        ui.DeselectAll();
      }
    }

    method AddCard(card: Option<CD.CardData>)
      modifies this`inventoryCards
      ensures inventoryCards == Added(old(inventoryCards), card)
    {
      if card.Some? {
        inventoryCards := inventoryCards + [card.value];
      }
    }

    method EquipCard(slotIndex: int, card: Option<CD.CardData>)
      modifies equippedCards
      ensures equippedCards[..] == Equipped(old(equippedCards[..]), slotIndex, card)
    {
      if 0 <= slotIndex < equippedCards.Length {
        equippedCards[slotIndex] := card;
      }
    }
  }
}
