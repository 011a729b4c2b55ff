/** ShopMenu (Assets/Scripts/ShopMenu.cs): the shop panel. It keeps the
    selected sale slot, shows its card's name, effect and description, and
    sells it: the player's coins are first overwritten with 1000, then compared
    with the price; a sale adds the card to the inventory screen, takes the
    price off the coins, marks the slot sold and clears the selection. A
    selection is the index of the slot among all sale slots. */
module ShopMenu {
  import opened Common
  import CD = CardData
  import IC = InventarioController
  import IS = ItemSlot
  import SL = ItemSlotLoja
  import PC = PlayerControllerV24

  /** The coin value the buy button writes before comparing with the price. */
  const ShopCoins: int := 1000

  /** The detail texts and the buy button. */
  datatype Details = Details(nome: string, poder: string, descricao: string, buyInteractable: bool)

  const Cleared: Details := Details("", "", "", false)

  /** CardEffect.ToString(). */
  function EffectName(e: CD.CardEffect): (s: string)
    ensures |s| > 0
  {
    match e
    case Health => "Health"
    case Damage => "Damage"
    case SpeedBoost => "SpeedBoost"
  }

  /** The effect text tells the effects apart. */
  lemma EffectNameInjective(e: CD.CardEffect, f: CD.CardEffect)
    ensures EffectName(e) == EffectName(f) ==> e == f
  {
  }

  /** What SelectItem shows for a card. */
  function Shown(c: CD.CardData): (d: Details)
    ensures d.buyInteractable
    ensures d.nome == OrEmpty(c.cardName) && d.descricao == OrEmpty(c.description)
    ensures d.poder == EffectName(c.effect) && d != Cleared
  {
    Details(OrEmpty(c.cardName), EffectName(c.effect), OrEmpty(c.description), true)
  }

  /** The outcome of a buy with a selection: whether it sells, and the coins after. */
  datatype Sale = Sale(sold: bool, coins: int)

  function Purchase(price: int): (r: Sale)
    ensures r.sold <==> price <= ShopCoins
    ensures r.sold ==> r.coins == ShopCoins - price && r.coins >= 0
    ensures !r.sold ==> r.coins == ShopCoins
  {
    if ShopCoins >= price then Sale(true, ShopCoins - price) else Sale(false, ShopCoins)
  }

  /** Whatever the player had, a buy leaves coins in [0, 1000] for a
      non-negative price, and a sale never costs more than the price. */
  lemma PurchaseBounds(price: int)
    requires price >= 0
    ensures 0 <= Purchase(price).coins <= ShopCoins
    ensures Purchase(price).sold ==> ShopCoins - Purchase(price).coins == price
  {
  }

  predicate Distinct(ss: seq<SL.ItemSlotLoja>) {
    forall i, j :: 0 <= i < j < |ss| ==> ss[i] != ss[j]
  }

  class ShopMenu {
    const allSlots: seq<SL.ItemSlotLoja>
    const inventoryController: IC.InventarioController
    const playerController: PC.PlayerController2D
    var selected: Option<nat>
    var details: Details
    var panelActive: bool
    ghost const slotRepr: set<SL.ItemSlotLoja>

    ghost predicate Valid()
      reads this
    {
      slotRepr == (set s | s in allSlots) && Distinct(allSlots)
      && (selected.Some? ==> selected.value < |allSlots| && allSlots[selected.value].cardData.Some?)
    }

    /** Awake: FindObjectsOfType<ItemSlotLoja>(). */
    constructor (slots: seq<SL.ItemSlotLoja>, inv: IC.InventarioController, pc: PC.PlayerController2D, d: Details, panel: bool)
      requires Distinct(slots)
      ensures allSlots == slots && inventoryController == inv && playerController == pc
      ensures Valid() && selected.None? && details == d && panelActive == panel
    {
      allSlots := slots;
      inventoryController := inv;
      playerController := pc;
      selected := None;
      details := d;
      panelActive := panel;
      slotRepr := set s | s in slots;
    }

    /** Start: the panel is hidden and the buy button disabled (the click
        listener is the engine's wiring). */
    method Start()
      modifies this`panelActive, this`details
      ensures !panelActive && details == old(details).(buyInteractable := false)
    {
      panelActive := false;
      details := details.(buyInteractable := false);
    }

    method OpenShop()
      requires Valid()
      modifies this`panelActive, this`details, this`selected, slotRepr
      ensures Valid()
      ensures panelActive && selected.None? && details == Cleared
      ensures forall k :: 0 <= k < |allSlots| ==>
                allSlots[k].look == old(allSlots[k].look).(highlighted := Unlit(allSlots[k], old(allSlots[k].look)))
      ensures forall k :: 0 <= k < |allSlots| ==> allSlots[k].isSold == old(allSlots[k].isSold)
    {
      panelActive := true;
      ClearDetails();
      ClearSlotHighlights();
    }

    method CloseShop()
      modifies this`panelActive
      ensures !panelActive
    {
      panelActive := false;
    }

    /** SelectItem(slot) for the i-th sale slot, whose card must be assigned. */
    method SelectItem(i: nat)
      requires Valid() && i < |allSlots| && allSlots[i].cardData.Some?
      modifies this`selected, this`details
      ensures Valid()
      ensures selected == Some(i) && details == Shown(allSlots[i].cardData.value)
    {
      selected := Some(i);
      var c := allSlots[i].cardData.value;
      details := Details(OrEmpty(c.cardName), EffectName(c.effect), OrEmpty(c.description), true);
    }

    /** Whether a slot is lit after Highlight(false). */
    static function Unlit(s: SL.ItemSlotLoja, before: SL.Look): bool {
      if s.refs.hasHighlightImage then false else before.highlighted
    }

    /** What a sale slot shows after a sale: MarkAsSold on the sold slot, then
        ClearSlotHighlights. */
    static function AfterSale(s: SL.ItemSlotLoja, isSoldSlot: bool, before: SL.Look): SL.Look {
      before.(highlighted := Unlit(s, before),
              soldPanelActive := if isSoldSlot && s.refs.hasSoldPanel then true else before.soldPanelActive)
    }

    method ClearSlotHighlights()
      requires Valid()
      modifies slotRepr
      ensures forall k :: 0 <= k < |allSlots| ==>
                allSlots[k].look == old(allSlots[k].look).(highlighted := Unlit(allSlots[k], old(allSlots[k].look)))
      ensures forall k :: 0 <= k < |allSlots| ==> allSlots[k].isSold == old(allSlots[k].isSold)
    {
      for i := 0 to |allSlots|
        invariant forall k :: 0 <= k < i ==>
                    allSlots[k].look == old(allSlots[k].look).(highlighted := Unlit(allSlots[k], old(allSlots[k].look)))
        invariant forall k :: i <= k < |allSlots| ==> allSlots[k].look == old(allSlots[k].look)
        invariant forall k :: 0 <= k < |allSlots| ==> allSlots[k].isSold == old(allSlots[k].isSold)
      {
        allSlots[i].Highlight(false);
      }
    }

    /** ItemSlotLoja.OnPointerClick on the i-th slot, with the shop's part. */
    method SlotClicked(i: nat)
      requires Valid() && i < |allSlots| && allSlots[i].cardData.Some?
      modifies this`selected, this`details, slotRepr
      ensures Valid()
      ensures old(allSlots[i].isSold) ==>
                selected == old(selected) && details == old(details)
                && forall k :: 0 <= k < |allSlots| ==> allSlots[k].look == old(allSlots[k].look)
      ensures !old(allSlots[i].isSold) ==>
                selected == Some(i) && details == Shown(allSlots[i].cardData.value)
                && (allSlots[i].refs.hasHighlightImage ==> allSlots[i].look.highlighted)
                && forall k :: 0 <= k < |allSlots| && k != i && allSlots[k].refs.hasHighlightImage ==>
                     !allSlots[k].look.highlighted
      ensures forall k :: 0 <= k < |allSlots| ==> allSlots[k].isSold == old(allSlots[k].isSold)
    {
      var forwards := allSlots[i].OnPointerClick();
      if !forwards { return; }
      ClearSlotHighlights();
      allSlots[i].Highlight(true);
      SelectItem(i);
    }

    /** OnBuyButtonClicked. */
    method OnBuyButtonClicked()
      requires Valid() && inventoryController.Valid()
      modifies this`selected, this`details, slotRepr, playerController`life, inventoryController.invRepr
      ensures Valid() && inventoryController.Valid()
      ensures playerController.life == old(playerController.life).(coinsCollected := playerController.life.coinsCollected)
      ensures forall k :: 0 <= k < |allSlots| && (old(selected).None? || k != old(selected).value) ==>
                allSlots[k].isSold == old(allSlots[k].isSold)
      ensures IC.DataOf(inventoryController.consumeSlots) == old(IC.DataOf(inventoryController.consumeSlots))
      ensures IC.ViewsOf(inventoryController.consumeSlots) == old(IC.ViewsOf(inventoryController.consumeSlots))
      // no selection: nothing happens
      ensures old(selected).None? ==>
                playerController.life == old(playerController.life) && details == old(details)
                && IC.DataOf(inventoryController.inventorySlots) == old(IC.DataOf(inventoryController.inventorySlots))
                && IC.ViewsOf(inventoryController.inventorySlots) == old(IC.ViewsOf(inventoryController.inventorySlots))
                && forall k :: 0 <= k < |allSlots| ==> allSlots[k].look == old(allSlots[k].look)
      // a selection: the coins become what Purchase says
      ensures old(selected).Some? ==>
                playerController.life.coinsCollected == Purchase(allSlots[old(selected).value].price).coins
      ensures old(selected).Some? && Purchase(allSlots[old(selected).value].price).sold ==>
                IC.DataOf(inventoryController.inventorySlots)
                  == IC.Filled(old(IC.DataOf(inventoryController.inventorySlots)),
                               IS.StoredCard(allSlots[old(selected).value].cardData.value))
                && IC.ViewsOf(inventoryController.inventorySlots)
                  == IC.FilledViews(old(IC.DataOf(inventoryController.inventorySlots)),
                                    old(IC.ViewsOf(inventoryController.inventorySlots)),
                                    allSlots[old(selected).value].cardData.value.artwork)
                && allSlots[old(selected).value].isSold && selected.None? && details == Cleared
                && forall k :: 0 <= k < |allSlots| ==>
                     allSlots[k].look == AfterSale(allSlots[k], k == old(selected).value, old(allSlots[k].look))
      ensures old(selected).Some? && !Purchase(allSlots[old(selected).value].price).sold ==>
                IC.DataOf(inventoryController.inventorySlots) == old(IC.DataOf(inventoryController.inventorySlots))
                && IC.ViewsOf(inventoryController.inventorySlots) == old(IC.ViewsOf(inventoryController.inventorySlots))
                && allSlots[old(selected).value].isSold == old(allSlots[selected.value].isSold)
                && selected == old(selected) && details == old(details)
                && forall k :: 0 <= k < |allSlots| ==> allSlots[k].look == old(allSlots[k].look)
    {
      if selected.None? { return; }
      var i := selected.value;
      ghost var ds, vs := IC.DataOf(inventoryController.inventorySlots), IC.ViewsOf(inventoryController.inventorySlots);
      playerController.life := playerController.life.(coinsCollected := ShopCoins);
      assert IC.DataOf(inventoryController.inventorySlots) == ds && IC.ViewsOf(inventoryController.inventorySlots) == vs;
      if playerController.life.coinsCollected >= allSlots[i].price {
        Sell(i);
        assert IC.ViewsOf(inventoryController.inventorySlots) == IC.FilledViews(ds, vs, allSlots[i].cardData.value.artwork);
      }
    }

    /** The successful branch of a buy of the i-th slot. The source adds the
        card before settling; the two steps touch disjoint state (the
        inventory slots, and the shop, its slots and the coins), so settling
        first gives the same result. */
    method Sell(i: nat)
      requires Valid() && inventoryController.Valid() && i < |allSlots| && allSlots[i].cardData.Some?
      modifies this`selected, this`details, slotRepr, playerController`life, inventoryController.invRepr
      ensures Valid() && inventoryController.Valid()
      ensures playerController.life == old(playerController.life).(coinsCollected := old(playerController.life.coinsCollected) - allSlots[i].price)
      ensures IC.DataOf(inventoryController.inventorySlots)
                == IC.Filled(old(IC.DataOf(inventoryController.inventorySlots)), IS.StoredCard(allSlots[i].cardData.value))
      ensures IC.ViewsOf(inventoryController.inventorySlots)
                == IC.FilledViews(old(IC.DataOf(inventoryController.inventorySlots)),
                                  old(IC.ViewsOf(inventoryController.inventorySlots)), allSlots[i].cardData.value.artwork)
      ensures IC.DataOf(inventoryController.consumeSlots) == old(IC.DataOf(inventoryController.consumeSlots))
      ensures IC.ViewsOf(inventoryController.consumeSlots) == old(IC.ViewsOf(inventoryController.consumeSlots))
      ensures allSlots[i].isSold && selected.None? && details == Cleared
      ensures forall k :: 0 <= k < |allSlots| && k != i ==> allSlots[k].isSold == old(allSlots[k].isSold)
      ensures forall k :: 0 <= k < |allSlots| ==> allSlots[k].look == AfterSale(allSlots[k], k == i, old(allSlots[k].look))
    {
      ghost var ds, vs := IC.DataOf(inventoryController.inventorySlots), IC.ViewsOf(inventoryController.inventorySlots);
      ghost var cs, cv := IC.DataOf(inventoryController.consumeSlots), IC.ViewsOf(inventoryController.consumeSlots);
      Settle(i);
      assert inventoryController.Valid();
      assert IC.DataOf(inventoryController.inventorySlots) == ds && IC.ViewsOf(inventoryController.inventorySlots) == vs;
      assert IC.DataOf(inventoryController.consumeSlots) == cs && IC.ViewsOf(inventoryController.consumeSlots) == cv;
      inventoryController.AddCard(allSlots[i].cardData.value);
    }

    /** The rest of a sale: the price is taken off, the slot is marked sold,
        every highlight is cleared and the details are blanked. */
    method Settle(i: nat)
      requires Valid() && i < |allSlots|
      modifies this`selected, this`details, slotRepr, playerController`life
      ensures Valid()
      ensures playerController.life == old(playerController.life).(coinsCollected := old(playerController.life.coinsCollected) - allSlots[i].price)
      ensures allSlots[i].isSold && selected.None? && details == Cleared
      ensures forall k :: 0 <= k < |allSlots| && k != i ==> allSlots[k].isSold == old(allSlots[k].isSold)
      ensures forall k :: 0 <= k < |allSlots| ==> allSlots[k].look == AfterSale(allSlots[k], k == i, old(allSlots[k].look))
    {
      playerController.life := playerController.life.(coinsCollected := playerController.life.coinsCollected - allSlots[i].price);
      allSlots[i].MarkAsSold();
      ClearSlotHighlights();
      ClearDetails();
    }

    method ClearDetails()
      requires Valid()
      modifies this`selected, this`details
      ensures Valid() && selected.None? && details == Cleared
    {
      selected := None;
      details := Cleared;
    }
  }
}
