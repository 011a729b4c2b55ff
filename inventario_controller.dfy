/** InventarioController (Assets/Prefabs/Inventario/InventarioController.cs):
    the inventory screen. It owns the inventory slots and the consume slots
    (found by kind at Awake and cleared), fills the first free inventory slot
    when an item or card is picked up, keeps one selected slot per kind, and
    equips the selected inventory item into the selected consume slot: the
    consume slot's old card effect is removed, the item is copied over, and the
    new card's effect is applied to the player. A selection is the index of
    the selected slot among the slots of its kind. */
module InventarioController {
  import opened Common
  import CD = CardData
  import IS = ItemSlot
  import DP = DescriptionPanel
  import PC = PlayerControllerV24

  // ---------------------------------------------------------------- slot contents as values

  /** The position of the first slot that is not full, in array order. */
  function FirstFree(ds: seq<IS.SlotData>): (r: Option<nat>)
    ensures r.Some? ==> r.value < |ds| && !ds[r.value].isFull
    ensures r.Some? ==> forall k :: 0 <= k < r.value ==> ds[k].isFull
    ensures r.None? <==> forall k :: 0 <= k < |ds| ==> ds[k].isFull
    decreases |ds|
  {
    if |ds| == 0 then None
    else if !ds[0].isFull then Some(0)
    else
      match FirstFree(ds[1..])
      case None => None
      case Some(j) => Some(j + 1)
  }

  /** The contents after AddItem or AddCard: the first free slot gets the item;
      with every slot full nothing changes. */
  function Filled(ds: seq<IS.SlotData>, d: IS.SlotData): (r: seq<IS.SlotData>)
    ensures |r| == |ds|
    ensures FirstFree(ds).None? ==> r == ds
    ensures FirstFree(ds).Some? ==> r == ds[FirstFree(ds).value := d]
  {
    match FirstFree(ds)
    case None => ds
    case Some(j) => ds[j := d]
  }

  /** Filling changes at most one slot, never one before the first free slot,
      and never drops an item that was already stored. */
  lemma FillKeepsItems(ds: seq<IS.SlotData>, d: IS.SlotData)
    requires d.isFull
    ensures forall k :: 0 <= k < |ds| && ds[k].isFull ==> Filled(ds, d)[k] == ds[k]
    ensures (exists k :: 0 <= k < |ds| && !ds[k].isFull) ==> d in Filled(ds, d)
    ensures FilledCount(Filled(ds, d)) == FilledCount(ds) + (if FirstFree(ds).Some? then 1 else 0)
  {
    match FirstFree(ds)
    case None =>
    case Some(j) =>
      assert Filled(ds, d)[j] == d;
      CountUpdate(ds, j, d);
  }

  function FilledCount(ds: seq<IS.SlotData>): nat
    decreases |ds|
  {
    if |ds| == 0 then 0 else (if ds[0].isFull then 1 else 0) + FilledCount(ds[1..])
  }

  lemma {:induction false} CountUpdate(ds: seq<IS.SlotData>, j: nat, d: IS.SlotData)
    requires j < |ds| && !ds[j].isFull && d.isFull
    ensures FilledCount(ds[j := d]) == FilledCount(ds) + 1
    decreases |ds|
  {
    if j > 0 {
      assert ds[j := d][1..] == ds[1..][j - 1 := d];
      CountUpdate(ds[1..], j - 1, d);
    } else {
      assert ds[j := d][1..] == ds[1..];
    }
  }

  /** Equip's effect on the player's health: the old card's effect is
      removed first, then the new card's is applied. */
  function EquipEffect(v: PC.Vitals, oldCard: Option<CD.CardData>, newCard: Option<CD.CardData>): (r: PC.Vitals)
    ensures oldCard.None? && newCard.None? ==> r == v
    ensures oldCard.None? && newCard.Some? ==> r == CD.Applied(newCard.value, v)
    ensures oldCard.Some? && newCard.Some? ==> r == CD.Applied(newCard.value, CD.Removed(oldCard.value, v))
    ensures oldCard.Some? && newCard.None? ==> r == CD.Removed(oldCard.value, v)
  {
    var v1 := if oldCard.Some? then CD.Removed(oldCard.value, v) else v;
    if newCard.Some? then CD.Applied(newCard.value, v1) else v1
  }

  /** Equipping a Health card over the same card leaves the maximum health as
      it was (when the maximum stays above 1 while the old card is off), so
      equipping twice into one slot does not stack. */
  lemma ReequipDoesNotStack(v: PC.Vitals, c: CD.CardData)
    requires c.effect == CD.Health && v.maxHealth - c.amount >= 1
    ensures EquipEffect(v, Some(c), Some(c)).maxHealth == v.maxHealth
    ensures CD.HealthCapped(EquipEffect(v, Some(c), Some(c)))
  {
    var r := CD.HealthRemoved(v, c.amount);
    assert r.maxHealth == v.maxHealth - c.amount;
  }

  // ---------------------------------------------------------------- slot images as values

  /** AddItem's effect on a slot's view: the image is switched on with the
      item's sprite; the highlight is kept. */
  function Lit(v: IS.SlotView, sprite: Option<Sprite>): (r: IS.SlotView)
    ensures r.imageEnabled && r.imageSprite == sprite && r.highlighted == v.highlighted
  {
    v.(imageEnabled := true, imageSprite := sprite)
  }

  /** The views after AddItem or AddCard: the first free slot's image is lit
      with the item's sprite; every other view is kept. */
  function FilledViews(ds: seq<IS.SlotData>, vs: seq<IS.SlotView>, sprite: Option<Sprite>): (r: seq<IS.SlotView>)
    requires |vs| == |ds|
    ensures |r| == |vs|
    ensures forall k :: 0 <= k < |vs| && FirstFree(ds) != Some(k) ==> r[k] == vs[k]
    ensures FirstFree(ds).Some? ==> r[FirstFree(ds).value] == Lit(vs[FirstFree(ds).value], sprite)
  {
    match FirstFree(ds)
    case None => vs
    case Some(j) => vs[j := Lit(vs[j], sprite)]
  }

  /** Each slot's image shows its contents: enabled exactly when the slot is
      full, with the stored sprite. */
  predicate Shows(ds: seq<IS.SlotData>, vs: seq<IS.SlotView>) {
    |ds| == |vs| && forall k :: 0 <= k < |ds| ==> vs[k].imageEnabled == ds[k].isFull && vs[k].imageSprite == ds[k].itemSprite
  }

  /** Filling keeps every image showing its slot's contents. */
  lemma FillKeepsShown(ds: seq<IS.SlotData>, vs: seq<IS.SlotView>, d: IS.SlotData)
    requires Shows(ds, vs) && d.isFull
    ensures Shows(Filled(ds, d), FilledViews(ds, vs, d.itemSprite))
  {
  }

  /** Copying a full slot's contents into slot j keeps every image showing its slot's contents. */
  lemma CopyKeepsShown(ds: seq<IS.SlotData>, vs: seq<IS.SlotView>, j: nat, d: IS.SlotData)
    requires Shows(ds, vs) && j < |ds| && d.isFull
    ensures Shows(ds[j := d], vs[j := Lit(vs[j], d.itemSprite)])
  {
  }

  // ---------------------------------------------------------------- the component

  function DataOf(ss: seq<IS.ItemSlot>): (r: seq<IS.SlotData>)
    reads set s | s in ss
    ensures |r| == |ss| && forall k :: 0 <= k < |ss| ==> r[k] == ss[k].data
  {
    seq(|ss|, k requires 0 <= k < |ss| reads set s | s in ss => ss[k].data)
  }

  function ViewsOf(ss: seq<IS.ItemSlot>): (r: seq<IS.SlotView>)
    reads set s | s in ss
    ensures |r| == |ss| && forall k :: 0 <= k < |ss| ==> r[k] == ss[k].view
  {
    seq(|ss|, k requires 0 <= k < |ss| reads set s | s in ss => ss[k].view)
  }

  predicate Distinct(ss: seq<IS.ItemSlot>) {
    forall i, j :: 0 <= i < j < |ss| ==> ss[i] != ss[j]
  }

  /** A slot with a highlight child is highlighted exactly when it is the selected one. */
  predicate Highlights(ss: seq<IS.ItemSlot>, sel: Option<nat>)
    reads set s | s in ss
  {
    forall k :: 0 <= k < |ss| && ss[k].hasHighlight ==> (ss[k].view.highlighted <==> sel == Some(k))
  }

  /** From the views `before` to the views `after` of the slots `ss`, only
      highlights changed: every image is as it was, and a slot without a
      highlight child is entirely as it was. */
  predicate OnlyHighlightsMoved(ss: seq<IS.ItemSlot>, after: seq<IS.SlotView>, before: seq<IS.SlotView>) {
    |after| == |ss| && |before| == |ss|
    && forall k :: 0 <= k < |ss| ==>
         after[k] == before[k].(highlighted := after[k].highlighted)
         && (!ss[k].hasHighlight ==> after[k] == before[k])
  }

  /** Moving highlights over unchanged contents keeps every image showing its slot's contents. */
  lemma MovedKeepsShown(ss: seq<IS.ItemSlot>, ds: seq<IS.SlotData>, vs: seq<IS.SlotView>)
    requires Shows(ds, vs) && OnlyHighlightsMoved(ss, ViewsOf(ss), vs) && DataOf(ss) == ds
    ensures SlotsShow(ss)
  {
  }

  /** The slots of one kind: the selection is in range and highlighted, and
      every image shows its slot's contents. */
  predicate KindValid(ss: seq<IS.ItemSlot>, sel: Option<nat>)
    reads set s | s in ss
  {
    (sel.Some? ==> sel.value < |ss|) && Highlights(ss, sel) && SlotsShow(ss)
  }

  /** Shows, slot by slot on the slot objects. */
  predicate SlotsShow(ss: seq<IS.ItemSlot>)
    reads set s | s in ss
  {
    forall k :: 0 <= k < |ss| ==> ss[k].view.imageEnabled == ss[k].data.isFull && ss[k].view.imageSprite == ss[k].data.itemSprite
  }

  /** So at most one slot of each kind is highlighted. */
  lemma OneHighlightPerKind(ss: seq<IS.ItemSlot>, sel: Option<nat>, j: nat, k: nat)
    requires Highlights(ss, sel) && j < |ss| && k < |ss|
    requires ss[j].hasHighlight && ss[j].view.highlighted && ss[k].hasHighlight && ss[k].view.highlighted
    ensures j == k
  {
  }

  class InventarioController {
    const inventorySlots: seq<IS.ItemSlot>
    const consumeSlots: seq<IS.ItemSlot>
    const player: PC.PlayerController2D
    var selectedInventory: Option<nat>
    var selectedConsume: Option<nat>
    var panel: DP.Panel
    /** The slot objects, as sets, for frames. */
    ghost const invRepr: set<IS.ItemSlot>
    ghost const conRepr: set<IS.ItemSlot>

    ghost function Slots(): set<IS.ItemSlot> {
      invRepr + conRepr
    }

    /** The slots of each kind, each slot once; the set views agree with the arrays. */
    ghost predicate Shape() {
      invRepr == (set s | s in inventorySlots) && conRepr == (set s | s in consumeSlots) && invRepr !! conRepr
      && Distinct(inventorySlots) && Distinct(consumeSlots)
      && (forall s :: s in inventorySlots ==> s.kind == IS.Inventory)
      && (forall s :: s in consumeSlots ==> s.kind == IS.Consume)
    }

    /** The shape, the selections in range and highlighted, and every image
        showing its slot's contents. */
    ghost predicate Valid()
      reads this, Slots()
    {
      Shape() && KindValid(inventorySlots, selectedInventory) && KindValid(consumeSlots, selectedConsume)
    }

    /** Awake: take the slots of each kind and clear them all. */
    constructor (inv: seq<IS.ItemSlot>, con: seq<IS.ItemSlot>, pc: PC.PlayerController2D, p: DP.Panel)
      requires Distinct(inv) && Distinct(con)
      requires forall s :: s in inv ==> s.kind == IS.Inventory
      requires forall s :: s in con ==> s.kind == IS.Consume
      modifies set s | s in inv + con
      ensures inventorySlots == inv && consumeSlots == con && player == pc
      ensures Valid() && selectedInventory.None? && selectedConsume.None?
      ensures forall k :: 0 <= k < |inv| ==> inv[k].data == IS.Empty
      ensures forall k :: 0 <= k < |con| ==> con[k].data == IS.Empty
      ensures forall k :: 0 <= k < |inv| ==>
                inv[k].view == IS.SlotView(false, None, if inv[k].hasHighlight then false else old(inv[k].view.highlighted))
      ensures forall k :: 0 <= k < |con| ==>
                con[k].view == IS.SlotView(false, None, if con[k].hasHighlight then false else old(con[k].view.highlighted))
    {
      inventorySlots := inv;
      consumeSlots := con;
      player := pc;
      selectedInventory := None;
      selectedConsume := None;
      panel := p;
      invRepr := set s | s in inv;
      conRepr := set s | s in con;
      new;
      ClearAll(inv);
      ghost var vs := ViewsOf(inv);
      ClearAll(con);
      assert forall k :: 0 <= k < |inv| ==> inv[k] !in con && inv[k].data == IS.Empty && inv[k].view == vs[k];
    }

    /** The Awake loop: Clear on every slot of the array. */
    static method ClearAll(ss: seq<IS.ItemSlot>)
      requires Distinct(ss)
      modifies set s | s in ss
      ensures forall k :: 0 <= k < |ss| ==> ss[k].data == IS.Empty
      ensures forall k :: 0 <= k < |ss| ==>
                ss[k].view == IS.SlotView(false, None, if ss[k].hasHighlight then false else old(ss[k].view.highlighted))
      ensures KindValid(ss, None)
    {
      for i := 0 to |ss|
        invariant forall k :: 0 <= k < i ==> ss[k].data == IS.Empty
        invariant forall k :: 0 <= k < i ==>
                    ss[k].view == IS.SlotView(false, None, if ss[k].hasHighlight then false else old(ss[k].view.highlighted))
        invariant forall k :: i <= k < |ss| ==> ss[k].view == old(ss[k].view)
      {
        ss[i].Clear();
      }
    }

    /** The first free inventory slot gets the item and shows its sprite. */
    method FillFirstFree(name: Option<string>, sprite: Option<Sprite>, desc: Option<string>, card: Option<CD.CardData>)
      requires Valid()
      modifies invRepr
      ensures Valid()
      ensures DataOf(inventorySlots) == Filled(old(DataOf(inventorySlots)), IS.Stored(name, sprite, desc, card))
      ensures ViewsOf(inventorySlots) == FilledViews(old(DataOf(inventorySlots)), old(ViewsOf(inventorySlots)), sprite)
      ensures DataOf(consumeSlots) == old(DataOf(consumeSlots)) && ViewsOf(consumeSlots) == old(ViewsOf(consumeSlots))
    {
      ghost var ds, vs := DataOf(inventorySlots), ViewsOf(inventorySlots);
      FillFirst(inventorySlots, name, sprite, desc, card);
      FillKeepsShown(ds, vs, IS.Stored(name, sprite, desc, card));
    }

    /** The loop over the slots, which stops at the first free one. */
    static method FillFirst(ss: seq<IS.ItemSlot>, name: Option<string>, sprite: Option<Sprite>,
                            desc: Option<string>, card: Option<CD.CardData>)
      requires Distinct(ss)
      modifies set s | s in ss
      ensures DataOf(ss) == Filled(old(DataOf(ss)), IS.Stored(name, sprite, desc, card))
      ensures ViewsOf(ss) == FilledViews(old(DataOf(ss)), old(ViewsOf(ss)), sprite)
      ensures forall k :: 0 <= k < |ss| ==> ss[k].view.highlighted == old(ss[k].view.highlighted)
    {
      ghost var before, vbefore := DataOf(ss), ViewsOf(ss);
      for i := 0 to |ss|
        invariant forall k :: 0 <= k < i ==> before[k].isFull
        invariant forall k :: 0 <= k < |ss| ==> ss[k].data == old(ss[k].data) && ss[k].view == old(ss[k].view)
      {
        var slot := ss[i];
        if !slot.data.isFull {
          assert FirstFree(before) == Some(i);
          slot.AddItem(name, sprite, desc, card);
          assert forall k :: 0 <= k < |ss| && k != i ==> ss[k].data == before[k] && ss[k].view == vbefore[k];
          assert DataOf(ss) == before[i := IS.Stored(name, sprite, desc, card)];
          assert ViewsOf(ss) == vbefore[i := Lit(vbefore[i], sprite)];
          return;
        }
      }
      assert FirstFree(before).None?;
      assert DataOf(ss) == before;
      assert ViewsOf(ss) == vbefore;
    }

    /** AddItem(nome, sprite, descricao), called by item pickups. */
    method AddItem(name: Option<string>, sprite: Option<Sprite>, desc: Option<string>)
      requires Valid()
      modifies invRepr
      ensures Valid()
      ensures DataOf(inventorySlots) == Filled(old(DataOf(inventorySlots)), IS.Stored(name, sprite, desc, None))
      ensures ViewsOf(inventorySlots) == FilledViews(old(DataOf(inventorySlots)), old(ViewsOf(inventorySlots)), sprite)
      ensures DataOf(consumeSlots) == old(DataOf(consumeSlots)) && ViewsOf(consumeSlots) == old(ViewsOf(consumeSlots))
    {
      FillFirstFree(name, sprite, desc, None);
    }

    /** AddCard(cardData): the card's name, artwork and description, and the card. */
    method AddCard(card: CD.CardData)
      requires Valid()
      modifies invRepr
      ensures Valid()
      ensures DataOf(inventorySlots) == Filled(old(DataOf(inventorySlots)), IS.StoredCard(card))
      ensures ViewsOf(inventorySlots) == FilledViews(old(DataOf(inventorySlots)), old(ViewsOf(inventorySlots)), card.artwork)
      ensures DataOf(consumeSlots) == old(DataOf(consumeSlots)) && ViewsOf(consumeSlots) == old(ViewsOf(consumeSlots))
    {
      FillFirstFree(card.cardName, card.artwork, card.description, Some(card));
    }

    /** SelectSlot(slot) for the i-th slot of the given kind. */
    method SelectSlot(kind: IS.Kind, i: nat)
      requires Valid()
      requires kind == IS.Inventory ==> i < |inventorySlots|
      requires kind == IS.Consume ==> i < |consumeSlots|
      modifies Slots(), this`selectedInventory, this`selectedConsume, this`panel
      ensures Valid()
      ensures kind == IS.Inventory ==>
                selectedInventory == Some(i) && selectedConsume == old(selectedConsume)
                && panel == DP.Show(old(panel), Some(old(inventorySlots[i].data)))
                && ViewsOf(consumeSlots) == old(ViewsOf(consumeSlots))
      ensures kind == IS.Consume ==>
                selectedConsume == Some(i) && selectedInventory == old(selectedInventory)
                && panel == DP.Show(old(panel), Some(old(consumeSlots[i].data)))
                && ViewsOf(inventorySlots) == old(ViewsOf(inventorySlots))
      ensures DataOf(inventorySlots) == old(DataOf(inventorySlots))
      ensures DataOf(consumeSlots) == old(DataOf(consumeSlots))
      ensures OnlyHighlightsMoved(inventorySlots, ViewsOf(inventorySlots), old(ViewsOf(inventorySlots)))
      ensures OnlyHighlightsMoved(consumeSlots, ViewsOf(consumeSlots), old(ViewsOf(consumeSlots)))
    {
      if kind == IS.Inventory {
        SelectInventory(i);
      } else {
        SelectConsume(i);
      }
    }

    /** The Inventory branch of SelectSlot. */
    method SelectInventory(i: nat)
      requires Valid() && i < |inventorySlots|
      modifies invRepr, this`selectedInventory, this`panel
      ensures Valid()
      ensures selectedInventory == Some(i) && panel == DP.Show(old(panel), Some(old(inventorySlots[i].data)))
      ensures DataOf(inventorySlots) == old(DataOf(inventorySlots))
      ensures OnlyHighlightsMoved(inventorySlots, ViewsOf(inventorySlots), old(ViewsOf(inventorySlots)))
      ensures DataOf(consumeSlots) == old(DataOf(consumeSlots)) && ViewsOf(consumeSlots) == old(ViewsOf(consumeSlots))
    {
      ghost var od, ov := DataOf(consumeSlots), ViewsOf(consumeSlots);
      Reselect(inventorySlots, selectedInventory, i);
      assert forall k :: 0 <= k < |consumeSlots| ==> consumeSlots[k].data == od[k] && consumeSlots[k].view == ov[k];
      assert DataOf(consumeSlots) == od && ViewsOf(consumeSlots) == ov;
      selectedInventory := Some(i);
      panel := DP.Show(panel, Some(inventorySlots[i].data));
    }

    /** The Consume branch of SelectSlot. */
    method SelectConsume(i: nat)
      requires Valid() && i < |consumeSlots|
      modifies conRepr, this`selectedConsume, this`panel
      ensures Valid()
      ensures selectedConsume == Some(i) && panel == DP.Show(old(panel), Some(old(consumeSlots[i].data)))
      ensures DataOf(consumeSlots) == old(DataOf(consumeSlots))
      ensures OnlyHighlightsMoved(consumeSlots, ViewsOf(consumeSlots), old(ViewsOf(consumeSlots)))
      ensures DataOf(inventorySlots) == old(DataOf(inventorySlots)) && ViewsOf(inventorySlots) == old(ViewsOf(inventorySlots))
    {
      ghost var od, ov := DataOf(inventorySlots), ViewsOf(inventorySlots);
      Reselect(consumeSlots, selectedConsume, i);
      assert forall k :: 0 <= k < |inventorySlots| ==> inventorySlots[k].data == od[k] && inventorySlots[k].view == ov[k];
      assert DataOf(inventorySlots) == od && ViewsOf(inventorySlots) == ov;
      selectedConsume := Some(i);
      panel := DP.Show(panel, Some(consumeSlots[i].data));
    }

    /** Unhighlight the previous selection of one kind and highlight slot i. */
    static method Reselect(ss: seq<IS.ItemSlot>, sel: Option<nat>, i: nat)
      requires Distinct(ss) && i < |ss| && KindValid(ss, sel)
      modifies set s | s in ss
      ensures KindValid(ss, Some(i))
      ensures forall k :: 0 <= k < |ss| ==> ss[k].data == old(ss[k].data)
      ensures OnlyHighlightsMoved(ss, ViewsOf(ss), old(ViewsOf(ss)))
    {
      ghost var ds, vs := DataOf(ss), ViewsOf(ss);
      if sel.Some? {
        ss[sel.value].SetSelected(false);
      }
      ss[i].SetSelected(true);
      assert forall k :: 0 <= k < |ss| ==>
        ss[k].data == ds[k] && ss[k].view == vs[k].(highlighted := ss[k].view.highlighted)
        && (!ss[k].hasHighlight ==> ss[k].view == vs[k]);
      MovedKeepsShown(ss, ds, vs);
    }

    method DeselectAll()
      requires Valid()
      modifies Slots(), this`selectedInventory, this`selectedConsume, this`panel
      ensures Valid()
      ensures selectedInventory.None? && selectedConsume.None?
      ensures panel == DP.Show(old(panel), None)
      ensures DataOf(inventorySlots) == old(DataOf(inventorySlots))
      ensures DataOf(consumeSlots) == old(DataOf(consumeSlots))
      ensures OnlyHighlightsMoved(inventorySlots, ViewsOf(inventorySlots), old(ViewsOf(inventorySlots)))
      ensures OnlyHighlightsMoved(consumeSlots, ViewsOf(consumeSlots), old(ViewsOf(consumeSlots)))
    {
      UnselectInventory();
      UnselectConsume();
      panel := DP.Show(panel, None);
    }

    /** The inventory half of DeselectAll. */
    method UnselectInventory()
      requires Valid()
      modifies invRepr, this`selectedInventory
      ensures Valid() && selectedInventory.None?
      ensures DataOf(inventorySlots) == old(DataOf(inventorySlots))
      ensures OnlyHighlightsMoved(inventorySlots, ViewsOf(inventorySlots), old(ViewsOf(inventorySlots)))
      ensures DataOf(consumeSlots) == old(DataOf(consumeSlots)) && ViewsOf(consumeSlots) == old(ViewsOf(consumeSlots))
    {
      ghost var od, ov := DataOf(consumeSlots), ViewsOf(consumeSlots);
      Unselect(inventorySlots, selectedInventory);
      assert forall k :: 0 <= k < |consumeSlots| ==> consumeSlots[k].data == od[k] && consumeSlots[k].view == ov[k];
      assert DataOf(consumeSlots) == od && ViewsOf(consumeSlots) == ov;
      selectedInventory := None;
    }

    /** The consume half of DeselectAll. */
    method UnselectConsume()
      requires Valid()
      modifies conRepr, this`selectedConsume
      ensures Valid() && selectedConsume.None?
      ensures DataOf(consumeSlots) == old(DataOf(consumeSlots))
      ensures OnlyHighlightsMoved(consumeSlots, ViewsOf(consumeSlots), old(ViewsOf(consumeSlots)))
      ensures DataOf(inventorySlots) == old(DataOf(inventorySlots)) && ViewsOf(inventorySlots) == old(ViewsOf(inventorySlots))
    {
      ghost var od, ov := DataOf(inventorySlots), ViewsOf(inventorySlots);
      Unselect(consumeSlots, selectedConsume);
      assert forall k :: 0 <= k < |inventorySlots| ==> inventorySlots[k].data == od[k] && inventorySlots[k].view == ov[k];
      assert DataOf(inventorySlots) == od && ViewsOf(inventorySlots) == ov;
      selectedConsume := None;
    }

    static method Unselect(ss: seq<IS.ItemSlot>, sel: Option<nat>)
      requires Distinct(ss) && KindValid(ss, sel)
      modifies set s | s in ss
      ensures KindValid(ss, None)
      ensures forall k :: 0 <= k < |ss| ==> ss[k].data == old(ss[k].data)
      ensures OnlyHighlightsMoved(ss, ViewsOf(ss), old(ViewsOf(ss)))
    {
      ghost var ds, vs := DataOf(ss), ViewsOf(ss);
      if sel.Some? {
        ss[sel.value].SetSelected(false);
      }
      assert forall k :: 0 <= k < |ss| ==>
        ss[k].data == ds[k] && ss[k].view == vs[k].(highlighted := ss[k].view.highlighted)
        && (!ss[k].hasHighlight ==> ss[k].view == vs[k]);
      MovedKeepsShown(ss, ds, vs);
    }

    /** EquipSelectedItem, the EQUIPAR button. */
    method EquipSelectedItem()
      requires Valid()
      modifies Slots(), this`selectedInventory, this`selectedConsume, this`panel, player`life
      ensures Valid()
      ensures !(old(selectedInventory).Some? && old(selectedConsume).Some?
                && old(inventorySlots[selectedInventory.value].data.isFull)) ==>
                DataOf(inventorySlots) == old(DataOf(inventorySlots)) && DataOf(consumeSlots) == old(DataOf(consumeSlots))
                && ViewsOf(inventorySlots) == old(ViewsOf(inventorySlots)) && ViewsOf(consumeSlots) == old(ViewsOf(consumeSlots))
                && player.life == old(player.life) && selectedInventory == old(selectedInventory)
                && selectedConsume == old(selectedConsume) && panel == old(panel)
      ensures old(selectedInventory).Some? && old(selectedConsume).Some?
              && old(inventorySlots[selectedInventory.value].data.isFull) ==>
                DataOf(inventorySlots) == old(DataOf(inventorySlots))
                && DataOf(consumeSlots) ==
                     old(DataOf(consumeSlots))[old(selectedConsume).value := old(inventorySlots[selectedInventory.value].data)]
                && OnlyHighlightsMoved(inventorySlots, ViewsOf(inventorySlots), old(ViewsOf(inventorySlots)))
                && OnlyHighlightsMoved(consumeSlots, ViewsOf(consumeSlots),
                     old(ViewsOf(consumeSlots))[old(selectedConsume).value :=
                       Lit(old(consumeSlots[selectedConsume.value].view), old(inventorySlots[selectedInventory.value].data.itemSprite))])
                && player.life == EquipEffect(old(player.life), old(consumeSlots[selectedConsume.value].data.storedCard),
                                              old(inventorySlots[selectedInventory.value].data.storedCard))
                && selectedInventory.None? && selectedConsume.None? && panel == DP.Show(old(panel), None)
    {
      if selectedInventory.None? || selectedConsume.None? { return; }
      if !inventorySlots[selectedInventory.value].data.isFull { return; }
      Equip(selectedInventory.value, selectedConsume.value);
      DeselectAll();
    }

    /** The equip steps: the consume slot's old card effect is removed, the
        inventory item is copied into the consume slot, and its card's effect
        is applied. */
    method Equip(i: nat, j: nat)
      requires Valid() && i < |inventorySlots| && j < |consumeSlots| && inventorySlots[i].data.isFull
      modifies conRepr, player`life
      ensures Valid()
      ensures DataOf(inventorySlots) == old(DataOf(inventorySlots)) && ViewsOf(inventorySlots) == old(ViewsOf(inventorySlots))
      ensures DataOf(consumeSlots) == old(DataOf(consumeSlots))[j := inventorySlots[i].data]
      ensures ViewsOf(consumeSlots) == old(ViewsOf(consumeSlots))[j := Lit(old(consumeSlots[j].view), inventorySlots[i].data.itemSprite)]
      ensures player.life == EquipEffect(old(player.life), old(consumeSlots[j].data.storedCard), inventorySlots[i].data.storedCard)
    {
      var d := inventorySlots[i].data;
      var oldCard := consumeSlots[j].data.storedCard;
      ghost var ds, vs := DataOf(consumeSlots), ViewsOf(consumeSlots);
      CopyInto(consumeSlots, j, d);
      CopyKeepsShown(ds, vs, j, d);
      Reequip(oldCard, d.storedCard, player);
    }

    /** RemoveEffect of the card taken off, then ApplyEffect of the card put
        on. (The source copies the slot between the two calls; the copy does
        not touch the player, so the order does not matter.) */
    static method Reequip(oldCard: Option<CD.CardData>, newCard: Option<CD.CardData>, pc: PC.PlayerController2D)
      modifies pc`life
      ensures pc.life == EquipEffect(old(pc.life), oldCard, newCard)
    {
      if oldCard.Some? {
        CD.RemoveEffect(oldCard.value, pc);
      }
      if newCard.Some? {
        CD.ApplyEffect(newCard.value, pc);
      }
    }

    /** AddItem on slot j with the fields of a full slot's contents. */
    static method CopyInto(ss: seq<IS.ItemSlot>, j: nat, d: IS.SlotData)
      requires Distinct(ss) && j < |ss| && d.isFull
      modifies set s | s in ss
      ensures DataOf(ss) == old(DataOf(ss))[j := d]
      ensures ViewsOf(ss) == old(ViewsOf(ss))[j := Lit(old(ss[j].view), d.itemSprite)]
      ensures forall k :: 0 <= k < |ss| ==> ss[k].view.highlighted == old(ss[k].view.highlighted)
    {
      ghost var before, vbefore := DataOf(ss), ViewsOf(ss);
      ss[j].AddItem(d.itemName, d.itemSprite, d.description, d.storedCard);
      assert DataOf(ss) == before[j := d];
      assert ViewsOf(ss) == vbefore[j := Lit(vbefore[j], d.itemSprite)];
    }

    /** ItemSlot.OnPointerClick on the i-th slot of a kind, forwarded here. */
    method ClickSlot(kind: IS.Kind, i: nat, leftButton: bool)
      requires Valid()
      requires kind == IS.Inventory ==> i < |inventorySlots|
      requires kind == IS.Consume ==> i < |consumeSlots|
      modifies Slots(), this`selectedInventory, this`selectedConsume, this`panel
      ensures Valid()
      ensures kind == IS.Inventory ==>
                selectedInventory == Some(i) && selectedConsume == old(selectedConsume)
                && panel == DP.Show(old(panel), Some(old(inventorySlots[i].data)))
                && ViewsOf(consumeSlots) == old(ViewsOf(consumeSlots))
      ensures kind == IS.Consume ==>
                selectedConsume == Some(i) && selectedInventory == old(selectedInventory)
                && panel == DP.Show(old(panel), Some(old(consumeSlots[i].data)))
                && ViewsOf(inventorySlots) == old(ViewsOf(inventorySlots))
      ensures DataOf(inventorySlots) == old(DataOf(inventorySlots))
      ensures DataOf(consumeSlots) == old(DataOf(consumeSlots))
      ensures OnlyHighlightsMoved(inventorySlots, ViewsOf(inventorySlots), old(ViewsOf(inventorySlots)))
      ensures OnlyHighlightsMoved(consumeSlots, ViewsOf(consumeSlots), old(ViewsOf(consumeSlots)))
    {
      var slot := if kind == IS.Inventory then inventorySlots[i] else consumeSlots[i];
      var forwards := slot.OnPointerClick(leftButton);
      if forwards {
        SelectSlot(kind, i);
      }
    }
  }
}
