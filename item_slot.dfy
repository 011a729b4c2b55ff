/** ItemSlot (Assets/Prefabs/Inventario/ItemSlot.cs): one inventory or consume
    slot in the inventory UI. It holds an item's name, sprite, description and
    optional card, shows the sprite in its image, and has an optional
    highlight child. The image reference is taken to be assigned (AddItem
    dereferences it unconditionally). */
module ItemSlot {
  import opened Common
  import CD = CardData

  datatype Kind = Inventory | Consume

  /** The slot's data fields. */
  datatype SlotData = SlotData(
    itemName: Option<string>,
    itemSprite: Option<Sprite>,
    description: Option<string>,
    isFull: bool,
    storedCard: Option<CD.CardData>)

  /** What the slot shows: its image's enabled flag and sprite, and whether the
      highlight child is active. */
  datatype SlotView = SlotView(imageEnabled: bool, imageSprite: Option<Sprite>, highlighted: bool)

  /** The data of a cleared slot: every reference null, not full. */
  const Empty: SlotData := SlotData(None, None, None, false, None)

  /** The data AddItem stores, whatever the slot held before. */
  function Stored(name: Option<string>, sprite: Option<Sprite>, desc: Option<string>,
                  card: Option<CD.CardData>): (d: SlotData)
    ensures d.isFull
    ensures d.itemName == name && d.itemSprite == sprite && d.description == desc && d.storedCard == card
  {
    SlotData(name, sprite, desc, true, card)
  }

  /** The slot data a card's AddItem stores (InventarioController.AddCard). */
  function StoredCard(card: CD.CardData): (d: SlotData)
    ensures d == Stored(card.cardName, card.artwork, card.description, Some(card))
    ensures d.storedCard == Some(card) && d.isFull
  {
    Stored(card.cardName, card.artwork, card.description, Some(card))
  }

  class ItemSlot {
    const kind: Kind
    /** Whether the "itemSelecionado" highlight child was found. */
    const hasHighlight: bool
    var data: SlotData
    var view: SlotView

    /** Awake: the slot starts cleared. */
    constructor (kind: Kind, hasHighlight: bool)
      ensures this.kind == kind && this.hasHighlight == hasHighlight
      ensures data == Empty && view == SlotView(false, None, false)
    {
      this.kind := kind;
      this.hasHighlight := hasHighlight;
      data := Empty;
      view := SlotView(false, None, false);
    }

    /** The three-argument AddItem: the four-argument one with a null card. */
    method AddItemWithoutCard(name: Option<string>, sprite: Option<Sprite>, desc: Option<string>)
      modifies this`data, this`view
      ensures data == Stored(name, sprite, desc, None)
      ensures view == old(view).(imageEnabled := true, imageSprite := sprite)
    {
      AddItem(name, sprite, desc, None);
    }

    /** AddItem: overwrites the slot, full or not. */
    method AddItem(name: Option<string>, sprite: Option<Sprite>, desc: Option<string>, card: Option<CD.CardData>)
      modifies this`data, this`view
      ensures data == Stored(name, sprite, desc, card)
      ensures view == old(view).(imageEnabled := true, imageSprite := sprite)
    {
      data := data.(itemName := name, itemSprite := sprite, description := desc, storedCard := card);
      view := view.(imageEnabled := true, imageSprite := sprite);
      data := data.(isFull := true);
    }

    method Clear()
      modifies this`data, this`view
      ensures data == Empty
      ensures view == SlotView(false, None, if hasHighlight then false else old(view).highlighted)
    {
      data := Empty;
      view := view.(imageSprite := None, imageEnabled := false);
      if hasHighlight {
        view := view.(highlighted := false);
      }
    }

    /** OnPointerClick: whether the click is forwarded to SelectSlot. The `if`
        on the left button guards only the log line, so every button forwards. */
    method OnPointerClick(leftButton: bool) returns (forwards: bool)
      ensures forwards
    {
      forwards := true;
    }

    /** SetSelected: `highlight?.SetActive(on)`. */
    method SetSelected(on: bool)
      modifies this`view
      ensures view == old(view).(highlighted := if hasHighlight then on else old(view).highlighted)
    {
      if hasHighlight {
        view := view.(highlighted := on);
      }
    }
  }
}
