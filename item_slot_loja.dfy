/** ItemSlotLoja (Assets/Scripts/ItemSlotLoja.cs): one card for sale in the
    shop, with its price, a highlight image and a "sold" panel. Each of the
    image, the price text, the highlight image and the sold panel may be
    unassigned in the inspector, and then the code leaves it alone. */
module ItemSlotLoja {
  import opened Common
  import CD = CardData
  import DecimalText

  /** What the slot shows. */
  datatype Look = Look(artwork: Option<Sprite>, priceText: string, highlighted: bool, soldPanelActive: bool)

  /** Which inspector references are assigned. */
  datatype Refs = Refs(hasArtworkImage: bool, hasPriceText: bool, hasHighlightImage: bool, hasSoldPanel: bool)

  /** Awake's effect on what the slot shows. */
  function Awoken(card: Option<CD.CardData>, price: int, refs: Refs, before: Look): (r: Look)
    ensures r.artwork == (if card.Some? && refs.hasArtworkImage then card.value.artwork else before.artwork)
    ensures refs.hasPriceText ==> DecimalText.Parse(r.priceText) == Some(price)
    ensures !refs.hasPriceText ==> r.priceText == before.priceText
    ensures refs.hasHighlightImage ==> !r.highlighted
    ensures refs.hasSoldPanel ==> !r.soldPanelActive
  {
    DecimalText.ParseShow(price);
    Look(if card.Some? && refs.hasArtworkImage then card.value.artwork else before.artwork,
         if refs.hasPriceText then DecimalText.Show(price) else before.priceText,
         if refs.hasHighlightImage then false else before.highlighted,
         if refs.hasSoldPanel then false else before.soldPanelActive)
  }

  class ItemSlotLoja {
    const cardData: Option<CD.CardData>
    const price: int
    const refs: Refs
    var isSold: bool
    var look: Look

    /** Awake, over what the prefab showed before it. */
    constructor (card: Option<CD.CardData>, price: int, refs: Refs, prefab: Look)
      ensures cardData == card && this.price == price && this.refs == refs
      ensures !isSold && look == Awoken(card, price, refs, prefab)
    {
      cardData := card;
      this.price := price;
      this.refs := refs;
      isSold := false;
      look := prefab;
      new;
      if card.Some? && refs.hasArtworkImage {
        look := look.(artwork := card.value.artwork);
      }
      if refs.hasPriceText {
        look := look.(priceText := DecimalText.Show(price));
      }
      if refs.hasHighlightImage {
        look := look.(highlighted := false);
      }
      if refs.hasSoldPanel {
        look := look.(soldPanelActive := false);
      }
    }

    /** OnPointerClick: a sold slot ignores the click; otherwise the click is
        forwarded to the shop (`forwards`), which clears every highlight, lights
        this one and selects this slot. */
    method OnPointerClick() returns (forwards: bool)
      ensures forwards == !isSold
    {
      forwards := !isSold;
    }

    /** MarkAsSold: latches isSold, shows the sold panel, drops the highlight. */
    method MarkAsSold()
      modifies this`isSold, this`look
      ensures isSold
      ensures look == old(look).(soldPanelActive := if refs.hasSoldPanel then true else old(look).soldPanelActive,
                                 highlighted := if refs.hasHighlightImage then false else old(look).highlighted)
    {
      isSold := true;
      if refs.hasSoldPanel {
        look := look.(soldPanelActive := true);
      }
      if refs.hasHighlightImage {
        look := look.(highlighted := false);
      }
    }

    method Highlight(on: bool)
      modifies this`look
      ensures look == old(look).(highlighted := if refs.hasHighlightImage then on else old(look).highlighted)
    {
      if refs.hasHighlightImage {
        look := look.(highlighted := on);
      }
    }
  }
}
