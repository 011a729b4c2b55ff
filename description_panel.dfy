/** DescriptionPanel (Assets/Prefabs/Inventario/DescriptionPanel.cs): the
    panel beside the inventory that shows the selected slot's sprite and a
    bold name line followed by the description. Show is a function of the
    slot and the panel's previous image sprite. */
module DescriptionPanel {
  import opened Common
  import IS = ItemSlot

  /** The image's enabled flag and sprite, and the text. */
  datatype Panel = Panel(imageEnabled: bool, sprite: Option<Sprite>, text: string)

  predicate Shows(slot: Option<IS.SlotData>) {
    slot.Some? && slot.value.isFull
  }

  /** The rich text for a full slot: the name in bold, a newline, the
      description; a null string prints as nothing. */
  function Caption(d: IS.SlotData): (t: string)
    ensures t == "<b>" + OrEmpty(d.itemName) + "</b>\n" + OrEmpty(d.description)
    ensures |t| >= 8 && t[..3] == "<b>"
  {
    "<b>" + OrEmpty(d.itemName) + "</b>\n" + OrEmpty(d.description)
  }

  /** Show(slot): a null or non-full slot hides the image and blanks the text;
      a full one shows its sprite and caption. */
  function Show(p: Panel, slot: Option<IS.SlotData>): (r: Panel)
    ensures !Shows(slot) ==> r == Panel(false, p.sprite, "")
    ensures Shows(slot) ==> r == Panel(true, slot.value.itemSprite, Caption(slot.value))
  {
    if slot.None? || !slot.value.isFull then p.(imageEnabled := false, text := "")
    else Panel(true, slot.value.itemSprite, Caption(slot.value))
  }

  /** The image is on, and the text is non-empty, exactly for a full slot. */
  lemma ShownIffFull(p: Panel, slot: Option<IS.SlotData>)
    ensures Show(p, slot).imageEnabled <==> Shows(slot)
    ensures Show(p, slot).text != "" <==> Shows(slot)
  {
    if Shows(slot) {
      assert |Show(p, slot).text| >= 8;
    }
  }

  /** A slot that is not full is shown exactly as no slot at all. */
  lemma EmptySlotLikeNull(p: Panel, d: IS.SlotData)
    requires !d.isFull
    ensures Show(p, Some(d)) == Show(p, None)
  {
  }

  /** Different item names give different captions when the description is
      the same, so the caption identifies the item. */
  lemma CaptionSeparatesNames(a: IS.SlotData, b: IS.SlotData)
    requires OrEmpty(a.description) == OrEmpty(b.description)
    requires Caption(a) == Caption(b)
    ensures OrEmpty(a.itemName) == OrEmpty(b.itemName)
  {
    var na, nb, tail := OrEmpty(a.itemName), OrEmpty(b.itemName), "</b>\n" + OrEmpty(a.description);
    assert Caption(a) == "<b>" + na + tail;
    assert Caption(b) == "<b>" + nb + tail;
    assert |na| == |nb|;
    assert na == Caption(a)[3..3 + |na|];
    assert nb == Caption(b)[3..3 + |nb|];
  }
}
