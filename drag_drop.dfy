// The slot carried by the mouse (ItemDragAndDropController.cs).
module DragDrop {
  import opened Items

  /** `OnClick`'s exchange, as (new hand, new slot): the hand takes the slot; the slot takes the hand, if any. */
  function Clicked(hand: SlotValue, slot: SlotValue): (SlotValue, SlotValue)
  {
    if hand.item == null then (slot, Empty) else (slot, hand)
  }

  /** A click moves items between the hand and the slot and creates or destroys none. */
  lemma ClickConserves(hand: SlotValue, slot: SlotValue, x: Item)
    ensures var r := Clicked(hand, slot);
      Held(r.0, x) + Held(r.1, x) == Held(hand, x) + Held(slot, x)
    ensures hand.item == null ==> Clicked(hand, slot) == (slot, Empty)
  {
  }

  /** Two clicks on the same slot while holding something give back the hand and the slot. */
  lemma ClickTwiceRestores(hand: SlotValue, slot: SlotValue)
    requires hand.item != null && WellFormed(slot)
    ensures var r := Clicked(hand, slot);
      Clicked(r.0, r.1) == (hand, slot)
  {
  }

  /** The count label shows only for more than one item. */
  predicate ShowsCount(count: int)
  {
    count > 1
  }

  class ItemDragAndDropController {
    var itemSlot: ItemSlot
    var iconActive: bool
    /** Whether the count label is shown; meaningful when there is a label (`hasCountText`). */
    var countShown: bool
    const hasCountText: bool

    /** `Start`: an empty hand. */
    constructor (hasCountText: bool)
      ensures fresh(itemSlot) && itemSlot.Value() == Empty
      ensures this.hasCountText == hasCountText && !iconActive && !countShown
    {
      itemSlot := new ItemSlot();
      this.hasCountText := hasCountText;
      iconActive := false;
      countShown := false;
    }

    /** `OnClick`: take the slot into an empty hand, or exchange hand and slot. */
    method OnClick(slot: ItemSlot)
      modifies slot, itemSlot, this`iconActive, this`countShown
      ensures slot != itemSlot ==> (itemSlot.Value(), slot.Value()) == Clicked(old(itemSlot.Value()), old(slot.Value()))
      ensures slot == itemSlot ==>
        itemSlot.Value() == (if old(itemSlot.item) == null then Empty else old(itemSlot.Value()))
      ensures iconActive == (itemSlot.item != null)
    {
      if itemSlot.item == null {
        itemSlot.Copy(slot);
        slot.Clear();
      } else {
        var item := slot.item;
        var count := slot.count;
        slot.Copy(itemSlot);
        itemSlot.Set(item, count);
      }
      UpdateIcon();
    }

    /** `UpdateIcon`: the icon shows while something is held, and then so does the count rule. */
    method UpdateIcon()
      modifies this`iconActive, this`countShown
      ensures iconActive == (itemSlot.item != null)
      ensures itemSlot.item != null && hasCountText ==> countShown == ShowsCount(itemSlot.count)
      ensures itemSlot.item == null || !hasCountText ==> countShown == old(countShown)
    {
      if itemSlot.item == null {
        iconActive := false;
      } else {
        iconActive := true;
        UpdateCountDisplay();
      }
    }

    method UpdateCountDisplay()
      modifies this`countShown
      ensures hasCountText ==> countShown == ShowsCount(itemSlot.count)
      ensures !hasCountText ==> countShown == old(countShown)
    {
      if hasCountText {
        if itemSlot.count > 1 {
          countShown := true;
        } else {
          countShown := false;
        }
      }
    }

    /** `CheckForSale`: something is held and it may be sold; a well-formed hand then holds at least one. */
    predicate CheckForSale() reads this, itemSlot
      ensures CheckForSale() && WellFormed(itemSlot.Value()) ==> itemSlot.count >= 1
    {
      itemSlot.item != null && itemSlot.item.canBeSold
    }
  }
}
