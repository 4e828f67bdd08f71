// Clicking an inventory slot with the mouse hand (ItemPanel.cs).
module ItemPanels {
  import opened Common
  import opened Items
  import opened DragDrop

  /** Whether a left click changes anything: only with an item on one side or the other. */
  predicate LeftClickActs(slot: SlotValue, hand: SlotValue)
  {
    hand.item != null || slot.item != null
  }

  /**
   * `OnLeftClick`, as (new slot, new hand): an empty hand takes the whole stack; a held stack is
   * placed whole on an empty slot, merged into the same stackable item, or else swapped.
   */
  function LeftClick(slot: SlotValue, hand: SlotValue): (SlotValue, SlotValue)
  {
    if hand.item == null then
      (if slot.item != null then (Empty, slot) else (slot, hand))
    else if slot.item == null then (hand, Empty)
    else if slot.item == hand.item && slot.item.stackable then (SlotValue(slot.item, slot.count + hand.count), Empty)
    else (hand, slot)
  }

  /** Whether a right click changes anything. */
  predicate RightClickActs(slot: SlotValue, hand: SlotValue)
  {
    if hand.item == null then slot.item != null && slot.count > 0
    else slot.item == null || (slot.item == hand.item && slot.item.stackable)
  }

  /** One item fewer in the hand, emptied at 0. */
  function TakeOne(hand: SlotValue): SlotValue
  {
    if hand.count - 1 <= 0 then Empty else SlotValue(hand.item, hand.count - 1)
  }

  /**
   * `OnRightClick`, as (new slot, new hand): an empty hand takes half of a stack rounded up (a
   * non-stackable item whole); a held stack gives one item to an empty slot or the same stack.
   */
  function RightClick(slot: SlotValue, hand: SlotValue): (SlotValue, SlotValue)
  {
    if hand.item == null then
      if slot.item != null && slot.count > 0 then
        if slot.item.stackable then
          var halfAmount := Ceil(slot.count as real / 2.0);
          var rest := slot.count - halfAmount;
          (if rest <= 0 then Empty else SlotValue(slot.item, rest), SlotValue(slot.item, halfAmount))
        else (Empty, slot)
      else (slot, hand)
    else if slot.item == null then (SlotValue(hand.item, 1), TakeOne(hand))
    else if slot.item == hand.item && slot.item.stackable then (SlotValue(slot.item, slot.count + 1), TakeOne(hand))
    else (slot, hand)
  }

  /** A click that does not act leaves both sides as they were. */
  lemma QuietClicks(slot: SlotValue, hand: SlotValue)
    ensures !LeftClickActs(slot, hand) ==> LeftClick(slot, hand) == (slot, hand)
    ensures !RightClickActs(slot, hand) ==> RightClick(slot, hand) == (slot, hand)
  {
  }

  /** An empty hand right-clicking a stack of n takes ceil(n/2) and leaves floor(n/2). */
  lemma RightClickSplits(slot: SlotValue)
    requires slot.item != null && slot.item.stackable && slot.count > 0
    ensures var r := RightClick(slot, Empty);
      r.1 == SlotValue(slot.item, (slot.count + 1) / 2) &&
      r.0 == (if slot.count == 1 then Empty else SlotValue(slot.item, slot.count / 2))
  {
    HalfRoundedUp(slot.count);
  }

  /** Left clicks conserve every item across the slot and the hand. */
  lemma LeftClickConserves(slot: SlotValue, hand: SlotValue, x: Item)
    ensures var r := LeftClick(slot, hand);
      Held(r.0, x) + Held(r.1, x) == Held(slot, x) + Held(hand, x)
  {
  }

  /** Right clicks do too, on well-formed slots. */
  lemma RightClickConserves(slot: SlotValue, hand: SlotValue, x: Item)
    requires WellFormed(slot) && WellFormed(hand)
    ensures var r := RightClick(slot, hand);
      Held(r.0, x) + Held(r.1, x) == Held(slot, x) + Held(hand, x)
  {
    if hand.item == null && slot.item != null && slot.item.stackable {
      HalfRoundedUp(slot.count);
    }
  }

  /** Both clicks keep slots well formed. */
  lemma ClicksKeepWellFormed(slot: SlotValue, hand: SlotValue)
    requires WellFormed(slot) && WellFormed(hand)
    ensures WellFormed(LeftClick(slot, hand).0) && WellFormed(LeftClick(slot, hand).1)
    ensures WellFormed(RightClick(slot, hand).0) && WellFormed(RightClick(slot, hand).1)
  {
    if hand.item == null && slot.item != null && slot.item.stackable {
      HalfRoundedUp(slot.count);
    }
  }

  /** Taking a stack and putting it back, or swapping twice, restores both sides. */
  lemma LeftClickTwiceRestores(slot: SlotValue, hand: SlotValue)
    requires WellFormed(slot) && WellFormed(hand)
    requires !(slot.item != null && slot.item == hand.item && slot.item.stackable)
    ensures var r := LeftClick(slot, hand);
      LeftClick(r.0, r.1) == (slot, hand)
  {
  }

  /** Taking half of a stack with a right click and dropping it back with a left click restores the stack. */
  lemma TakeHalfThenPutBack(slot: SlotValue)
    requires slot.item != null && slot.item.stackable && slot.count > 0
    ensures var r := RightClick(slot, Empty);
      LeftClick(r.0, r.1) == (slot, Empty)
  {
    RightClickSplits(slot);
  }

  class ItemPanel {
    var inventory: ItemContainer?

    constructor (inventory: ItemContainer?)
      ensures this.inventory == inventory
    {
      this.inventory := inventory;
    }

    /** The click addresses a slot of the inventory. */
    predicate Addressed(id: int) reads this, inventory
    {
      inventory != null && 0 <= id < |inventory.slots|
    }

    /** `OnLeftClick`; a click without an inventory or past its last slot does nothing. */
    method OnLeftClick(id: int, dragController: ItemDragAndDropController)
      requires 0 <= id
      requires Addressed(id) ==> inventory.slots[id] != dragController.itemSlot
      modifies inventory, if Addressed(id) then {inventory.slots[id]} else {}, dragController.itemSlot,
               dragController`iconActive, dragController`countShown
      ensures !old(Addressed(id)) ==>
        dragController.itemSlot.Value() == old(dragController.itemSlot.Value()) &&
        (inventory != null ==> inventory.slots == old(inventory.slots) && inventory.isDirty == old(inventory.isDirty))
      ensures old(Addressed(id)) ==>
        inventory.slots == old(inventory.slots) &&
        (inventory.slots[id].Value(), dragController.itemSlot.Value()) ==
          LeftClick(old(inventory.slots[id].Value()), old(dragController.itemSlot.Value())) &&
        inventory.isDirty == (old(inventory.isDirty) ||
                              LeftClickActs(old(inventory.slots[id].Value()), old(dragController.itemSlot.Value())))
      ensures old(Addressed(id)) ==> dragController.iconActive == (dragController.itemSlot.item != null)
      ensures !old(Addressed(id)) ==> dragController.iconActive == old(dragController.iconActive)
    {
      if inventory == null || id >= |inventory.slots| {
        return;
      }
      var clickedSlot := inventory.slots[id];
      var hand := dragController.itemSlot;
      if hand.item == null {
        if clickedSlot.item != null {
          hand.Copy(clickedSlot);
          clickedSlot.Clear();
          inventory.isDirty := true;
        }
      } else {
        if clickedSlot.item == null {
          clickedSlot.Copy(hand);
          hand.Clear();
          inventory.isDirty := true;
        } else if clickedSlot.item == hand.item && clickedSlot.item.stackable {
          clickedSlot.count := clickedSlot.count + hand.count;
          hand.Clear();
          inventory.isDirty := true;
        } else {
          var temp := new ItemSlot();
          temp.Copy(clickedSlot);
          clickedSlot.Copy(hand);
          hand.Copy(temp);
          inventory.isDirty := true;
        }
      }
      dragController.UpdateIcon();
    }

    /** `OnRightClick`; a click without an inventory or past its last slot does nothing. */
    method OnRightClick(id: int, dragController: ItemDragAndDropController)
      requires 0 <= id
      requires Addressed(id) ==> inventory.slots[id] != dragController.itemSlot
      modifies inventory, if Addressed(id) then {inventory.slots[id]} else {}, dragController.itemSlot,
               dragController`iconActive, dragController`countShown
      ensures !old(Addressed(id)) ==>
        dragController.itemSlot.Value() == old(dragController.itemSlot.Value()) &&
        (inventory != null ==> inventory.slots == old(inventory.slots) && inventory.isDirty == old(inventory.isDirty))
      ensures old(Addressed(id)) ==>
        inventory.slots == old(inventory.slots) &&
        (inventory.slots[id].Value(), dragController.itemSlot.Value()) ==
          RightClick(old(inventory.slots[id].Value()), old(dragController.itemSlot.Value())) &&
        inventory.isDirty == (old(inventory.isDirty) ||
                              RightClickActs(old(inventory.slots[id].Value()), old(dragController.itemSlot.Value())))
      ensures old(Addressed(id)) ==> dragController.iconActive == (dragController.itemSlot.item != null)
      ensures !old(Addressed(id)) ==> dragController.iconActive == old(dragController.iconActive)
    {
      if inventory == null || id >= |inventory.slots| {
        return;
      }
      var clickedSlot := inventory.slots[id];
      var hand := dragController.itemSlot;
      if hand.item == null {
        if clickedSlot.item != null && clickedSlot.count > 0 {
          if clickedSlot.item.stackable {
            var halfAmount := Ceil(clickedSlot.count as real / 2.0);
            hand.Set(clickedSlot.item, halfAmount);
            clickedSlot.count := clickedSlot.count - halfAmount;
            if clickedSlot.count <= 0 {
              clickedSlot.Clear();
            }
          } else {
            hand.Copy(clickedSlot);
            clickedSlot.Clear();
          }
          inventory.isDirty := true;
        }
      } else {
        if clickedSlot.item == null {
          clickedSlot.Set(hand.item, 1);
          hand.count := hand.count - 1;
          if hand.count <= 0 {
            hand.Clear();
          }
          inventory.isDirty := true;
        } else if clickedSlot.item == hand.item && clickedSlot.item.stackable {
          clickedSlot.count := clickedSlot.count + 1;
          hand.count := hand.count - 1;
          if hand.count <= 0 {
            hand.Clear();
          }
          inventory.isDirty := true;
        }
      }
      dragController.UpdateIcon();
    }
  }
}
