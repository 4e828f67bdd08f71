// Buying from and selling to a store (Trading.cs, with the price multipliers of Store.cs).
module Trading {
  import opened Common
  import opened Money
  import opened Items
  import opened DragDrop

  /** A store: its stock and the two price multipliers. */
  class Store {
    var storeContent: ItemContainer
    var buyFromPlayerMultip: real
    var sellToPlayerMultip: real

    constructor (storeContent: ItemContainer)
      ensures this.storeContent == storeContent
      ensures buyFromPlayerMultip == 1.8 && sellToPlayerMultip == 1.0
    {
      this.storeContent := storeContent;
      buyFromPlayerMultip := 1.8;
      sellToPlayerMultip := 1.0;
    }
  }

  /** `BuyItem`'s price: truncated. */
  function BuyPrice(price: int, sellToPlayerMultip: real): int
  {
    Trunc(price as real * sellToPlayerMultip)
  }

  /** `SellItem`'s gain: the whole stack for a stackable item, else one, truncated. */
  function SaleGain(price: int, count: int, stackable: bool, buyFromPlayerMultip: real): int
  {
    if stackable then Trunc((price * count) as real * buyFromPlayerMultip) else Trunc(price as real * buyFromPlayerMultip)
  }

  /** `BuyItemPartial`'s price for `quantity` items: rounded. */
  function PartialPrice(price: int, sellToPlayerMultip: real, quantity: int): int
  {
    RoundHalfEven(price as real * sellToPlayerMultip * quantity as real)
  }

  /** `SellItemPartial`'s price for one item: rounded. */
  function UnitSalePrice(price: int, buyFromPlayerMultip: real): int
  {
    RoundHalfEven(price as real * buyFromPlayerMultip)
  }

  /** `BuyItemPartial`'s quantity: half a stack of more than one, rounded up; else one. */
  function PartialQuantity(stackable: bool, count: int): (q: int)
    ensures q >= 1
    ensures stackable && count > 1 ==> q == (count + 1) / 2 && q < count
    ensures !(stackable && count > 1) ==> q == 1
  {
    if stackable && count > 1 then
      var half := Ceil(count as real / 2.0);
      assert half == (count + 1) / 2 by { HalfRoundedUp(count); }
      half
    else 1
  }

  /**
   * With the default multipliers, an item bought from a store sells back for more than was
   * paid: the player gains `Trunc(1.8 * p) - p`, at least half the price, on every round trip.
   */
  lemma BuyThenSellGains(price: int)
    requires price >= 2
    ensures SaleGain(price, 1, false, 1.8) - BuyPrice(price, 1.0) >= price / 2
    ensures SaleGain(price, 1, false, 1.8) > BuyPrice(price, 1.0)
  {
  }

  class Trader {
    var store: Store?
    const money: Currency
    var playerInventory: ItemContainer
    var dragController: ItemDragAndDropController

    constructor (money: Currency, playerInventory: ItemContainer, dragController: ItemDragAndDropController)
      ensures this.money == money && this.playerInventory == playerInventory && this.dragController == dragController
      ensures store == null
    {
      this.money := money;
      this.playerInventory := playerInventory;
      this.dragController := dragController;
      store := null;
    }

    /** `BeginTrading`. */
    method BeginTrading(store: Store)
      modifies this`store
      ensures this.store == store
    {
      this.store := store;
    }

    /** `StopTrading`. */
    method StopTrading()
      modifies this`store
      ensures store == null
    {
      store := null;
    }

    /**
     * `BuyItem`: pay the truncated price and receive one item, if affordable; the store keeps its
     * stock. An empty store slot makes the source throw before anything changes.
     */
    method BuyItem(id: int)
      requires store != null && 0 <= id < |store.storeContent.slots|
      modifies money, playerInventory`isDirty, playerInventory.slots
      ensures old(store.storeContent.slots[id].item) == null ==>
        money.amount == old(money.amount) && playerInventory.Values() == old(playerInventory.Values())
      ensures var item := old(store.storeContent.slots[id].item);
        item != null ==>
        var totalPrice := BuyPrice(item.price, store.sellToPlayerMultip);
        (old(money.Check(totalPrice as real)) ==>
           money.amount == old(money.amount) - totalPrice as real &&
           (Distinct(playerInventory.slots) ==>
              playerInventory.Values() == AddedValues(old(playerInventory.Values()), item, 1))) &&
        (!old(money.Check(totalPrice as real)) ==>
           money.amount == old(money.amount) && playerInventory.Values() == old(playerInventory.Values()))
      ensures forall j :: 0 <= j < |store.storeContent.slots| && store.storeContent.slots[j] !in playerInventory.slots ==>
        store.storeContent.slots[j].Value() == old(store.storeContent.slots[j].Value())
    {
      var itemToBuy := store.storeContent.slots[id].item;
      if itemToBuy == null {
        return;
      }
      var totalPrice := BuyPrice(itemToBuy.price, store.sellToPlayerMultip);
      Purchase(itemToBuy, 1, totalPrice);
    }

    /** The step both buying methods end with: when `totalPrice` is affordable, pay it and add the items. */
    method Purchase(item: Item, quantity: int, totalPrice: int)
      modifies money, playerInventory`isDirty, playerInventory.slots
      ensures old(money.Check(totalPrice as real)) ==>
        money.amount == old(money.amount) - totalPrice as real &&
        (Distinct(playerInventory.slots) ==>
           playerInventory.Values() == AddedValues(old(playerInventory.Values()), item, quantity))
      ensures !old(money.Check(totalPrice as real)) ==>
        money.amount == old(money.amount) && playerInventory.Values() == old(playerInventory.Values())
    {
      ghost var before := playerInventory.Values();
      if money.Check(totalPrice as real) {
        money.Decrease(totalPrice as real);
        assert playerInventory.Values() == before;
        playerInventory.Add(item, quantity);
      }
    }

    /** `SellItem`: sell the held stack if it may be sold, and empty the hand. */
    method SellItem()
      requires dragController.CheckForSale() ==> store != null
      modifies money, dragController.itemSlot, dragController`iconActive, dragController`countShown
      ensures old(dragController.CheckForSale()) ==>
        var held := old(dragController.itemSlot.Value());
        money.amount == old(money.amount) + SaleGain(held.item.price, held.count, held.item.stackable, store.buyFromPlayerMultip) as real &&
        dragController.itemSlot.Value() == Empty
      ensures !old(dragController.CheckForSale()) ==>
        money.amount == old(money.amount) && dragController.itemSlot.Value() == old(dragController.itemSlot.Value())
    {
      if dragController.CheckForSale() {
        var itemToSell := dragController.itemSlot;
        var moneyGain := SaleGain(itemToSell.item.price, itemToSell.count, itemToSell.item.stackable, store.buyFromPlayerMultip);
        money.Add(moneyGain as real);
        itemToSell.Clear();
        dragController.UpdateIcon();
      }
    }

    /** `BuyItemPartial`: half a stack (rounded up) or one item, at the rounded price, if affordable. */
    method BuyItemPartial(id: int)
      requires store != null && 0 <= id < |store.storeContent.slots|
      modifies money, playerInventory`isDirty, playerInventory.slots
      ensures old(store.storeContent.slots[id].item) == null ==>
        money.amount == old(money.amount) && playerInventory.Values() == old(playerInventory.Values())
      ensures var slot := old(store.storeContent.slots[id].Value());
        slot.item != null ==>
        var quantity := PartialQuantity(slot.item.stackable, slot.count);
        var totalPrice := PartialPrice(slot.item.price, store.sellToPlayerMultip, quantity);
        (old(money.Check(totalPrice as real)) ==>
           money.amount == old(money.amount) - totalPrice as real &&
           (Distinct(playerInventory.slots) ==>
              playerInventory.Values() == AddedValues(old(playerInventory.Values()), slot.item, quantity))) &&
        (!old(money.Check(totalPrice as real)) ==>
           money.amount == old(money.amount) && playerInventory.Values() == old(playerInventory.Values()))
      ensures forall j :: 0 <= j < |store.storeContent.slots| && store.storeContent.slots[j] !in playerInventory.slots ==>
        store.storeContent.slots[j].Value() == old(store.storeContent.slots[j].Value())
    {
      var storeSlot := store.storeContent.slots[id];
      if storeSlot.item == null {
        return;
      }
      var itemToBuy := storeSlot.item;
      var quantityToBuy := 1;
      if itemToBuy.stackable && storeSlot.count > 1 {
        quantityToBuy := Ceil(storeSlot.count as real / 2.0);
        HalfRoundedUp(storeSlot.count);
      }
      assert quantityToBuy == PartialQuantity(itemToBuy.stackable, storeSlot.count);
      var totalPrice := PartialPrice(itemToBuy.price, store.sellToPlayerMultip, quantityToBuy);
      Purchase(itemToBuy, quantityToBuy, totalPrice);
    }

    /** `SellItemPartial`: sell one held item at the rounded price. */
    method SellItemPartial()
      requires dragController.CheckForSale() ==> store != null
      modifies money, dragController.itemSlot, dragController`iconActive, dragController`countShown
      ensures old(dragController.CheckForSale()) ==>
        var held := old(dragController.itemSlot.Value());
        money.amount == old(money.amount) + UnitSalePrice(held.item.price, store.buyFromPlayerMultip) as real &&
        dragController.itemSlot.Value() == (if held.count - 1 <= 0 then Empty else SlotValue(held.item, held.count - 1))
      ensures !old(dragController.CheckForSale()) ==>
        money.amount == old(money.amount) && dragController.itemSlot.Value() == old(dragController.itemSlot.Value())
    {
      if dragController.itemSlot.item == null || !dragController.CheckForSale() {
        return;
      }
      var itemToSell := dragController.itemSlot.item;
      var sellPrice := UnitSalePrice(itemToSell.price, store.buyFromPlayerMultip);
      money.Add(sellPrice as real);
      dragController.itemSlot.count := dragController.itemSlot.count - 1;
      if dragController.itemSlot.count <= 0 {
        dragController.itemSlot.Clear();
      }
      dragController.UpdateIcon();
    }
  }
}
