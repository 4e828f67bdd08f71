// Buying and selling shares at a booth (StockTrading.cs).
module StockTrading {
  import opened Common
  import opened Money
  import opened Items
  import opened DragDrop
  import opened StockMarkets

  /** The rounded price of one share. */
  function SharePrice(currentPrice: real): int
  {
    RoundHalfEven(currentPrice)
  }

  /** `SellStock`'s gain: the whole stack for a stackable share, else one share. */
  function StockSaleGain(sellPrice: int, count: int, stackable: bool): int
  {
    if stackable then sellPrice * count else sellPrice
  }

  /** The value of the shares in a list of slots: price times count, other items ignored. */
  function PortfolioValue(vs: seq<SlotValue>): real
    reads set i | 0 <= i < |vs| && vs[i].item != null :: vs[i].item
  {
    if |vs| == 0 then 0.0
    else
      var last := vs[|vs| - 1];
      PortfolioValue(vs[..|vs| - 1]) +
      (if last.item != null && last.item.isStock then last.item.currentPrice * last.count as real else 0.0)
  }

  /** With non-negative prices and counts the value is non-negative, and ordinary items add nothing. */
  lemma {:induction false} PortfolioValueBounds(vs: seq<SlotValue>)
    ensures (forall i :: 0 <= i < |vs| ==> vs[i].count >= 0 && (vs[i].item != null ==> vs[i].item.currentPrice >= 0.0)) ==>
      PortfolioValue(vs) >= 0.0
    ensures (forall i :: 0 <= i < |vs| ==> vs[i].item == null || !vs[i].item.isStock) ==> PortfolioValue(vs) == 0.0
  {
    if |vs| > 0 {
      var init := vs[..|vs| - 1];
      assert forall i :: 0 <= i < |init| ==> init[i] == vs[i];
      PortfolioValueBounds(init);
      var last := vs[|vs| - 1];
      if last.item != null && last.item.isStock && last.count >= 0 && last.item.currentPrice >= 0.0 {
        assert last.item.currentPrice * last.count as real >= 0.0;
      }
    }
  }

  class StockTrader {
    var stockMarket: StockMarket?
    const money: Currency
    var playerInventory: ItemContainer
    var playerStockPortfolio: ItemContainer?
    var dragController: ItemDragAndDropController

    constructor (money: Currency, playerInventory: ItemContainer, playerStockPortfolio: ItemContainer?,
                 dragController: ItemDragAndDropController)
      ensures this.money == money && this.playerInventory == playerInventory
      ensures this.playerStockPortfolio == playerStockPortfolio && this.dragController == dragController
      ensures stockMarket == null
    {
      this.money := money;
      this.playerInventory := playerInventory;
      this.playerStockPortfolio := playerStockPortfolio;
      this.dragController := dragController;
      stockMarket := null;
    }

    predicate Trading() reads this, stockMarket
    {
      stockMarket != null && stockMarket.IsMarketOpen()
    }

    /** Where bought shares go: the portfolio, or the inventory without one. */
    function Holdings(): ItemContainer reads this
    {
      if playerStockPortfolio != null then playerStockPortfolio else playerInventory
    }

    method BeginStockTrading(market: StockMarket)
      modifies this`stockMarket
      ensures stockMarket == market
    {
      stockMarket := market;
    }

    /** `BuyStock`: one share at the rounded price, only while the booth trades and the money suffices. */
    method BuyStock(id: int)
      requires Trading() ==> 0 <= id < |stockMarket.stockInventory.slots|
      modifies money, Holdings()`isDirty, Holdings().slots
      ensures !old(Trading()) ==> money.amount == old(money.amount) && Holdings().Values() == old(Holdings().Values())
      ensures old(Trading()) ==>
        var stock := old(stockMarket.stockInventory.slots[id].item);
        (stock == null || !stock.isStock ==>
           money.amount == old(money.amount) && Holdings().Values() == old(Holdings().Values())) &&
        (stock != null && stock.isStock ==>
           var stockPrice := SharePrice(old(stock.currentPrice));
           (old(money.Check(stockPrice as real)) ==>
              money.amount == old(money.amount) - stockPrice as real &&
              (Distinct(Holdings().slots) ==> Holdings().Values() == AddedValues(old(Holdings().Values()), stock, 1))) &&
           (!old(money.Check(stockPrice as real)) ==>
              money.amount == old(money.amount) && Holdings().Values() == old(Holdings().Values())))
    {
      if stockMarket == null || !stockMarket.IsMarketOpen() {
        return;
      }
      var stockSlot := stockMarket.stockInventory.slots[id];
      if stockSlot.item == null || !stockSlot.item.isStock {
        return;
      }
      var stock := stockSlot.item;
      var stockPrice := SharePrice(stock.currentPrice);
      Purchase(stock, stockPrice);
    }

    /** The end of `BuyStock`: when the price is affordable, pay it and add one share where shares go. */
    method Purchase(stock: Item, stockPrice: int)
      modifies money, Holdings()`isDirty, Holdings().slots
      ensures old(money.Check(stockPrice as real)) ==>
        money.amount == old(money.amount) - stockPrice as real &&
        (Distinct(Holdings().slots) ==> Holdings().Values() == AddedValues(old(Holdings().Values()), stock, 1))
      ensures !old(money.Check(stockPrice as real)) ==>
        money.amount == old(money.amount) && Holdings().Values() == old(Holdings().Values())
    {
      ghost var before := Holdings().Values();
      if money.Check(stockPrice as real) {
        money.Decrease(stockPrice as real);
        assert Holdings().Values() == before;
        if playerStockPortfolio != null {
          playerStockPortfolio.Add(stock, 1);
        } else {
          playerInventory.Add(stock, 1);
        }
      }
    }

    /** `BuyStockPartial`: shares are bought one at a time either way. */
    method BuyStockPartial(id: int)
      requires Trading() ==> 0 <= id < |stockMarket.stockInventory.slots|
      modifies money, Holdings()`isDirty, Holdings().slots
      ensures !old(Trading()) ==> money.amount == old(money.amount) && Holdings().Values() == old(Holdings().Values())
      ensures old(Trading()) ==>
        var stock := old(stockMarket.stockInventory.slots[id].item);
        (stock == null || !stock.isStock ==>
           money.amount == old(money.amount) && Holdings().Values() == old(Holdings().Values())) &&
        (stock != null && stock.isStock ==>
           var stockPrice := SharePrice(old(stock.currentPrice));
           (old(money.Check(stockPrice as real)) ==>
              money.amount == old(money.amount) - stockPrice as real &&
              (Distinct(Holdings().slots) ==> Holdings().Values() == AddedValues(old(Holdings().Values()), stock, 1))) &&
           (!old(money.Check(stockPrice as real)) ==>
              money.amount == old(money.amount) && Holdings().Values() == old(Holdings().Values())))
    {
      BuyStock(id);
    }

    /** `SellStock`: sell the held shares at the rounded price and empty the hand. */
    method SellStock()
      modifies money, dragController.itemSlot, dragController`iconActive, dragController`countShown
      ensures var held := old(dragController.itemSlot.Value());
        !old(Trading()) || held.item == null || !held.item.isStock ==>
          money.amount == old(money.amount) && dragController.itemSlot.Value() == held
      ensures var held := old(dragController.itemSlot.Value());
        old(Trading()) && held.item != null && held.item.isStock ==>
          money.amount == old(money.amount) +
                          StockSaleGain(SharePrice(held.item.currentPrice), held.count, held.item.stackable) as real &&
          dragController.itemSlot.Value() == Empty
    {
      if stockMarket == null || !stockMarket.IsMarketOpen() {
        return;
      }
      if dragController.itemSlot.item == null || !dragController.itemSlot.item.isStock {
        return;
      }
      var stock := dragController.itemSlot.item;
      var sellPrice := SharePrice(stock.currentPrice);
      var moneyGain := StockSaleGain(sellPrice, dragController.itemSlot.count, stock.stackable);
      money.Add(moneyGain as real);
      dragController.itemSlot.Clear();
      dragController.UpdateIcon();
    }

    /** `SellStockPartial`: sell one held share. */
    method SellStockPartial()
      modifies money, dragController.itemSlot, dragController`iconActive, dragController`countShown
      ensures var held := old(dragController.itemSlot.Value());
        !old(Trading()) || held.item == null || !held.item.isStock ==>
          money.amount == old(money.amount) && dragController.itemSlot.Value() == held
      ensures var held := old(dragController.itemSlot.Value());
        old(Trading()) && held.item != null && held.item.isStock ==>
          money.amount == old(money.amount) + SharePrice(held.item.currentPrice) as real &&
          dragController.itemSlot.Value() == (if held.count - 1 <= 0 then Empty else SlotValue(held.item, held.count - 1))
    {
      if stockMarket == null || !stockMarket.IsMarketOpen() {
        return;
      }
      if dragController.itemSlot.item == null || !dragController.itemSlot.item.isStock {
        return;
      }
      var stock := dragController.itemSlot.item;
      var sellPrice := SharePrice(stock.currentPrice);
      money.Add(sellPrice as real);
      dragController.itemSlot.count := dragController.itemSlot.count - 1;
      if dragController.itemSlot.count <= 0 {
        dragController.itemSlot.Clear();
      }
      dragController.UpdateIcon();
    }

    /** `GetPortfolioValue`: the value of the shares where bought shares go. */
    method GetPortfolioValue() returns (totalValue: real)
      ensures totalValue == PortfolioValue(Holdings().Values())
    {
      totalValue := 0.0;
      var portfolio := if playerStockPortfolio != null then playerStockPortfolio else playerInventory;
      ghost var vs := portfolio.Values();
      var i := 0;
      while i < |portfolio.slots|
        invariant 0 <= i <= |portfolio.slots|
        invariant totalValue == PortfolioValue(vs[..i])
      {
        assert vs[..i + 1][..i] == vs[..i];
        var slot := portfolio.slots[i];
        if slot.item != null && slot.item.isStock {
          totalValue := totalValue + slot.item.currentPrice * slot.count as real;
        }
        i := i + 1;
      }
      assert vs[..i] == vs;
    }
  }
}
