// Market hours, the once-a-day open/close latch and overnight repricing (StockMarketManager.cs,
// with the `StockMarket` status it broadcasts to).
module StockMarkets {
  import opened Common
  import opened Clock
  import opened Items

  /** A stock that the random walks move: an active stock asset. */
  predicate Moves(x: Item?)
  {
    x != null && x.isStock && x.isActive
  }

  /** A moved stock's prices: at least 1, and the item price its rounding. */
  predicate Priced(x: Item) reads x
  {
    x.currentPrice >= 1.0 && x.price == RoundHalfEven(x.currentPrice)
  }

  /** One random move of a stock: by the relative change, floored at 1, the item price following it. */
  method Reprice(stock: Item, change: real)
    modifies stock`previousDayPrice, stock`currentPrice, stock`priceHistory, stock`price
    ensures stock.previousDayPrice == old(stock.currentPrice)
    ensures stock.currentPrice == MaxReal(old(stock.currentPrice) * (1.0 + change), 1.0)
    ensures stock.priceHistory == PushBounded(old(stock.priceHistory), stock.currentPrice, stock.maxHistoryLength)
    ensures Priced(stock)
  {
    var newPrice := stock.currentPrice * (1.0 + change);
    newPrice := MaxReal(newPrice, 1.0);
    stock.UpdatePrice(newPrice);
    stock.price := RoundHalfEven(stock.currentPrice);
  }

  /** One random move of a stock by a change drawn between `-spread` and `spread`, then scaled. */
  method RandomMove(stock: Item, spread: real, scale: real)
    modifies stock`previousDayPrice, stock`currentPrice, stock`priceHistory, stock`price
    ensures stock.previousDayPrice == old(stock.currentPrice)
    ensures Priced(stock)
  {
    var low := -spread;
    var high := spread;
    assert low <= low <= high || high <= low <= low;
    var randomChange: real :| (low <= randomChange <= high) || (high <= randomChange <= low);
    Reprice(stock, randomChange * scale);
  }

  /** The moving stocks of some slots, as a set. */
  function MovingIn(slots: seq<ItemSlot>): set<Item?> reads slots
  {
    set t | t in slots && Moves(t.item) :: t.item
  }

  /** Every moving stock of the slots is priced when it is, slot by slot. */
  lemma SlotsPriced(slots: seq<ItemSlot>)
    requires forall j :: 0 <= j < |slots| && Moves(slots[j].item) ==> Priced(slots[j].item)
    ensures forall x: Item :: x in MovingIn(slots) ==> Priced(x)
  {
    forall x: Item | x in MovingIn(slots)
      ensures Priced(x)
    {
      var t :| t in slots && Moves(t.item) && t.item == x;
      var j :| 0 <= j < |slots| && slots[j] == t;
    }
  }

  /** A trading booth: its stock list and whether it trades. */
  class StockMarket {
    var isMarketOpen: bool
    const stockInventory: ItemContainer
    var marketVolatilityMultiplier: real

    constructor (stockInventory: ItemContainer)
      ensures isMarketOpen && this.stockInventory == stockInventory && marketVolatilityMultiplier == 1.0
    {
      isMarketOpen := true;
      this.stockInventory := stockInventory;
      marketVolatilityMultiplier := 1.0;
    }

    predicate IsMarketOpen() reads this
    {
      isMarketOpen
    }

    /** The stocks in the booth's slots that the random walk moves. */
    function MovingItems(): set<Item?> reads stockInventory.slots
    {
      MovingIn(stockInventory.slots)
    }

    /**
     * `UpdateStockPrices`: while the booth is open, each active stock in its slots moves by a
     * random factor of at most the volatility times the multiplier, floored at 1; a stock held in
     * two slots moves twice. Nothing else changes.
     */
    method UpdateStockPrices()
      modifies MovingItems()
      ensures !isMarketOpen ==> unchanged(MovingItems())
      ensures isMarketOpen ==> forall x: Item :: x in MovingItems() ==> Priced(x)
    {
      if !isMarketOpen {
        return;
      }
      var slots := stockInventory.slots;
      var i := 0;
      while i < |slots|
        invariant 0 <= i <= |slots|
        invariant forall j :: 0 <= j < i && Moves(slots[j].item) ==> Priced(slots[j].item)
      {
        var stock := slots[i].item;
        if Moves(stock) {
          assert slots[i] in slots;
          RandomMove(stock, stock.volatility, marketVolatilityMultiplier);
        }
        i := i + 1;
      }
      SlotsPriced(slots);
    }

    /** `SetMarketStatus`: the status is stored, and opening while a clock runs re-prices the booth at once. */
    method SetMarketStatus(open: bool, clock: DayTime?)
      modifies this`isMarketOpen, MovingItems()
      ensures isMarketOpen == open
      ensures !(open && clock != null) ==> unchanged(MovingItems())
      ensures open && clock != null ==> forall x: Item :: x in MovingItems() ==> Priced(x)
    {
      isMarketOpen := open;
      if open && clock != null {
        UpdateStockPrices();
      }
    }
  }

  /** The manager's market flags. */
  datatype MarketState = MarketState(isMarketOpen: bool, hasOpenedToday: bool, hasClosedToday: bool, lastCheckedDay: int)

  predicate InHours(hour: real, openHour: real, closeHour: real)
  {
    hour >= openHour && hour < closeHour
  }

  /** `CheckMarketStatus`: open in hours unless already opened today; close out of hours unless already closed today. */
  function StatusChecked(st: MarketState, hour: real, openHour: real, closeHour: real): MarketState
  {
    var shouldBeOpen := InHours(hour, openHour, closeHour);
    if shouldBeOpen && !st.isMarketOpen && !st.hasOpenedToday then st.(isMarketOpen := true, hasOpenedToday := true)
    else if !shouldBeOpen && st.isMarketOpen && !st.hasClosedToday then st.(isMarketOpen := false, hasClosedToday := true)
    else st
  }

  /** The day check of `Update`: a new day clears both latches. */
  function DayRolled(st: MarketState, day: int): MarketState
  {
    if day != st.lastCheckedDay then st.(lastCheckedDay := day, hasOpenedToday := false, hasClosedToday := false) else st
  }

  /** One frame of `Update` at the given day and hour. */
  function Stepped(st: MarketState, day: int, hour: real, openHour: real, closeHour: real): MarketState
  {
    StatusChecked(DayRolled(st, day), hour, openHour, closeHour)
  }

  /** The market never opens out of hours and never closes in hours; a frame records its day. */
  lemma StepRespectsHours(st: MarketState, day: int, hour: real, openHour: real, closeHour: real)
    ensures var s := Stepped(st, day, hour, openHour, closeHour);
      (!st.isMarketOpen && s.isMarketOpen ==> InHours(hour, openHour, closeHour)) &&
      (st.isMarketOpen && !s.isMarketOpen ==> !InHours(hour, openHour, closeHour)) &&
      s.lastCheckedDay == day
  {
  }

  /** How many times the market opens, and closes, over frames of one day. */
  function Openings(st: MarketState, day: int, hours: seq<real>, openHour: real, closeHour: real): nat
    decreases |hours|
  {
    if |hours| == 0 then 0
    else
      var s := Stepped(st, day, hours[0], openHour, closeHour);
      (if !st.isMarketOpen && s.isMarketOpen then 1 else 0) + Openings(s, day, hours[1..], openHour, closeHour)
  }

  function Closings(st: MarketState, day: int, hours: seq<real>, openHour: real, closeHour: real): nat
    decreases |hours|
  {
    if |hours| == 0 then 0
    else
      var s := Stepped(st, day, hours[0], openHour, closeHour);
      (if st.isMarketOpen && !s.isMarketOpen then 1 else 0) + Closings(s, day, hours[1..], openHour, closeHour)
  }

  /** However many frames a day has, the market opens at most once and closes at most once in it. */
  lemma {:induction false} OncePerDay(st: MarketState, day: int, hours: seq<real>, openHour: real, closeHour: real)
    ensures Openings(st, day, hours, openHour, closeHour) <= (if st.lastCheckedDay == day && st.hasOpenedToday then 0 else 1)
    ensures Closings(st, day, hours, openHour, closeHour) <= (if st.lastCheckedDay == day && st.hasClosedToday then 0 else 1)
    decreases |hours|
  {
    if |hours| > 0 {
      var s := Stepped(st, day, hours[0], openHour, closeHour);
      OncePerDay(s, day, hours[1..], openHour, closeHour);
    }
  }

  /** `RegisterStock`: a stock not yet listed is appended. */
  function Registered(stocks: seq<Item?>, stock: Item?): seq<Item?>
  {
    if stock != null && stock !in stocks then stocks + [stock] else stocks
  }

  predicate NoDuplicates(stocks: seq<Item?>)
  {
    forall i, j :: 0 <= i < j < |stocks| ==> stocks[i] != stocks[j]
  }

  /** Registering keeps the list free of duplicates and null, and lists every registered stock. */
  lemma RegisterKeepsList(stocks: seq<Item?>, stock: Item?)
    ensures NoDuplicates(stocks) ==> NoDuplicates(Registered(stocks, stock))
    ensures null !in stocks ==> null !in Registered(stocks, stock)
    ensures stock != null ==> stock in Registered(stocks, stock)
    ensures forall s :: s in stocks ==> s in Registered(stocks, stock)
  {
  }

  /** `SkipToMarketOpen`: the hours to skip, to today's opening if it is still ahead, else tomorrow's. */
  function SkipHours(hour: real, openHour: real): real
  {
    if hour < openHour then openHour - hour else (24.0 - hour) + openHour
  }

  /** The skip lands on the opening hour, today or 24 hours later, and moves time forward by at most a day. */
  lemma SkipLandsOnOpening(hour: real, openHour: real)
    requires 0.0 <= hour < 24.0 && 0.0 <= openHour < 24.0
    ensures var h := SkipHours(hour, openHour);
      0.0 < h <= 24.0 && (hour + h == openHour || hour + h == openHour + 24.0)
  {
  }

  class StockMarketManager {
    var availableStocks: seq<Item?>
    var marketOpenHour: real
    var marketCloseHour: real
    var isMarketOpen: bool
    var lastCheckedDay: int
    var hasOpenedToday: bool
    var hasClosedToday: bool
    /** The booths the status is broadcast to. */
    const markets: seq<StockMarket?>

    constructor (availableStocks: seq<Item?>, markets: seq<StockMarket?>)
      ensures this.availableStocks == availableStocks && this.markets == markets
      ensures marketOpenHour == 9.0 && marketCloseHour == 17.0
      ensures State() == MarketState(false, false, false, -1)
    {
      this.availableStocks := availableStocks;
      this.markets := markets;
      marketOpenHour := 9.0;
      marketCloseHour := 17.0;
      isMarketOpen := false;
      lastCheckedDay := -1;
      hasOpenedToday := false;
      hasClosedToday := false;
    }

    function State(): MarketState reads this
    {
      MarketState(isMarketOpen, hasOpenedToday, hasClosedToday, lastCheckedDay)
    }

    /** The stocks in the manager's list. */
    function Stocks(): set<Item> reads this
    {
      set x: Item | x in availableStocks
    }

    predicate Broadcast() reads this, markets
    {
      forall i :: 0 <= i < |markets| && markets[i] != null ==> markets[i].isMarketOpen == isMarketOpen
    }

    /** The stocks in every booth's slots that the random walk moves. */
    function BoothItems(): set<Item?>
      reads set m, t | m in markets && m != null && t in m.stockInventory.slots :: t
    {
      set m, t | m in markets && m != null && t in m.stockInventory.slots && Moves(t.item) :: t.item
    }

    /**
     * `UpdateAllStockMarkets`: every booth takes the manager's status; an opening under a running
     * clock re-prices the booths' active stocks, and no other item changes.
     */
    method UpdateAllStockMarkets(clock: DayTime?)
      modifies markets, BoothItems()
      ensures Broadcast()
      ensures !(isMarketOpen && clock != null) ==> unchanged(BoothItems())
      ensures isMarketOpen && clock != null ==> forall x: Item :: x in BoothItems() ==> Priced(x)
    {
      ghost var items := BoothItems();
      var i := 0;
      while i < |markets|
        invariant 0 <= i <= |markets|
        invariant forall j :: 0 <= j < i && markets[j] != null ==> markets[j].isMarketOpen == isMarketOpen
        invariant !(isMarketOpen && clock != null) ==> unchanged(items)
        invariant isMarketOpen && clock != null ==>
          forall j, t :: 0 <= j < i && markets[j] != null && t in markets[j].stockInventory.slots && Moves(t.item) ==>
            Priced(t.item)
      {
        if markets[i] != null {
          BoothMovingItems(i);
          markets[i].SetMarketStatus(isMarketOpen, clock);
        }
        i := i + 1;
      }
      if isMarketOpen && clock != null {
        BoothsPriced();
      }
    }

    /** Every booth's moving stocks priced means all booths' moving stocks are. */
    lemma BoothsPriced()
      requires forall j, t :: 0 <= j < |markets| && markets[j] != null && t in markets[j].stockInventory.slots && Moves(t.item) ==>
        Priced(t.item)
      ensures forall x: Item :: x in BoothItems() ==> Priced(x)
    {
      forall x: Item | x in BoothItems()
        ensures Priced(x)
      {
        var m, t :| m in markets && m != null && t in m.stockInventory.slots && Moves(t.item) && t.item == x;
        var j :| 0 <= j < |markets| && markets[j] == m;
      }
    }

    /** A booth's moving stocks are among all booths' moving stocks. */
    lemma BoothMovingItems(k: int)
      requires 0 <= k < |markets| && markets[k] != null
      ensures markets[k].MovingItems() <= BoothItems()
    {
    }

    method OpenMarket(clock: DayTime?)
      modifies this`isMarketOpen, markets, BoothItems()
      ensures isMarketOpen && Broadcast()
      ensures clock == null ==> unchanged(BoothItems())
      ensures clock != null ==> forall x: Item :: x in BoothItems() ==> Priced(x)
    {
      isMarketOpen := true;
      UpdateAllStockMarkets(clock);
    }

    /** `CloseMarket`: closing re-prices nothing (its end-of-day hook is empty). */
    method CloseMarket(clock: DayTime?)
      modifies this`isMarketOpen, markets, BoothItems()
      ensures !isMarketOpen && Broadcast()
      ensures unchanged(BoothItems())
    {
      isMarketOpen := false;
      UpdateAllStockMarkets(clock);
    }

    /**
     * `CheckMarketStatus`; a change of status reaches every booth, and an opening re-prices the
     * booths' active stocks; otherwise no booth item changes.
     */
    method CheckMarketStatus(clock: DayTime?)
      modifies this`isMarketOpen, this`hasOpenedToday, this`hasClosedToday, markets, BoothItems()
      ensures clock == null ==> State() == old(State())
      ensures clock != null ==> State() == StatusChecked(old(State()), clock.Hours(), marketOpenHour, marketCloseHour)
      ensures State() != old(State()) ==> Broadcast()
      ensures !(!old(isMarketOpen) && isMarketOpen) ==> unchanged(BoothItems())
      ensures !old(isMarketOpen) && isMarketOpen ==> forall x: Item :: x in BoothItems() ==> Priced(x)
    {
      if clock == null {
        return;
      }
      var currentHour := clock.Hours();
      var shouldBeOpen := currentHour >= marketOpenHour && currentHour < marketCloseHour;
      if shouldBeOpen && !isMarketOpen && !hasOpenedToday {
        OpenMarket(clock);
        hasOpenedToday := true;
      } else if !shouldBeOpen && isMarketOpen && !hasClosedToday {
        CloseMarket(clock);
        hasClosedToday := true;
      }
    }

    /**
     * `GenerateOvernightPriceChanges`: each active stock moves by a random factor of at most 0.3
     * times its volatility, floored at 1, its item price following; for a list without duplicates
     * its previous price is the price before the move. Inactive stocks are left alone.
     */
    method GenerateOvernightPriceChanges()
      modifies availableStocks
      ensures forall i :: 0 <= i < |availableStocks| && availableStocks[i] != null && availableStocks[i].isActive ==>
        Priced(availableStocks[i])
      ensures forall i :: 0 <= i < |availableStocks| && availableStocks[i] != null && !availableStocks[i].isActive ==>
        unchanged(availableStocks[i])
      ensures NoDuplicates(availableStocks) ==>
        forall i :: 0 <= i < |availableStocks| && availableStocks[i] != null && availableStocks[i].isActive ==>
          availableStocks[i].previousDayPrice == old(availableStocks[i].currentPrice)
    {
      var i := 0;
      while i < |availableStocks|
        invariant 0 <= i <= |availableStocks|
        invariant forall j :: 0 <= j < i && availableStocks[j] != null && availableStocks[j].isActive ==>
          Priced(availableStocks[j])
        invariant forall j :: 0 <= j < |availableStocks| && availableStocks[j] != null && !availableStocks[j].isActive ==>
          unchanged(availableStocks[j])
        invariant NoDuplicates(availableStocks) ==>
          forall j :: i <= j < |availableStocks| && availableStocks[j] != null ==> unchanged(availableStocks[j])
        invariant NoDuplicates(availableStocks) ==>
          forall j :: 0 <= j < i && availableStocks[j] != null && availableStocks[j].isActive ==>
            availableStocks[j].previousDayPrice == old(availableStocks[j].currentPrice)
      {
        var stock := availableStocks[i];
        if stock != null && stock.isActive {
          RandomMove(stock, stock.volatility * 0.3, 1.0);
        }
        i := i + 1;
      }
    }

    /**
     * `NewTradingDay`: every stock's price becomes its previous-day price; while closed, the
     * active stocks then move overnight, so their previous-day price is still the price the day
     * ended with when the list holds no stock twice.
     */
    method NewTradingDay()
      modifies availableStocks
      ensures forall i :: 0 <= i < |availableStocks| && availableStocks[i] != null &&
                          (isMarketOpen || !availableStocks[i].isActive || NoDuplicates(availableStocks)) ==>
        availableStocks[i].previousDayPrice == old(availableStocks[i].currentPrice)
      ensures forall i :: 0 <= i < |availableStocks| && availableStocks[i] != null &&
                          (isMarketOpen || !availableStocks[i].isActive) ==>
        availableStocks[i].currentPrice == old(availableStocks[i].currentPrice)
      ensures !isMarketOpen ==> forall i :: 0 <= i < |availableStocks| && availableStocks[i] != null && availableStocks[i].isActive ==>
        Priced(availableStocks[i])
    {
      var i := 0;
      while i < |availableStocks|
        invariant 0 <= i <= |availableStocks|
        invariant forall j :: 0 <= j < |availableStocks| && availableStocks[j] != null ==>
          availableStocks[j].currentPrice == old(availableStocks[j].currentPrice)
        invariant forall j :: 0 <= j < i && availableStocks[j] != null ==>
          availableStocks[j].previousDayPrice == availableStocks[j].currentPrice
      {
        if availableStocks[i] != null {
          availableStocks[i].previousDayPrice := availableStocks[i].currentPrice;
        }
        i := i + 1;
      }
      if !isMarketOpen {
        GenerateOvernightPriceChanges();
      }
    }

    /**
     * The day check of `Update`: on a new day a trading day starts and the latches reset; on the
     * same day nothing changes.
     */
    method StartDay(day: int)
      modifies this`hasOpenedToday, this`hasClosedToday, this`lastCheckedDay, availableStocks
      ensures State() == DayRolled(old(State()), day)
      ensures day != old(lastCheckedDay) ==>
        (forall i :: 0 <= i < |availableStocks| && availableStocks[i] != null &&
                     (isMarketOpen || !availableStocks[i].isActive || NoDuplicates(availableStocks)) ==>
           availableStocks[i].previousDayPrice == old(availableStocks[i].currentPrice)) &&
        (forall i :: 0 <= i < |availableStocks| && availableStocks[i] != null &&
                     (isMarketOpen || !availableStocks[i].isActive) ==>
           availableStocks[i].currentPrice == old(availableStocks[i].currentPrice)) &&
        (!isMarketOpen ==>
           forall i :: 0 <= i < |availableStocks| && availableStocks[i] != null && availableStocks[i].isActive ==>
             Priced(availableStocks[i]))
      ensures day == old(lastCheckedDay) ==> unchanged(Stocks())
    {
      if day != lastCheckedDay {
        NewTradingDay();
        lastCheckedDay := day;
        hasOpenedToday := false;
        hasClosedToday := false;
      }
    }

    /**
     * `Update` for one frame: a new day first starts a trading day and resets the latches, then
     * the status is checked. Unless the market opens in this frame, the new day's prices stand;
     * an opening re-prices the booths' stocks.
     */
    method Update(clock: DayTime?)
      modifies this`isMarketOpen, this`hasOpenedToday, this`hasClosedToday, this`lastCheckedDay, markets, availableStocks,
               BoothItems()
      ensures clock == null ==> State() == old(State()) && unchanged(Stocks()) && unchanged(BoothItems())
      ensures clock != null ==> State() == Stepped(old(State()), clock.days, clock.Hours(), marketOpenHour, marketCloseHour)
      ensures var opening := !old(isMarketOpen) && isMarketOpen;
        clock != null && clock.days != old(lastCheckedDay) && !opening ==>
          (forall i :: 0 <= i < |availableStocks| && availableStocks[i] != null &&
                       (old(isMarketOpen) || !availableStocks[i].isActive || NoDuplicates(availableStocks)) ==>
             availableStocks[i].previousDayPrice == old(availableStocks[i].currentPrice)) &&
          (forall i :: 0 <= i < |availableStocks| && availableStocks[i] != null &&
                       (old(isMarketOpen) || !availableStocks[i].isActive) ==>
             availableStocks[i].currentPrice == old(availableStocks[i].currentPrice)) &&
          (!old(isMarketOpen) ==>
             forall i :: 0 <= i < |availableStocks| && availableStocks[i] != null && availableStocks[i].isActive ==>
               Priced(availableStocks[i]))
      ensures var opening := !old(isMarketOpen) && isMarketOpen;
        clock != null && clock.days == old(lastCheckedDay) && !opening ==> unchanged(Stocks()) && unchanged(BoothItems())
      ensures !old(isMarketOpen) && isMarketOpen ==> forall x: Item :: x in BoothItems() ==> Priced(x)
    {
      if clock == null {
        return;
      }
      StartDay(clock.days);
      CheckMarketStatus(clock);
    }

    /** `RegisterStock`. */
    method RegisterStock(stock: Item?)
      modifies this`availableStocks
      ensures availableStocks == Registered(old(availableStocks), stock)
    {
      if stock != null && stock !in availableStocks {
        availableStocks := availableStocks + [stock];
      }
    }

    /** `SkipToMarketOpen`: move the clock on to the next opening hour. */
    method SkipToMarketOpen(clock: DayTime?)
      modifies clock
      ensures clock != null ==> clock.time == old(clock.time) + SkipHours(old(clock.Hours()), marketOpenHour) * 3600.0
    {
      if clock != null {
        var currentHour := clock.Hours();
        if currentHour < marketOpenHour {
          clock.SkipTime(hours := marketOpenHour - currentHour);
        } else {
          clock.SkipTime(hours := (24.0 - currentHour) + marketOpenHour);
        }
      }
    }

    predicate IsMarketOpen() reads this
    {
      isMarketOpen
    }

    /** `GetCurrentDay`: the clock's 1-based day, 1 without a clock. */
    function GetCurrentDay(clock: DayTime?): int reads clock
    {
      if clock != null then clock.days + 1 else 1
    }
  }
}
