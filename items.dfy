// Items, stocks, item slots and item containers (Item.cs, Stock.cs, and the slot/container
// collaborators they are stored in).
module Items {
  import opened Common

  /** `Item.ItemType`; the members called `Item` and `Stock` there are `General` and `Share` here. */
  datatype ItemType = Food | Drink | General | Tool | Share

  /**
   * An item asset. A `Stock` is an item with the stock fields in use (`isStock`), so the
   * source's `item is Stock` test reads `isStock` here.
   */
  class Item {
    const name: string
    const stackable: bool
    const canBeSold: bool
    var itemType: ItemType
    var price: int

    const isStock: bool
    const stockSymbol: string
    const basePrice: real
    const volatility: real
    const isActive: bool
    var currentPrice: real
    var previousDayPrice: real
    var priceHistory: seq<real>
    var maxHistoryLength: int

    constructor (name: string, stackable: bool, canBeSold: bool, price: int)
      ensures this.name == name && this.stackable == stackable && this.canBeSold == canBeSold
      ensures this.price == price && itemType == General && !isStock
    {
      this.name := name;
      this.stackable := stackable;
      this.canBeSold := canBeSold;
      this.price := price;
      itemType := General;
      isStock := false;
      stockSymbol := "";
      basePrice := 100.0;
      volatility := 0.05;
      isActive := true;
      currentPrice := 0.0;
      previousDayPrice := 0.0;
      priceHistory := [];
      maxHistoryLength := 30;
    }

    /** A stock asset with the inspector defaults and a serialized current price. */
    constructor Stock(name: string, stackable: bool, price: int, stockSymbol: string, basePrice: real, currentPrice: real)
      ensures this.name == name && this.stackable == stackable && canBeSold && this.price == price
      ensures isStock && this.stockSymbol == stockSymbol && this.basePrice == basePrice && isActive
      ensures this.currentPrice == currentPrice && previousDayPrice == 0.0
      ensures volatility == 0.05 && priceHistory == [] && maxHistoryLength == 30
    {
      this.name := name;
      this.stackable := stackable;
      canBeSold := true;
      this.price := price;
      itemType := General;
      isStock := true;
      this.stockSymbol := stockSymbol;
      this.basePrice := basePrice;
      volatility := 0.05;
      isActive := true;
      this.currentPrice := currentPrice;
      previousDayPrice := 0.0;
      priceHistory := [];
      maxHistoryLength := 30;
    }

    /** `Stock.OnEnable`: tag the item, and start both prices at the base price only if unset. */
    method OnEnable()
      requires isStock
      modifies this`itemType, this`currentPrice, this`previousDayPrice
      ensures itemType == Share
      ensures old(currentPrice) == 0.0 ==> currentPrice == basePrice && previousDayPrice == basePrice
      ensures old(currentPrice) != 0.0 ==> currentPrice == old(currentPrice) && previousDayPrice == old(previousDayPrice)
    {
      itemType := Share;
      if currentPrice == 0.0 {
        currentPrice := basePrice;
        previousDayPrice := basePrice;
      }
    }

    /** `Stock.UpdatePrice`: the old price becomes the previous one; the history keeps the latest prices. */
    method UpdatePrice(newPrice: real)
      modifies this`previousDayPrice, this`currentPrice, this`priceHistory
      ensures previousDayPrice == old(currentPrice) && currentPrice == newPrice
      ensures priceHistory == PushBounded(old(priceHistory), newPrice, maxHistoryLength)
    {
      previousDayPrice := currentPrice;
      currentPrice := newPrice;
      priceHistory := priceHistory + [currentPrice];
      if |priceHistory| > maxHistoryLength {
        priceHistory := priceHistory[1..];
      }
    }

    /** `GetDailyChangePercent`: with a positive previous price, its sign is the direction of the day's move. */
    function GetDailyChangePercent(): (r: real) reads this
      ensures previousDayPrice == 0.0 ==> r == 0.0
      ensures previousDayPrice > 0.0 ==>
        (r > 0.0 <==> currentPrice > previousDayPrice) && (r == 0.0 <==> currentPrice == previousDayPrice)
    {
      if previousDayPrice > 0.0 then DailyChangeSign(currentPrice, previousDayPrice); DailyChangePercent(currentPrice, previousDayPrice)
      else DailyChangePercent(currentPrice, previousDayPrice)
    }

    /** `IsUpToday`: for a positive previous price, the same as a positive daily change. */
    predicate IsUpToday() reads this
      ensures previousDayPrice > 0.0 ==> (IsUpToday() <==> GetDailyChangePercent() > 0.0)
    {
      currentPrice > previousDayPrice
    }
  }

  /** The history after one price: appended, and the oldest entry dropped when over the bound. */
  function PushBounded(history: seq<real>, p: real, maxLength: int): (r: seq<real>)
    ensures |history| <= maxLength ==> |r| <= maxLength
    ensures |r| > 0 ==> r[|r| - 1] == p
    ensures |r| == 0 ==> history == [] && maxLength <= 0
    ensures exists k :: 0 <= k <= |history| + 1 && r == (history + [p])[k..]
  {
    var h := history + [p];
    assert h == h[0..];
    if |h| > maxLength then
      assert h[1..] == (history + [p])[1..];
      h[1..]
    else h
  }

  /** The last `n` entries of `s` (all of them when there are fewer). */
  function LastN(s: seq<real>, n: nat): (r: seq<real>)
  {
    if |s| <= n then s else s[|s| - n..]
  }

  /** Within the bound, one push keeps the last `maxLength` entries. */
  lemma PushBoundedKeepsLast(history: seq<real>, p: real, maxLength: nat)
    requires |history| <= maxLength
    ensures PushBounded(history, p, maxLength) == LastN(history + [p], maxLength)
  {
  }

  /** The history after a series of prices. */
  function PushAll(history: seq<real>, prices: seq<real>, maxLength: int): seq<real>
    decreases |prices|
  {
    if |prices| == 0 then history
    else PushAll(PushBounded(history, prices[0], maxLength), prices[1..], maxLength)
  }

  lemma LastNOfLastN(a: seq<real>, b: seq<real>, n: nat)
    ensures LastN(LastN(a, n) + b, n) == LastN(a + b, n)
  {
    if |a| > n {
      var t := a[|a| - n..];
      if |t + b| > n {
        var x := (t + b)[|t + b| - n..];
        var y := (a + b)[|a + b| - n..];
        forall k | 0 <= k < |x|
          ensures x[k] == y[k]
        {
          var j := |t + b| - n + k;
          if j < |t| {
            assert (t + b)[j] == a[|a| - n + j];
          }
        }
        assert x == y;
      }
    }
  }

  /** Starting within the bound, the history always holds the latest `maxHistoryLength` prices. */
  lemma {:induction false} HistoryHoldsLatest(history: seq<real>, prices: seq<real>, maxLength: nat)
    requires |history| <= maxLength
    ensures PushAll(history, prices, maxLength) == LastN(history + prices, maxLength)
    decreases |prices|
  {
    if |prices| == 0 {
      assert history + prices == history;
    } else {
      var h := PushBounded(history, prices[0], maxLength);
      PushBoundedKeepsLast(history, prices[0], maxLength);
      HistoryHoldsLatest(h, prices[1..], maxLength);
      LastNOfLastN(history + [prices[0]], prices[1..], maxLength);
      assert [prices[0]] + prices[1..] == prices;
      ConcatAssociative(history, [prices[0]], prices[1..]);
    }
  }

  /** `GetDailyChangePercent`: 0 without a previous price, else the relative change in percent. */
  function DailyChangePercent(currentPrice: real, previousDayPrice: real): real
  {
    if previousDayPrice == 0.0 then 0.0 else ((currentPrice - previousDayPrice) / previousDayPrice) * 100.0
  }

  /** For a positive previous price, `IsUpToday` and a positive change agree. */
  lemma DailyChangeSign(currentPrice: real, previousDayPrice: real)
    requires previousDayPrice > 0.0
    ensures currentPrice > previousDayPrice <==> DailyChangePercent(currentPrice, previousDayPrice) > 0.0
    ensures currentPrice == previousDayPrice <==> DailyChangePercent(currentPrice, previousDayPrice) == 0.0
  {
    var d := currentPrice - previousDayPrice;
    assert DailyChangePercent(currentPrice, previousDayPrice) == (d / previousDayPrice) * 100.0;
    if d > 0.0 {
      assert d / previousDayPrice > 0.0;
    } else if d < 0.0 {
      assert d / previousDayPrice < 0.0;
    }
  }

  /** The contents of an item slot. */
  datatype SlotValue = SlotValue(item: Item?, count: int)

  const Empty := SlotValue(null, 0)

  /** A slot holds an item with a positive count, or nothing with count 0. */
  predicate WellFormed(v: SlotValue)
  {
    (v.item == null ==> v.count == 0) && (v.item != null ==> v.count >= 1)
  }

  /** How many of `x` a slot holds. */
  function Held(v: SlotValue, x: Item): int
  {
    if v.item == x then v.count else 0
  }

  /** `ItemSlot`: `Copy` takes another slot's contents, `Clear` empties it, `Set` stores an item and a count. */
  class ItemSlot {
    var item: Item?
    var count: int

    constructor ()
      ensures item == null && count == 0
    {
      item := null;
      count := 0;
    }

    function Value(): SlotValue reads this
    {
      SlotValue(item, count)
    }

    method Copy(slot: ItemSlot)
      modifies this
      ensures Value() == old(slot.Value())
    {
      item := slot.item;
      count := slot.count;
    }

    method Clear()
      modifies this
      ensures Value() == Empty
    {
      item := null;
      count := 0;
    }

    method Set(item: Item?, count: int)
      modifies this
      ensures Value() == SlotValue(item, count)
    {
      this.item := item;
      this.count := count;
    }
  }

  /** The contents of a list of slots. */
  function ValuesOf(slots: seq<ItemSlot>): (r: seq<SlotValue>)
    reads slots
    ensures |r| == |slots| && forall i :: 0 <= i < |slots| ==> r[i] == slots[i].Value()
  {
    if |slots| == 0 then [] else ValuesOf(slots[..|slots| - 1]) + [slots[|slots| - 1].Value()]
  }

  predicate Distinct(slots: seq<ItemSlot>)
  {
    forall i, j :: 0 <= i < j < |slots| ==> slots[i] != slots[j]
  }

  /** The first slot whose item is `x`. */
  function FirstWith(vs: seq<SlotValue>, x: Item?): (r: Option<nat>)
    ensures r.Some? ==> r.value < |vs| && vs[r.value].item == x && forall j :: 0 <= j < r.value ==> vs[j].item != x
    ensures r.None? ==> forall j :: 0 <= j < |vs| ==> vs[j].item != x
  {
    if |vs| == 0 then None
    else if vs[0].item == x then Some(0)
    else match FirstWith(vs[1..], x)
      case None => None
      case Some(i) => Some(i + 1)
  }

  /** Where `ItemContainer.Add` puts an item: a stack of it if stackable, else the first empty slot. */
  function AddTarget(vs: seq<SlotValue>, item: Item): Option<nat>
  {
    if item.stackable && FirstWith(vs, item).Some? then FirstWith(vs, item) else FirstWith(vs, null)
  }

  /** The contents after `Add(item, count)`. */
  function AddedValues(vs: seq<SlotValue>, item: Item, count: int): (r: seq<SlotValue>)
    ensures |r| == |vs|
  {
    match AddTarget(vs, item)
      case None => vs
      case Some(k) =>
        if k < |vs| then
          vs[k := if vs[k].item == item then SlotValue(item, vs[k].count + count) else SlotValue(item, count)]
        else vs
  }

  /** The total count of `x` in a list of slots. */
  function TotalOf(vs: seq<SlotValue>, x: Item): int
  {
    if |vs| == 0 then 0 else TotalOf(vs[..|vs| - 1], x) + Held(vs[|vs| - 1], x)
  }

  lemma {:induction false} TotalOfUpdate(vs: seq<SlotValue>, k: int, v: SlotValue, x: Item)
    requires 0 <= k < |vs|
    ensures TotalOf(vs[k := v], x) == TotalOf(vs, x) - Held(vs[k], x) + Held(v, x)
    decreases |vs|
  {
    var w := vs[k := v];
    if k < |vs| - 1 {
      assert w[..|w| - 1] == vs[..|vs| - 1][k := v];
      TotalOfUpdate(vs[..|vs| - 1], k, v, x);
    } else {
      assert w[..|w| - 1] == vs[..|vs| - 1];
    }
  }

  /**
   * `Add` adds exactly `count` of the item when it finds a place, changes no other item's total,
   * and finds no place only when there is no empty slot (and, for a stackable item, no stack of it).
   */
  lemma AddChangesTotals(vs: seq<SlotValue>, item: Item, count: int, x: Item)
    ensures AddTarget(vs, item).Some? ==>
      TotalOf(AddedValues(vs, item, count), item) == TotalOf(vs, item) + count
    ensures x != item ==> TotalOf(AddedValues(vs, item, count), x) == TotalOf(vs, x)
    ensures AddTarget(vs, item).None? <==>
      (forall j :: 0 <= j < |vs| ==> vs[j].item != null) &&
      (item.stackable ==> forall j :: 0 <= j < |vs| ==> vs[j].item != item)
  {
    match AddTarget(vs, item)
      case None =>
      case Some(k) =>
        var v := if vs[k].item == item then SlotValue(item, vs[k].count + count) else SlotValue(item, count);
        TotalOfUpdate(vs, k, v, item);
        TotalOfUpdate(vs, k, v, x);
  }

  /** `ItemContainer`: a list of slots and a dirty flag for its panels. */
  class ItemContainer {
    const slots: seq<ItemSlot>
    var isDirty: bool

    constructor (slots: seq<ItemSlot>)
      ensures this.slots == slots && !isDirty
    {
      this.slots := slots;
      isDirty := false;
    }

    function Values(): seq<SlotValue> reads slots
    {
      ValuesOf(slots)
    }

    /** The slot `Add` would fill: the first stack of a stackable item, else the first empty slot. */
    method FindTarget(item: Item) returns (target: Option<nat>)
      ensures target == AddTarget(Values(), item)
    {
      ghost var vs := Values();
      if item.stackable {
        var i := 0;
        while i < |slots| && slots[i].item != item
          invariant 0 <= i <= |slots|
          invariant forall j :: 0 <= j < i ==> vs[j].item != item
        {
          i := i + 1;
        }
        if i < |slots| {
          FirstWithUnique(vs, item, i);
          return Some(i);
        }
        assert FirstWith(vs, item).None?;
      }
      var i := 0;
      while i < |slots| && slots[i].item != null
        invariant 0 <= i <= |slots|
        invariant forall j :: 0 <= j < i ==> vs[j].item != null
      {
        i := i + 1;
      }
      if i < |slots| {
        FirstWithUnique(vs, null, i);
        return Some(i);
      }
      assert FirstWith(vs, null).None?;
      return None;
    }

    /**
     * `Add`: a stackable item joins the first stack of it, otherwise the first empty slot takes
     * the item and the count; with no such slot nothing is stored.
     */
    method Add(item: Item, count: int)
      modifies this`isDirty, slots
      ensures isDirty
      ensures AddTarget(old(Values()), item).None? ==> Values() == old(Values())
      ensures AddTarget(old(Values()), item).Some? ==>
        var k := AddTarget(old(Values()), item).value;
        k < |slots| && slots[k].Value() == AddedValues(old(Values()), item, count)[k] &&
        forall j :: 0 <= j < |slots| && slots[j] != slots[k] ==> slots[j].Value() == old(slots[j].Value())
      ensures Distinct(slots) ==> Values() == AddedValues(old(Values()), item, count)
    {
      ghost var before := Values();
      isDirty := true;
      var target := FindTarget(item);
      if target.Some? {
        var slot := slots[target.value];
        if slot.item == item {
          slot.count := slot.count + count;
        } else {
          slot.Set(item, count);
        }
      }
      AddOutcome(slots, before, item, count, target);
    }
  }

  /**
   * The contents after `Add`, given the contents `before` it: when the target is found, its slot
   * holds the added value and every other slot object is as before; otherwise every slot is as before.
   */
  lemma AddOutcome(slots: seq<ItemSlot>, before: seq<SlotValue>, item: Item, count: int, target: Option<nat>)
    requires |before| == |slots| && target == AddTarget(before, item)
    requires target.None? ==> forall j :: 0 <= j < |slots| ==> slots[j].Value() == before[j]
    requires target.Some? ==>
      target.value < |slots| &&
      slots[target.value].Value() ==
        (if before[target.value].item == item then SlotValue(item, before[target.value].count + count)
         else SlotValue(item, count)) &&
      forall j :: 0 <= j < |slots| && slots[j] != slots[target.value] ==> slots[j].Value() == before[j]
    ensures target.None? ==> ValuesOf(slots) == before
    ensures target.Some? ==>
      target.value < |slots| && slots[target.value].Value() == AddedValues(before, item, count)[target.value]
    ensures Distinct(slots) ==> ValuesOf(slots) == AddedValues(before, item, count)
  {
    if target.Some? {
      OneSlotChanged(slots, before, target.value);
    }
  }

  /** Changing one slot object changes the contents at its position, and at no other for distinct slots. */
  lemma OneSlotChanged(slots: seq<ItemSlot>, before: seq<SlotValue>, k: nat)
    requires |before| == |slots| && k < |slots|
    requires forall j :: 0 <= j < |slots| && slots[j] != slots[k] ==> slots[j].Value() == before[j]
    ensures Distinct(slots) ==> ValuesOf(slots) == before[k := slots[k].Value()]
  {
  }

  lemma FirstWithUnique(vs: seq<SlotValue>, x: Item?, i: nat)
    requires i < |vs| && vs[i].item == x && forall j :: 0 <= j < i ==> vs[j].item != x
    ensures FirstWith(vs, x) == Some(i)
  {
  }
}
