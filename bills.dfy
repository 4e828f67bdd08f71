// Bills with an expiry, and the panel that pays, counts and removes them (Bill.cs, BillPanel.cs).
module Bills {
  import opened Common
  import opened Clock
  import opened Money

  /** The expiry rule: at least `expireDays` days since creation, and unpaid. */
  predicate ExpiredOn(currentDay: int, creationDay: int, expireDays: int, isPaid: bool)
  {
    currentDay - creationDay >= expireDays && !isPaid
  }

  /** The days left before expiry, as the label shows them. */
  function DaysRemaining(currentDay: int, creationDay: int, expireDays: int): int
  {
    expireDays - (currentDay - creationDay)
  }

  /** The expiry label of `UpdateExpireText`. */
  function ExpireLabel(isPaid: bool, daysRemaining: int): string
  {
    if isPaid then "PAID"
    else if daysRemaining <= 0 then "EXPIRED"
    else "Expire: " + IntToString(daysRemaining) + " days"
  }

  /** The label says "EXPIRED" exactly when the bill is expired, and "PAID" exactly when it is paid. */
  lemma ExpireLabelMatchesExpiry(currentDay: int, creationDay: int, expireDays: int, isPaid: bool)
    ensures ExpireLabel(isPaid, DaysRemaining(currentDay, creationDay, expireDays)) == "EXPIRED" <==>
            ExpiredOn(currentDay, creationDay, expireDays, isPaid)
    ensures ExpireLabel(isPaid, DaysRemaining(currentDay, creationDay, expireDays)) == "PAID" <==> isPaid
  {
    var d := DaysRemaining(currentDay, creationDay, expireDays);
    if !isPaid && d > 0 {
      var text := ExpireLabel(isPaid, d);
      assert text[6] == ':' && "EXPIRED"[6] == 'D' && "PAID"[3] == 'D' && text[3] == 'i';
    }
  }

  /** A sprite reference; `None` is a bill without an icon. */
  type Sprite = Option<nat>

  /** `Bill.BillData`: the saved fields of a bill. */
  datatype BillData = BillData(billName: string, amount: real, creationDay: int, expireDays: int, isPaid: bool)

  class Bill {
    var billName: string
    var amount: real
    var icon: Sprite
    var expireDays: int
    var creationDay: int
    var isPaid: bool

    /** The inspector defaults. */
    constructor ()
      ensures billName == "New Bill" && amount == 100.0 && icon == None && expireDays == 30
      ensures creationDay == 0 && !isPaid
    {
      billName := "New Bill";
      amount := 100.0;
      icon := None;
      expireDays := 30;
      creationDay := 0;
      isPaid := false;
    }

    /** `IsExpired`: never without a clock; with one, exactly when the bill's label reads "EXPIRED". */
    predicate IsExpired(clock: DayTime?)
      reads this, clock
      ensures IsExpired(clock) ==> clock != null && !isPaid
      ensures clock != null ==>
        (IsExpired(clock) <==> ExpireLabel(isPaid, DaysRemaining(clock.days, creationDay, expireDays)) == "EXPIRED")
    {
      if clock == null then false
      else
        ExpireLabelMatchesExpiry(clock.days, creationDay, expireDays, isPaid);
        ExpiredOn(clock.days, creationDay, expireDays, isPaid)
    }

    /** `Start`: the creation day is the current day when there is a clock. */
    method Start(clock: DayTime?)
      modifies this`creationDay
      ensures clock != null ==> creationDay == clock.days
      ensures clock == null ==> creationDay == old(creationDay)
    {
      if clock != null {
        creationDay := clock.days;
      }
    }

    /** `Initialize`: new data, unpaid, created today when there is a clock. */
    method Initialize(name: string, cost: real, billIcon: Sprite, expireInDays: int, clock: DayTime?)
      modifies this
      ensures billName == name && amount == cost && icon == billIcon && expireDays == expireInDays && !isPaid
      ensures clock != null ==> creationDay == clock.days
      ensures clock == null ==> creationDay == old(creationDay)
    {
      billName := name;
      amount := cost;
      icon := billIcon;
      expireDays := expireInDays;
      if clock != null {
        creationDay := clock.days;
      }
      isPaid := false;
    }

    /** The label shown on the bill, when there is a clock. */
    function Label(clock: DayTime): string
      reads this, clock
    {
      ExpireLabel(isPaid, DaysRemaining(clock.days, creationDay, expireDays))
    }

    method MarkAsPaid()
      modifies this`isPaid
      ensures isPaid
      ensures forall clock: DayTime? :: !IsExpired(clock)
    {
      isPaid := true;
    }

    function GetBillData(): BillData
      reads this
    {
      BillData(billName, amount, creationDay, expireDays, isPaid)
    }

    /** `LoadFromData`: every saved field is restored; the icon is kept. */
    method LoadFromData(data: BillData)
      modifies this
      ensures GetBillData() == data && icon == old(icon)
    {
      billName := data.billName;
      amount := data.amount;
      creationDay := data.creationDay;
      expireDays := data.expireDays;
      isPaid := data.isPaid;
    }

    /** `OnPayButtonClicked`: a paid or expired bill ignores the button; otherwise the panel pays. */
    method OnPayButtonClicked(billPanel: BillPanel?, clock: DayTime?)
      modifies this`isPaid, if billPanel != null && billPanel.currencySystem != null then {billPanel.currencySystem} else {}
      ensures old(isPaid) || old(IsExpired(clock)) || billPanel == null ==>
        isPaid == old(isPaid) && (billPanel != null && billPanel.currencySystem != null ==>
                                  billPanel.currencySystem.amount == old(billPanel.currencySystem.amount))
      ensures !old(isPaid) && !old(IsExpired(clock)) && billPanel != null && billPanel.currencySystem != null ==>
        (old(billPanel.currencySystem.Check(amount)) ==>
           isPaid && billPanel.currencySystem.amount == old(billPanel.currencySystem.amount) - amount) &&
        (!old(billPanel.currencySystem.Check(amount)) ==>
           !isPaid && billPanel.currencySystem.amount == old(billPanel.currencySystem.amount))
    {
      if isPaid || IsExpired(clock) {
        return;
      }
      if billPanel != null {
        billPanel.ProcessPayment(this, clock);
      }
    }
  }

  /** The cleanup rule: expired, and more than 7 days past the expiry day. */
  predicate Overdue(b: Bill?, clock: DayTime?)
    reads b, clock
  {
    b != null && b.IsExpired(clock) && clock.days - (b.creationDay + b.expireDays) > 7
  }

  /** The bills `CleanupExpiredBills` keeps, in order. */
  function Cleaned(bills: seq<Bill?>, clock: DayTime?): (r: seq<Bill?>)
    reads bills, clock
  {
    if |bills| == 0 then []
    else (if Overdue(bills[0], clock) then [] else [bills[0]]) + Cleaned(bills[1..], clock)
  }

  /** The cleanup keeps exactly the bills that are not overdue, and never adds one. */
  lemma {:induction false} CleanedMembers(bills: seq<Bill?>, clock: DayTime?)
    ensures var r := Cleaned(bills, clock);
      |r| <= |bills| &&
      (forall i :: 0 <= i < |r| ==> r[i] in bills && !Overdue(r[i], clock)) &&
      (forall i :: 0 <= i < |bills| && !Overdue(bills[i], clock) ==> bills[i] in r)
  {
    if |bills| > 0 {
      CleanedMembers(bills[1..], clock);
      var r := Cleaned(bills, clock);
      var head := if Overdue(bills[0], clock) then [] else [bills[0]];
      var rest := Cleaned(bills[1..], clock);
      assert r == head + rest;
      forall i | 0 <= i < |r| ensures r[i] in bills && !Overdue(r[i], clock) {
        if i >= |head| {
          assert r[i] == rest[i - |head|];
        }
      }
      forall i | 0 <= i < |bills| && !Overdue(bills[i], clock) ensures bills[i] in r {
        if i > 0 {
          assert bills[i] == bills[1..][i - 1];
        }
      }
    }
  }

  /** One step of the backward sweep: drop bill i when it is overdue. */
  lemma CleanupStep(bills: seq<Bill?>, i: int, clock: DayTime?, current: seq<Bill?>)
    requires 0 <= i < |bills|
    requires current == bills[..i + 1] + Cleaned(bills[i + 1..], clock)
    ensures current[i] == bills[i]
    ensures Overdue(bills[i], clock) ==> current[..i] + current[i + 1..] == bills[..i] + Cleaned(bills[i..], clock)
    ensures !Overdue(bills[i], clock) ==> current == bills[..i] + Cleaned(bills[i..], clock)
  {
    assert bills[i..][1..] == bills[i + 1..];
    assert bills[..i + 1] == bills[..i] + [bills[i]];
    assert current[..i] == bills[..i];
    assert current[i + 1..] == Cleaned(bills[i + 1..], clock);
  }

  /** Neither paid nor expired: what the unpaid counters look for. */
  predicate Payable(b: Bill?, clock: DayTime?)
    reads b, clock
  {
    b != null && !b.isPaid && !b.IsExpired(clock)
  }

  /** Expired (hence unpaid): what the expired counters look for. */
  predicate Lapsed(b: Bill?, clock: DayTime?)
    reads b, clock
  {
    b != null && b.IsExpired(clock) && !b.isPaid
  }

  /** Unpaid and more than `grace` days past its expiry day, with day 0 when there is no clock. */
  predicate Critical(b: Bill?, clock: DayTime?, grace: int)
    reads b, clock
  {
    var currentDay := if clock != null then clock.days else 0;
    b != null && !b.isPaid && currentDay - (b.creationDay + b.expireDays) > grace
  }

  function CountPayable(bills: seq<Bill?>, clock: DayTime?): nat
    reads bills, clock
  {
    if |bills| == 0 then 0
    else CountPayable(bills[..|bills| - 1], clock) + (if Payable(bills[|bills| - 1], clock) then 1 else 0)
  }

  function SumPayable(bills: seq<Bill?>, clock: DayTime?): real
    reads bills, clock
  {
    if |bills| == 0 then 0.0
    else SumPayable(bills[..|bills| - 1], clock) + (if Payable(bills[|bills| - 1], clock) then bills[|bills| - 1].amount else 0.0)
  }

  function CountLapsed(bills: seq<Bill?>, clock: DayTime?): nat
    reads bills, clock
  {
    if |bills| == 0 then 0
    else CountLapsed(bills[..|bills| - 1], clock) + (if Lapsed(bills[|bills| - 1], clock) then 1 else 0)
  }

  function SumLapsed(bills: seq<Bill?>, clock: DayTime?): real
    reads bills, clock
  {
    if |bills| == 0 then 0.0
    else SumLapsed(bills[..|bills| - 1], clock) + (if Lapsed(bills[|bills| - 1], clock) then bills[|bills| - 1].amount else 0.0)
  }

  /** Some bill is expired exactly when the expired count is positive. */
  lemma {:induction false} LapsedCountPositive(bills: seq<Bill?>, clock: DayTime?)
    ensures CountLapsed(bills, clock) > 0 <==> exists i :: 0 <= i < |bills| && Lapsed(bills[i], clock)
  {
    if |bills| > 0 {
      var init := bills[..|bills| - 1];
      LapsedCountPositive(init, clock);
      if exists i :: 0 <= i < |init| && Lapsed(init[i], clock) {
        var i :| 0 <= i < |init| && Lapsed(init[i], clock);
        assert bills[i] == init[i];
      }
      if exists i :: 0 <= i < |bills| && Lapsed(bills[i], clock) {
        var i :| 0 <= i < |bills| && Lapsed(bills[i], clock);
        if i < |init| {
          assert init[i] == bills[i];
        }
      }
    }
  }

  /** Payable and expired bills are disjoint, and neither count exceeds the number of bills. */
  lemma {:induction false} CountsBounded(bills: seq<Bill?>, clock: DayTime?)
    ensures CountPayable(bills, clock) + CountLapsed(bills, clock) <= |bills|
  {
    if |bills| > 0 {
      CountsBounded(bills[..|bills| - 1], clock);
    }
  }

  /** With a clock and a non-negative grace period, a critical bill is an expired one. */
  lemma CriticalIsLapsed(b: Bill?, clock: DayTime?, grace: int)
    requires clock != null && grace >= 0
    requires Critical(b, clock, grace)
    ensures Lapsed(b, clock)
  {
  }

  /** Without a clock nothing is expired, yet a bill created before day 0 can still look critical. */
  lemma CriticalWithoutClock(b: Bill)
    requires !b.isPaid && b.creationDay + b.expireDays < -7
    ensures Critical(b, null, 7) && !Lapsed(b, null)
  {
  }

  class BillPanel {
    var activeBills: seq<Bill?>
    var currencySystem: Currency?
    /** Whether the bill prefab and its container are assigned. */
    var hasPrefabAndContainer: bool
    /** Whether an instantiated prefab carries a `Bill` component. */
    var prefabHasBill: bool

    constructor (currency: Currency?, hasPrefabAndContainer: bool, prefabHasBill: bool)
      ensures activeBills == [] && currencySystem == currency
      ensures this.hasPrefabAndContainer == hasPrefabAndContainer && this.prefabHasBill == prefabHasBill
    {
      activeBills := [];
      currencySystem := currency;
      this.hasPrefabAndContainer := hasPrefabAndContainer;
      this.prefabHasBill := prefabHasBill;
    }

    /**
     * `ProcessPayment`: only an unpaid, unexpired, affordable bill is paid, and then the balance
     * drops by its amount.
     */
    method ProcessPayment(bill: Bill, clock: DayTime?)
      modifies bill`isPaid, if currencySystem != null then {currencySystem} else {}
      ensures currencySystem == null || old(bill.isPaid) || old(bill.IsExpired(clock)) ==>
        bill.isPaid == old(bill.isPaid) && (currencySystem != null ==> currencySystem.amount == old(currencySystem.amount))
      ensures currencySystem != null && !old(bill.isPaid) && !old(bill.IsExpired(clock)) ==>
        (old(currencySystem.Check(bill.amount)) ==>
           bill.isPaid && currencySystem.amount == old(currencySystem.amount) - bill.amount) &&
        (!old(currencySystem.Check(bill.amount)) ==>
           bill.isPaid == old(bill.isPaid) && currencySystem.amount == old(currencySystem.amount))
    {
      if currencySystem == null {
        return;
      }
      if bill.isPaid {
        return;
      }
      if bill.IsExpired(clock) {
        return;
      }
      if currencySystem.Check(bill.amount) {
        currencySystem.Decrease(bill.amount);
        bill.MarkAsPaid();
      }
    }

    /** `AddBill`: one new, initialized bill at the end, when the prefab can supply it. */
    method AddBill(billName: string, amount: real, icon: Sprite, expireInDays: int, clock: DayTime?)
      modifies this`activeBills
      ensures !(hasPrefabAndContainer && prefabHasBill) ==> activeBills == old(activeBills)
      ensures hasPrefabAndContainer && prefabHasBill ==>
        |activeBills| == |old(activeBills)| + 1 && activeBills[..|old(activeBills)|] == old(activeBills) &&
        (var b := activeBills[|old(activeBills)|];
         b != null && fresh(b) && b.billName == billName && b.amount == amount && b.icon == icon &&
         b.expireDays == expireInDays && !b.isPaid && (clock != null ==> b.creationDay == clock.days))
    {
      if !hasPrefabAndContainer {
        return;
      }
      if prefabHasBill {
        var newBill := new Bill();
        newBill.Initialize(billName, amount, icon, expireInDays, clock);
        activeBills := activeBills + [newBill];
      }
    }

    /** `CleanupExpiredBills`: a backward sweep removing the overdue bills. */
    method CleanupExpiredBills(clock: DayTime?)
      modifies this`activeBills
      ensures activeBills == Cleaned(old(activeBills), clock)
    {
      ghost var bills := activeBills;
      var i := |activeBills| - 1;
      while i >= 0
        invariant -1 <= i < |bills|
        invariant activeBills == bills[..i + 1] + Cleaned(bills[i + 1..], clock)
      {
        CleanupStep(bills, i, clock, activeBills);
        var bill := activeBills[i];
        if bill != null && bill.IsExpired(clock) {
          var currentDay := if clock != null then clock.days else 0;
          var daysPastExpiration := currentDay - (bill.creationDay + bill.expireDays);
          if daysPastExpiration > 7 {
            activeBills := activeBills[..i] + activeBills[i + 1..];
          }
        }
        i := i - 1;
      }
    }

    method GetUnpaidBillCount(clock: DayTime?) returns (unpaidCount: nat)
      ensures unpaidCount == CountPayable(activeBills, clock)
    {
      unpaidCount := 0;
      var i := 0;
      while i < |activeBills|
        invariant 0 <= i <= |activeBills|
        invariant unpaidCount == CountPayable(activeBills[..i], clock)
      {
        assert activeBills[..i + 1][..i] == activeBills[..i];
        var bill := activeBills[i];
        if bill != null && !bill.isPaid && !bill.IsExpired(clock) {
          unpaidCount := unpaidCount + 1;
        }
        i := i + 1;
      }
      assert activeBills[..i] == activeBills;
    }

    method GetTotalUnpaidAmount(clock: DayTime?) returns (totalAmount: real)
      ensures totalAmount == SumPayable(activeBills, clock)
    {
      totalAmount := 0.0;
      var i := 0;
      while i < |activeBills|
        invariant 0 <= i <= |activeBills|
        invariant totalAmount == SumPayable(activeBills[..i], clock)
      {
        assert activeBills[..i + 1][..i] == activeBills[..i];
        var bill := activeBills[i];
        if bill != null && !bill.isPaid && !bill.IsExpired(clock) {
          totalAmount := totalAmount + bill.amount;
        }
        i := i + 1;
      }
      assert activeBills[..i] == activeBills;
    }

    /** `HasExpiredBills`: some bill is expired. */
    method HasExpiredBills(clock: DayTime?) returns (found: bool)
      ensures found <==> exists i :: 0 <= i < |activeBills| && Lapsed(activeBills[i], clock)
      ensures found <==> CountLapsed(activeBills, clock) > 0
    {
      LapsedCountPositive(activeBills, clock);
      var i := 0;
      while i < |activeBills|
        invariant 0 <= i <= |activeBills|
        invariant forall j :: 0 <= j < i ==> !Lapsed(activeBills[j], clock)
      {
        var bill := activeBills[i];
        if bill != null && bill.IsExpired(clock) && !bill.isPaid {
          return true;
        }
        i := i + 1;
      }
      return false;
    }

    method GetExpiredBillCount(clock: DayTime?) returns (expiredCount: nat)
      ensures expiredCount == CountLapsed(activeBills, clock)
    {
      expiredCount := 0;
      var i := 0;
      while i < |activeBills|
        invariant 0 <= i <= |activeBills|
        invariant expiredCount == CountLapsed(activeBills[..i], clock)
      {
        assert activeBills[..i + 1][..i] == activeBills[..i];
        var bill := activeBills[i];
        if bill != null && bill.IsExpired(clock) && !bill.isPaid {
          expiredCount := expiredCount + 1;
        }
        i := i + 1;
      }
      assert activeBills[..i] == activeBills;
    }

    method GetTotalExpiredAmount(clock: DayTime?) returns (totalAmount: real)
      ensures totalAmount == SumLapsed(activeBills, clock)
    {
      totalAmount := 0.0;
      var i := 0;
      while i < |activeBills|
        invariant 0 <= i <= |activeBills|
        invariant totalAmount == SumLapsed(activeBills[..i], clock)
      {
        assert activeBills[..i + 1][..i] == activeBills[..i];
        var bill := activeBills[i];
        if bill != null && bill.IsExpired(clock) && !bill.isPaid {
          totalAmount := totalAmount + bill.amount;
        }
        i := i + 1;
      }
      assert activeBills[..i] == activeBills;
    }

    /** `HasCriticalExpiredBills`: some unpaid bill is more than `gracePeriodDays` past expiry. */
    method HasCriticalExpiredBills(clock: DayTime?, gracePeriodDays: int := 7) returns (found: bool)
      ensures found <==> exists i :: 0 <= i < |activeBills| && Critical(activeBills[i], clock, gracePeriodDays)
    {
      var currentDay := if clock != null then clock.days else 0;
      var i := 0;
      while i < |activeBills|
        invariant 0 <= i <= |activeBills|
        invariant forall j :: 0 <= j < i ==> !Critical(activeBills[j], clock, gracePeriodDays)
      {
        var bill := activeBills[i];
        if bill != null && !bill.isPaid {
          var expirationDay := bill.creationDay + bill.expireDays;
          var daysPastExpiration := currentDay - expirationDay;
          if daysPastExpiration > gracePeriodDays {
            return true;
          }
        }
        i := i + 1;
      }
      return false;
    }

    method ClearAllBills()
      modifies this`activeBills
      ensures activeBills == []
    {
      activeBills := [];
    }
  }
}
