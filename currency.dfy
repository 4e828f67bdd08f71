// The player's money (Currency.cs); a C# float modelled as an exact real.
module Money {
  import opened Common

  class Currency {
    var amount: real

    /** A component before `Start`: the serialized amount. */
    constructor (amount: real)
      ensures this.amount == amount
    {
      this.amount := amount;
    }

    /** `Start`: every game begins with 1000. */
    method Start()
      modifies this
      ensures amount == 1000.0
    {
      amount := 1000.0;
    }

    /** `Add`: no clamp in either direction. */
    method Add(moneyGain: real)
      modifies this
      ensures amount == old(amount) + moneyGain
    {
      amount := amount + moneyGain;
    }

    /** `Check`: whether the price is affordable. */
    predicate Check(totalPrice: real) reads this
    {
      amount >= totalPrice
    }

    /** `Decrease`: subtract, then clamp at 0. */
    method Decrease(totalPrice: real)
      modifies this
      ensures amount >= 0.0
      ensures old(amount) - totalPrice >= 0.0 ==> amount == old(amount) - totalPrice
      ensures old(amount) - totalPrice < 0.0 ==> amount == 0.0
      ensures old(Check(totalPrice)) ==> amount == old(amount) - totalPrice
    {
      amount := amount - totalPrice;
      if amount < 0.0 {
        amount := 0.0;
      }
    }

    function GetAmount(): real reads this
    {
      amount
    }

    /** `SetAmount`: a negative amount is stored as 0. */
    method SetAmount(newAmount: real)
      modifies this
      ensures amount >= 0.0
      ensures amount == MaxReal(newAmount, 0.0)
    {
      amount := newAmount;
      if amount < 0.0 {
        amount := 0.0;
      }
    }
  }
}
