// Health and happiness stats and the death latch (Character.cs).
module CharacterStats {
  /** `Stat`: a current value and a maximum. */
  class Stat {
    var maxVal: int
    var currVal: int

    constructor (max: int, curr: int)
      ensures maxVal == max && currVal == curr
    {
      maxVal := max;
      currVal := curr;
    }

    /** `IsEmpty` is not part of this model; it is taken to mean "nothing left". */
    predicate IsEmpty() reads this { currVal <= 0 }

    /** `Subtract`: no lower clamp. */
    method Subtract(amount: int)
      modifies this`currVal
      ensures currVal == old(currVal) - amount
    {
      currVal := currVal - amount;
    }

    /** `Addition`: the sum, capped at the maximum. */
    method Addition(amount: int)
      modifies this`currVal
      ensures old(currVal) + amount <= maxVal ==> currVal == old(currVal) + amount
      ensures old(currVal) + amount > maxVal ==> currVal == maxVal
    {
      currVal := currVal + amount;
      if currVal > maxVal {
        currVal := maxVal;
      }
    }

    method SetToMax()
      modifies this`currVal
      ensures currVal == maxVal
    {
      currVal := maxVal;
    }
  }

  /** Death after `DeductHealth`: already dead, or health at or below 0. */
  predicate DeadAfterHealthLoss(wasDead: bool, health: int)
  {
    wasDead || health <= 0
  }

  /** Death after `DeductHappiness` as written: the test looks at health, not happiness. */
  predicate DeadAfterHappinessLossAsWritten(wasDead: bool, health: int, happiness: int)
  {
    wasDead || health <= 0
  }

  /** Death after `DeductHappiness` as evidently intended: happiness at or below 0. */
  predicate DeadAfterHappinessLoss(wasDead: bool, health: int, happiness: int)
  {
    wasDead || happiness <= 0
  }

  /**
   * As written, losing all happiness never kills a healthy character; with the intended test
   * it does, and it still never revives one.
   */
  lemma HappinessLossAsWrittenNeverKills(health: int, happiness: int)
    requires health > 0
    ensures !DeadAfterHappinessLossAsWritten(false, health, happiness)
    ensures happiness <= 0 ==> DeadAfterHappinessLoss(false, health, happiness)
    ensures DeadAfterHappinessLoss(true, health, happiness)
  {
  }

  class Character {
    const Health: Stat
    const Happiness: Stat
    var isDead: bool

    constructor (health: Stat, happiness: Stat)
      requires health != happiness
      ensures Health == health && Happiness == happiness && !isDead
    {
      Health := health;
      Happiness := happiness;
      isDead := false;
    }

    /** The two stats are distinct objects. */
    predicate Valid() reads this { Health != Happiness }

    /** `DeductHealth`: lower health; dead once it is at or below 0. */
    method DeductHealth(amount: int)
      requires Valid()
      modifies Health`currVal, this`isDead
      ensures Health.currVal == old(Health.currVal) - amount
      ensures isDead == DeadAfterHealthLoss(old(isDead), Health.currVal)
      ensures Happiness.currVal == old(Happiness.currVal)
    {
      Health.Subtract(amount);
      if Health.currVal <= 0 {
        isDead := true;
      }
    }

    method AddHealth(amount: int)
      requires Valid()
      modifies Health`currVal
      ensures old(Health.currVal) + amount <= Health.maxVal ==> Health.currVal == old(Health.currVal) + amount
      ensures old(Health.currVal) + amount > Health.maxVal ==> Health.currVal == Health.maxVal
      ensures Happiness.currVal == old(Happiness.currVal) && isDead == old(isDead)
    {
      Health.Addition(amount);
    }

    method FullHealth()
      requires Valid()
      modifies Health`currVal
      ensures Health.currVal == Health.maxVal
      ensures Happiness.currVal == old(Happiness.currVal) && isDead == old(isDead)
    {
      Health.SetToMax();
    }

    /** `DeductHappiness` exactly as the game has it. */
    method DeductHappinessAsWritten(amount: int)
      requires Valid()
      modifies Happiness`currVal, this`isDead
      ensures Happiness.currVal == old(Happiness.currVal) - amount
      ensures isDead == DeadAfterHappinessLossAsWritten(old(isDead), Health.currVal, Happiness.currVal)
      ensures Health.currVal == old(Health.currVal)
    {
      Happiness.Subtract(amount);
      if Health.currVal <= 0 {
        isDead := true;
      }
    }

    /** `DeductHappiness` with the death test on happiness. */
    method DeductHappiness(amount: int)
      requires Valid()
      modifies Happiness`currVal, this`isDead
      ensures Happiness.currVal == old(Happiness.currVal) - amount
      ensures isDead == DeadAfterHappinessLoss(old(isDead), Health.currVal, Happiness.currVal)
      ensures Health.currVal == old(Health.currVal)
    {
      Happiness.Subtract(amount);
      if Happiness.currVal <= 0 {
        isDead := true;
      }
    }

    method AddHappiness(amount: int)
      requires Valid()
      modifies Happiness`currVal
      ensures old(Happiness.currVal) + amount <= Happiness.maxVal ==> Happiness.currVal == old(Happiness.currVal) + amount
      ensures old(Happiness.currVal) + amount > Happiness.maxVal ==> Happiness.currVal == Happiness.maxVal
      ensures Health.currVal == old(Health.currVal) && isDead == old(isDead)
    {
      Happiness.Addition(amount);
    }

    /** `FullHappineess`: the argument is ignored. */
    method FullHappineess(amount: int)
      requires Valid()
      modifies Happiness`currVal
      ensures Happiness.currVal == Happiness.maxVal
      ensures Health.currVal == old(Health.currVal) && isDead == old(isDead)
    {
      Happiness.SetToMax();
    }
  }
}
