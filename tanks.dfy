/** A tank of the plant (`Zbiornik`): a bounded quantity of liquid with a temperature.
    Adding is all-or-nothing against the capacity; withdrawing never takes more than
    the tank holds. */
module Tanks {

  /** True when `amount` can be added to a tank holding `level` without exceeding `capacity`. */
  predicate Fits(level: real, capacity: real, amount: real) {
    level + amount <= capacity
  }

  /** The quantity a request for `amount` actually takes out of a tank holding `level`:
      nothing from an empty tank, otherwise the smaller of the request and the contents. */
  function Withdrawn(level: real, amount: real): (r: real)
    ensures level <= 0.0 ==> r == 0.0
    ensures level > 0.0 ==> r <= level && r <= amount && (r == level || r == amount)
    ensures 0.0 <= amount ==> 0.0 <= r <= amount
    ensures 0.0 <= level ==> 0.0 <= level - r
    ensures 0.0 <= amount ==> (r > 0.0 <==> level > 0.0 && amount > 0.0)
  {
    if level > 0.0 then (if amount < level then amount else level) else 0.0
  }

  class Tank {
    var level: real
    const capacity: real
    var temp: real
    const name: string

    /** The level bounds every add and withdraw of a non-negative amount keeps. */
    ghost predicate Valid()
      reads this
    {
      0.0 <= level <= capacity
    }

    constructor (capacity: real, name: string)
      ensures this.capacity == capacity && this.name == name
      ensures level == 0.0 && temp == 20.0
      ensures 0.0 <= capacity ==> Valid()
    {
      this.capacity := capacity;
      this.name := name;
      level := 0.0;
      temp := 20.0;
    }

    /** Adds `amount` if it fits and reports whether it did; a failed add changes nothing. */
    method AddFluid(amount: real) returns (ok: bool)
      modifies this`level
      ensures ok <==> old(level) + amount <= capacity
      ensures ok ==> level == old(level) + amount
      ensures !ok ==> level == old(level)
      ensures old(Valid()) && 0.0 <= amount ==> Valid()
    {
      if level + amount <= capacity {
        level := level + amount;
        ok := true;
      } else {
        ok := false;
      }
    }

    /** Takes out at most `amount` and returns what was actually taken. */
    method WithdrawFluid(amount: real) returns (taken: real)
      modifies this`level
      ensures taken == Withdrawn(old(level), amount)
      ensures level == old(level) - taken
      ensures old(Valid()) && 0.0 <= amount ==> Valid() && 0.0 <= taken <= old(level)
    {
      if level > 0.0 {
        taken := if amount < level then amount else level;
        level := level - taken;
      } else {
        taken := 0.0;
      }
    }
  }
}
