// The quantity stepper (TicketCounter): minus and plus buttons that move a
// value by one inside [min, max]; the value itself lives with the caller,
// modelled here as the counter's field.

module TicketCounter {

  const DefaultMin := 1
  const DefaultMax := 10

  predicate CanDecrement(value: int, min: int) { value > min }

  predicate CanIncrement(value: int, max: int) { value < max }

  /** One button press: `true` for plus, `false` for minus; a disabled press changes nothing. */
  function Press(value: int, min: int, max: int, plus: bool): (r: int)
    ensures plus ==> value <= r <= value + 1
    ensures !plus ==> value - 1 <= r <= value
  {
    if plus then (if CanIncrement(value, max) then value + 1 else value)
    else (if CanDecrement(value, min) then value - 1 else value)
  }

  /** The value after a series of presses. */
  function Presses(value: int, min: int, max: int, presses: seq<bool>): int
    decreases |presses|
  {
    if presses == [] then value
    else Presses(Press(value, min, max, presses[0]), min, max, presses[1..])
  }

  /** A press never leaves [min, max] once inside it, and moves the value by at most one. */
  lemma PressInRange(value: int, min: int, max: int, plus: bool)
    requires min <= value <= max
    ensures min <= Press(value, min, max, plus) <= max
    ensures -1 <= Press(value, min, max, plus) - value <= 1
  {
  }

  /** Any series of presses starting inside [min, max] stays inside it. */
  lemma {:induction false} PressesInRange(value: int, min: int, max: int, presses: seq<bool>)
    requires min <= value <= max
    ensures min <= Presses(value, min, max, presses) <= max
    decreases |presses|
  {
    if presses != [] {
      PressInRange(value, min, max, presses[0]);
      PressesInRange(Press(value, min, max, presses[0]), min, max, presses[1..]);
    }
  }

  /** Enough plus presses reach the maximum from anywhere in range. */
  lemma {:induction false} PlusReachesMax(value: int, min: int, max: int, n: nat)
    requires min <= value <= max && n >= max - value
    ensures Presses(value, min, max, seq(n, _ => true)) == max
    decreases n
  {
    if n > 0 {
      var ps := seq(n, _ => true);
      assert ps[1..] == seq(n - 1, _ => true);
      PlusReachesMax(Press(value, min, max, true), min, max, n - 1);
    }
  }

  class Counter {
    var value: int
    const min: int
    const max: int

    /** A counter with the default bounds 1 and 10. */
    constructor WithDefaults(value: int)
      ensures this.value == value && min == DefaultMin && max == DefaultMax
    {
      this.value, min, max := value, DefaultMin, DefaultMax;
    }

    constructor (value: int, min: int, max: int)
      ensures this.value == value && this.min == min && this.max == max
    {
      this.value, this.min, this.max := value, min, max;
    }

    /** `handleDecrement` */
    method Decrement()
      modifies this
      ensures value == Press(old(value), min, max, false)
      ensures min <= old(value) <= max ==> min <= value <= max
    {
      if value > min {
        value := value - 1;
      }
    }

    /** `handleIncrement` */
    method Increment()
      modifies this
      ensures value == Press(old(value), min, max, true)
      ensures min <= old(value) <= max ==> min <= value <= max
    {
      if value < max {
        value := value + 1;
      }
    }
  }
}
