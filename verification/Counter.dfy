/** The tick counter of an alarm (Include/Counter.hpp, Source/Counter.cpp). */
module Counters {
  import opened Clocks

  /** The length of the counter's cycle: a maximum of 0 counts like 1. */
  function Modulus(max: nat): (m: nat)
    ensures m >= 1
  {
    if max == 0 then 1 else max
  }

  /** One increment. */
  function Next(max: nat, tick: nat): (r: nat)
    requires max < RANGE && tick < RANGE
    ensures r < RANGE
    ensures tick <= max ==> r < Modulus(max) && r == if tick + 1 < max then tick + 1 else 0
  {
    var t := Wrap(tick + 1);
    if t >= max then 0 else t
  }

  /** The value after n increments. */
  function Ticks(max: nat, tick: nat, n: nat): (r: nat)
    requires max < RANGE && tick <= max
    ensures r <= max && (n > 0 ==> r < Modulus(max))
  {
    if n == 0 then tick else Next(max, Ticks(max, tick, n - 1))
  }

  /** The elapsed value, in unsigned arithmetic. */
  function Elapsed(max: nat, start: nat, tick: nat): (r: nat)
    requires max < RANGE && start < RANGE && tick < RANGE
  {
    if tick >= start then tick - start else Wrap(Wrap(max - start) + tick)
  }

  lemma {:induction false} TicksAdd(max: nat, tick: nat, i: nat, j: nat, n: nat)
    requires max < RANGE && tick <= max && n == i + j
    ensures Ticks(max, tick, n) == Ticks(max, Ticks(max, tick, i), j)
  {
    if j > 0 {
      TicksAdd(max, tick, i, j - 1, n - 1);
    }
  }

  /** The value e ticks after start, for e inside a cycle of m values. */
  function Position(m: nat, start: nat, e: nat): nat
    requires start < m && e < m
  {
    if start + e < m then start + e else start + e - m
  }

  /** One increment moves to the next position. */
  lemma NextPosition(max: nat, start: nat, e: nat)
    requires max < RANGE && start < Modulus(max) && e < Modulus(max)
    ensures Position(Modulus(max), start, e) <= max
    ensures Next(max, Position(Modulus(max), start, e)) ==
            Position(Modulus(max), start, if e + 1 == Modulus(max) then 0 else e + 1)
  {}

  /** The elapsed value recovers e. */
  lemma PositionElapsed(max: nat, start: nat, e: nat)
    requires max < RANGE && start < Modulus(max) && e < Modulus(max)
    ensures Elapsed(max, start, Position(Modulus(max), start, e)) == e
  {}

  lemma {:induction false} TicksPosition(max: nat, start: nat, n: nat)
    requires max < RANGE && start < Modulus(max)
    ensures Ticks(max, start, n) == Position(Modulus(max), start, n % Modulus(max))
  {
    if n == 0 {
      Small(0, Modulus(max));
    } else {
      var e := (n - 1) % Modulus(max);
      TicksPosition(max, start, n - 1);
      OneMore(n - 1, Modulus(max));
      NextPosition(max, start, e);
    }
  }

  /** From a value inside the cycle, n increments later exactly n modulo the cycle has
      elapsed. */
  lemma ElapsedIs(max: nat, start: nat, n: nat)
    requires max < RANGE && start < Modulus(max)
    ensures Elapsed(max, start, Ticks(max, start, n)) == n % Modulus(max)
    ensures Elapsed(max, start, Ticks(max, start, n)) < Modulus(max)
  {
    TicksPosition(max, start, n);
    PositionElapsed(max, start, n % Modulus(max));
  }

  /** From the maximum itself, which only SetCounterValue can store, the first increment
      is not counted. */
  lemma ElapsedFromMax(max: nat, n: nat)
    requires 1 <= max < RANGE
    ensures Elapsed(max, max, Ticks(max, max, n)) == if n == 0 then 0 else (n - 1) % max
  {
    if n > 0 {
      TicksAdd(max, max, 1, n - 1, n);
      assert Ticks(max, max, 1) == 0 by { assert Ticks(max, max, 0) == max; }
      ElapsedIs(max, 0, n - 1);
    }
  }

  /** The elapsed value is exact at all times exactly when the count did not start at a
      maximum greater than 1. */
  lemma ElapsedExactly(max: nat, start: nat)
    requires max < RANGE && start <= max
    ensures (forall n: nat :: Elapsed(max, start, Ticks(max, start, n)) == n % Modulus(max))
            <==> start < max || max <= 1
  {
    if start < Modulus(max) {
      forall n: nat
        ensures Elapsed(max, start, Ticks(max, start, n)) == n % Modulus(max)
      {
        ElapsedIs(max, start, n);
      }
    } else if max == 1 {
      forall n: nat
        ensures Elapsed(max, start, Ticks(max, start, n)) == n % Modulus(max)
      {
        ElapsedFromMax(max, n);
        DivModUnique(n, 1, n, 0);
        if n > 0 { DivModUnique(n - 1, 1, n - 1, 0); }
      }
    } else {
      ElapsedFromMax(max, 1);
      Small(1, max);
      Small(0, max);
      assert Elapsed(max, start, Ticks(max, start, 1)) != 1 % Modulus(max);
    }
  }

  class Counter {
    const maxAllowedValue: nat
    var currentTick: nat

    ghost predicate Valid()
      reads this
    {
      currentTick <= maxAllowedValue < RANGE
    }

    constructor (maxValue: nat)
      requires maxValue < RANGE
      ensures Valid() && maxAllowedValue == maxValue && currentTick == 0
    {
      maxAllowedValue, currentTick := maxValue, 0;
    }

    method Increment()
      requires Valid()
      modifies this`currentTick
      ensures Valid() && currentTick == Ticks(maxAllowedValue, old(currentTick), 1)
    {
      ghost var was := currentTick;
      currentTick := Wrap(currentTick + 1);
      if currentTick >= maxAllowedValue {
        currentTick := 0;
      }
      assert Ticks(maxAllowedValue, was, 0) == was;
    }

    method GetElapsedValue(startTick: nat) returns (r: nat)
      requires Valid() && startTick < RANGE
      ensures r == Elapsed(maxAllowedValue, startTick, currentTick)
      ensures forall n: nat |
                startTick < Modulus(maxAllowedValue) && currentTick == Ticks(maxAllowedValue, startTick, n) ::
                r == n % Modulus(maxAllowedValue)
    {
      if currentTick >= startTick {
        r := currentTick - startTick;
      } else {
        r := Wrap(Wrap(maxAllowedValue - startTick) + currentTick);
      }
      forall n: nat | startTick < Modulus(maxAllowedValue) && currentTick == Ticks(maxAllowedValue, startTick, n)
        ensures r == n % Modulus(maxAllowedValue)
      {
        ElapsedIs(maxAllowedValue, startTick, n);
      }
    }

    method SetCounterValue(value: nat)
      requires Valid()
      modifies this`currentTick
      ensures Valid()
      ensures currentTick == if value <= maxAllowedValue then value else old(currentTick)
    {
      if value <= maxAllowedValue {
        currentTick := value;
      }
    }
  }
}
