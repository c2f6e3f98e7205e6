/** The alarm with a callback (Include/Alarm.hpp, Source/Alarm.cpp), driven by the system
    tick: the counter is incremented, then the alarm is checked (Source/Kernel.cpp). */
module Alarms {
  import opened Clocks
  import opened Counters

  datatype State = State(time: nat, cycle: nat, start: nat, active: bool)

  /** One check at counter value tick, and whether it calls the callback. */
  function Check(max: nat, tick: nat, a: State): (State, bool)
    requires max < RANGE && tick < RANGE && a.start < RANGE
  {
    if a.active && Elapsed(max, a.start, tick) >= a.time then
      (if a.cycle > 0 then a.(start := tick, time := a.cycle) else a.(active := false), true)
    else (a, false)
  }

  /** An alarm started at counter value tick, after n system ticks. */
  function After(max: nat, tick: nat, a: State, n: nat): (r: State)
    requires max < RANGE && tick <= max
    ensures r.start < RANGE
  {
    if n == 0 then a.(start := tick, active := true)
    else Check(max, Ticks(max, tick, n), After(max, tick, a, n - 1)).0
  }

  /** Whether tick number n after the start calls the callback. */
  predicate Fires(max: nat, tick: nat, a: State, n: nat)
    requires max < RANGE && tick <= max && n >= 1
  {
    Check(max, Ticks(max, tick, n), After(max, tick, a, n - 1)).1
  }

  /** The tick of the first firing.  From a counter that stands at its maximum the first
      tick does not count. */
  function First(max: nat, tick: nat, a: State): (f: nat)
    ensures f >= 1
  {
    if tick < Modulus(max) then (if a.time == 0 then 1 else a.time) else a.time + 1
  }

  /** Ticks since the last firing, n ticks after the start; the alarm fires again only if
      its cycle fits into that of the counter. */
  function Since(max: nat, f: nat, cycle: nat, n: nat): nat
    requires f <= n && cycle > 0
  {
    if cycle < Modulus(max) then (n - f) % cycle else n - f
  }

  /** Before its first firing an alarm waits unchanged. */
  lemma {:induction false} Waits(max: nat, tick: nat, a: State, n: nat)
    requires max < RANGE && tick <= max
    requires n < First(max, tick, a) || a.time >= Modulus(max)
    ensures After(max, tick, a, n) == a.(start := tick, active := true)
    ensures n >= 1 ==> !Fires(max, tick, a, n)
  {
    if n > 0 {
      Waits(max, tick, a, n - 1);
      TooEarly(max, tick, a, n);
    }
  }

  lemma TooEarly(max: nat, tick: nat, a: State, n: nat)
    requires max < RANGE && tick <= max && n >= 1
    requires n < First(max, tick, a) || a.time >= Modulus(max)
    ensures Elapsed(max, tick, Ticks(max, tick, n)) < a.time
  {
    ElapsedSince(max, tick, n);
  }

  /** What has elapsed n ticks after any start, from the maximum included. */
  lemma ElapsedSince(max: nat, tick: nat, n: nat)
    requires max < RANGE && tick <= max && n >= 1
    ensures var m, e := Modulus(max), Elapsed(max, tick, Ticks(max, tick, n));
      && e == (if tick < m then n % m else (n - 1) % m) && e < m
      && (n < m ==> n % m == n) && (n - 1 < m ==> (n - 1) % m == n - 1)
  {
    var m := Modulus(max);
    if tick < m { ElapsedIs(max, tick, n); } else { ElapsedFromMax(max, n); }
    if n < m { Small(n, m); }
    if n - 1 < m { Small(n - 1, m); }
  }

  lemma InTime(max: nat, tick: nat, a: State, f: nat)
    requires max < RANGE && tick <= max && a.time < Modulus(max) && f == First(max, tick, a)
    ensures Elapsed(max, tick, Ticks(max, tick, f)) >= a.time
  {
    ElapsedSince(max, tick, f);
  }

  lemma FirstFires(max: nat, tick: nat, a: State)
    requires max < RANGE && tick <= max && a.time < Modulus(max)
    ensures var f := First(max, tick, a);
      && Fires(max, tick, a, f)
      && After(max, tick, a, f) == if a.cycle > 0 then State(a.cycle, a.cycle, Ticks(max, tick, f), true)
                                   else a.(start := tick, active := false)
  {
    var f := First(max, tick, a);
    Waits(max, tick, a, f - 1);
    InTime(max, tick, a, f);
  }

  /** A cyclic alarm that has fired was last restarted at tick s, Since ticks ago. */
  lemma {:induction false} Cycles(max: nat, tick: nat, a: State, n: nat) returns (s: nat)
    requires max < RANGE && tick <= max && a.time < Modulus(max) && a.cycle > 0
    requires n >= First(max, tick, a)
    ensures First(max, tick, a) <= s <= n && s == n - Since(max, First(max, tick, a), a.cycle, n)
    ensures After(max, tick, a, n) == State(a.cycle, a.cycle, Ticks(max, tick, s), true)
    ensures Fires(max, tick, a, n) <==> s == n
  {
    var f := First(max, tick, a);
    if n == f {
      FirstFires(max, tick, a);
      Small(0, a.cycle);
      s := n;
    } else {
      s := Cycles(max, tick, a, n - 1);
      s := NextCycle(max, tick, a, s, n);
    }
  }

  lemma NextCycle(max: nat, tick: nat, a: State, s: nat, n: nat) returns (s': nat)
    requires max < RANGE && tick <= max && a.cycle > 0 && First(max, tick, a) <= s < n
    requires s == n - 1 - Since(max, First(max, tick, a), a.cycle, n - 1)
    requires After(max, tick, a, n - 1) == State(a.cycle, a.cycle, Ticks(max, tick, s), true)
    ensures s <= s' <= n && s' == n - Since(max, First(max, tick, a), a.cycle, n)
    ensures After(max, tick, a, n) == State(a.cycle, a.cycle, Ticks(max, tick, s'), true)
    ensures Fires(max, tick, a, n) <==> s' == n
  {
    SinceNext(max, First(max, tick, a), a.cycle, n);
    RestartElapsed(max, tick, s, n - s, n);
    s' := if Fires(max, tick, a, n) then n else s;
  }

  lemma SinceNext(max: nat, f: nat, c: nat, n: nat)
    requires f < n && c > 0
    ensures var d := Since(max, f, c, n - 1);
      && Since(max, f, c, n) == (if c < Modulus(max) && d + 1 == c then 0 else d + 1)
      && (c < Modulus(max) ==> d < c)
  {
    OneMore(n - 1 - f, c);
  }

  /** What has elapsed d ticks after a restart s ticks after the start. */
  lemma RestartElapsed(max: nat, tick: nat, s: nat, d: nat, n: nat)
    requires max < RANGE && tick <= max && s >= 1 && n == s + d
    ensures var e := Elapsed(max, Ticks(max, tick, s), Ticks(max, tick, n));
      e < Modulus(max) && (d < Modulus(max) ==> e == d)
  {
    var start, m := Ticks(max, tick, s), Modulus(max);
    assert Ticks(max, tick, n) == Ticks(max, start, d) by { TicksAdd(max, tick, s, d, n); }
    ElapsedIs(max, start, d);
    assert d < m ==> d % m == d by { if d < m { Small(d, m); } }
  }

  /** The exact schedule of an alarm, for every start time, cycle and counter: it fires if
      and only if its time fits into the counter's cycle, first at First and then, if it
      has a cycle that fits too, every cycle ticks. */
  lemma Schedule(max: nat, tick: nat, a: State, n: nat)
    requires max < RANGE && tick <= max && n >= 1
    ensures var f, m := First(max, tick, a), Modulus(max);
      Fires(max, tick, a, n) <==>
        a.time < m && (n == f || (n > f && 0 < a.cycle < m && (n - f) % a.cycle == 0))
  {
    var f, m := First(max, tick, a), Modulus(max);
    if a.time >= m || n < f {
      Waits(max, tick, a, n);
    } else if a.cycle > 0 {
      var s := Cycles(max, tick, a, n);
      if n == f { Small(0, a.cycle); }
    } else {
      FirstFires(max, tick, a);
      if n > f { StaysOff(max, tick, a, f, n - 1); }
    }
  }

  lemma {:induction false} StaysOff(max: nat, tick: nat, a: State, f: nat, n: nat)
    requires max < RANGE && tick <= max && f <= n && !After(max, tick, a, f).active
    ensures !After(max, tick, a, n).active
  {
    if n > f { StaysOff(max, tick, a, f, n - 1); }
  }

  /** In the ordinary case the firings are those at time, time + cycle, time + 2 * cycle,
      and so on. */
  lemma FiresEvery(max: nat, tick: nat, time: nat, cycle: nat, start: nat, i: nat)
    requires 1 <= time < max < RANGE && 1 <= cycle < max && tick < max
    ensures Fires(max, tick, State(time, cycle, start, false), time + i * cycle)
  {
    WholeCycles(i, cycle);
    FiresAfter(max, tick, State(time, cycle, start, false), i * cycle, time + i * cycle);
  }

  lemma WholeCycles(i: nat, cycle: nat)
    requires cycle > 0
    ensures i * cycle >= 0 && (i * cycle) % cycle == 0
  {
    DivModUnique(i * cycle, cycle, i, 0);
  }

  /** The alarm fires whenever whole cycles have passed since its first firing. */
  lemma FiresAfter(max: nat, tick: nat, a: State, d: nat, n: nat)
    requires 1 <= a.time < max < RANGE && 1 <= a.cycle < max && tick < max
    requires n == a.time + d && d % a.cycle == 0
    ensures Fires(max, tick, a, n)
  {
    Schedule(max, tick, a, n);
  }

  class Alarm {
    const counter: Counter
    var alarmTime: nat
    const cycleTime: nat
    var startTick: nat
    var active: bool

    /** How often the callback has been called. */
    ghost var calls: nat

    ghost predicate Valid()
      reads this, counter
    {
      counter.Valid() && startTick <= counter.maxAllowedValue
    }

    ghost function Value(): State
      reads this
    {
      State(alarmTime, cycleTime, startTick, active)
    }

    constructor (c: Counter, time: nat, cycle: nat)
      requires c.Valid() && time < RANGE && cycle < RANGE
      ensures counter == c && Valid() && Value() == State(time, cycle, 0, false) && calls == 0
    {
      counter, alarmTime, cycleTime, startTick, active := c, time, cycle, 0, false;
      calls := 0;
    }

    /** From here on the schedule holds. */
    method Start()
      requires Valid()
      modifies this`startTick, this`active
      ensures Valid()
      ensures Value() == After(counter.maxAllowedValue, counter.currentTick, old(Value()), 0)
    {
      startTick := counter.currentTick;
      active := true;
    }

    method Stop()
      requires Valid()
      modifies this`active
      ensures Valid() && Value() == old(Value()).(active := false)
    {
      active := false;
    }

    method CheckAndTrigger()
      requires Valid()
      modifies this`startTick, this`alarmTime, this`active, this`calls
      ensures Valid()
      ensures Value() == Check(counter.maxAllowedValue, counter.currentTick, old(Value())).0
      ensures calls == old(calls) +
                if Check(counter.maxAllowedValue, counter.currentTick, old(Value())).1 then 1 else 0
      ensures !old(active) ==> Value() == old(Value()) && calls == old(calls)
    {
      if active {
        var elapsedTime := counter.GetElapsedValue(startTick);
        if elapsedTime >= alarmTime {
          if cycleTime > 0 {
            startTick := counter.currentTick;
            alarmTime := cycleTime;
          } else {
            active := false;
          }
          calls := calls + 1;
        }
      }
    }

    /** What the system tick does to a registered counter and then to this alarm. */
    method SystemTick()
      requires Valid()
      modifies this`startTick, this`alarmTime, this`active, this`calls, counter`currentTick
      ensures Valid()
      ensures counter.currentTick == Ticks(counter.maxAllowedValue, old(counter.currentTick), 1)
      ensures Value() == Check(counter.maxAllowedValue, counter.currentTick, old(Value())).0
      ensures calls == old(calls) +
                if Check(counter.maxAllowedValue, counter.currentTick, old(Value())).1 then 1 else 0
    {
      counter.Increment();
      CheckAndTrigger();
    }
  }
}
