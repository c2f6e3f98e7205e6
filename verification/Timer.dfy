/** The software timer (Include/Timer.hpp, Source/Timer.cpp). */
module Timers {
  import opened Clocks

  datatype State = State(period: nat, remaining: nat, autoReload: bool, running: bool)

  predicate InRange(t: State) {
    t.period < RANGE && t.remaining < RANGE
  }

  /** A period of 0 wraps on the first tick and so lasts the whole 32-bit range. */
  function Length(period: nat): (p: nat)
    ensures p >= 1
  {
    if period == 0 then RANGE else period
  }

  function Started(t: State): State {
    t.(running := true, remaining := t.period)
  }

  /** One tick, and whether it calls the callback. */
  function Ticked(t: State): (State, bool)
    requires InRange(t)
  {
    if t.running then
      var left := Wrap(t.remaining - 1);
      if left == 0 then
        (if t.autoReload then t.(remaining := t.period) else t.(remaining := 0, running := false), true)
      else (t.(remaining := left), false)
    else (t, false)
  }

  /** The timer after n ticks, and how often it has fired in them. */
  function After(t: State, n: nat): (r: (State, nat))
    requires InRange(t)
    ensures InRange(r.0) && r.0.period == t.period && r.0.autoReload == t.autoReload
  {
    if n == 0 then (t, 0) else
      var (before, fired) := After(t, n - 1);
      var (t', fires) := Ticked(before);
      (t', fired + if fires then 1 else 0)
  }

  /** The remaining ticks, where a stored 0 stands for the whole range. */
  function Remaining(t: State): nat {
    if t.remaining == 0 then RANGE else t.remaining
  }

  /** n ticks after its start an auto-reload timer has fired once for every whole period,
      a one-shot once at most, and what is left of the period is between one tick and a
      whole period while it runs. */
  lemma {:induction false} Schedule(t: State, n: nat)
    requires InRange(t)
    ensures var p, (t', fired) := Length(t.period), After(Started(t), n);
      && (t.autoReload ==> fired == n / p && t'.running)
      && (!t.autoReload ==> fired == (if n / p >= 1 then 1 else 0) && (t'.running <==> n < p))
      && (t'.running ==> Remaining(t') == p - n % p && 1 <= Remaining(t') <= p)
      && (!t'.running ==> t'.remaining == 0)
  {
    var p := Length(t.period);
    if n == 0 {
      Small(0, p);
    } else {
      Schedule(t, n - 1);
      OneMore(n - 1, p);
      QuotientOf(n - 1, p);
      QuotientOf(n, p);
    }
  }

  lemma QuotientOf(n: nat, p: nat)
    requires 0 < p
    ensures n / p >= 1 <==> n >= p
    ensures n < p ==> n % p == n
  {}

  /** The tick numbers at which a timer fires: every p-th for an auto-reload timer, only
      the p-th for a one-shot. */
  lemma FiresAt(t: State, n: nat)
    requires InRange(t) && n >= 1
    ensures var p := Length(t.period);
      Ticked(After(Started(t), n - 1).0).1 <==> if t.autoReload then n % p == 0 else n == p
  {
    var p := Length(t.period);
    Schedule(t, n - 1);
    OneMore(n - 1, p);
    QuotientOf(n - 1, p);
    QuotientOf(n, p);
  }

  /** A timer that does not run stays as it is and never fires. */
  lemma {:induction false} StoppedRests(t: State, n: nat)
    requires InRange(t) && !t.running
    ensures After(t, n) == (t, 0)
  {
    if n > 0 { StoppedRests(t, n - 1); }
  }

  /** Setting the period of a running timer restarts its countdown with the new period,
      whatever was left of the old one. */
  lemma SetPeriodRestarts(t: State, k: nat, period: nat, n: nat)
    requires InRange(t) && period < RANGE && After(Started(t), k).0.running
    ensures var now := After(Started(t), k).0;
      After(now.(period := period, remaining := period), n) == After(Started(t.(period := period)), n)
  {}

  class Timer {
    var periodTicks: nat
    var remainingTicks: nat
    const autoReload: bool
    var running: bool

    /** How often the callback has been called. */
    ghost var calls: nat

    ghost predicate Valid()
      reads this
    {
      InRange(Value())
    }

    ghost function Value(): State
      reads this
    {
      State(periodTicks, remainingTicks, autoReload, running)
    }

    constructor (period: nat, reload: bool)
      requires period < RANGE
      ensures Valid() && Value() == State(period, period, reload, false) && calls == 0
    {
      periodTicks, remainingTicks, autoReload := period, period, reload;
      running, calls := false, 0;
    }

    /** start; from here on the schedule holds. */
    method Start()
      requires Valid()
      modifies this`running, this`remainingTicks
      ensures Valid() && Value() == Started(old(Value()))
    {
      running := true;
      remainingTicks := periodTicks;
    }

    method Stop()
      requires Valid()
      modifies this`running
      ensures Valid() && Value() == old(Value()).(running := false)
    {
      running := false;
    }

    method Reset()
      requires Valid()
      modifies this`remainingTicks
      ensures Valid() && Value() == old(Value()).(remaining := old(Value()).period)
    {
      remainingTicks := periodTicks;
    }

    method SetPeriod(period: nat)
      requires Valid() && period < RANGE
      modifies this`periodTicks, this`remainingTicks
      ensures Valid()
      ensures old(running) ==> Value() == old(Value()).(period := period, remaining := period)
      ensures !old(running) ==> Value() == old(Value()).(period := period)
    {
      periodTicks := period;
      if running {
        remainingTicks := period;
      }
    }

    /** The decrement happens only while the timer runs. */
    method Tick()
      requires Valid()
      modifies this`remainingTicks, this`running, this`calls
      ensures Valid() && Value() == Ticked(old(Value())).0
      ensures calls == old(calls) + if Ticked(old(Value())).1 then 1 else 0
      ensures !old(running) ==> Value() == old(Value()) && calls == old(calls)
    {
      if running {
        remainingTicks := Wrap(remainingTicks - 1);
        if remainingTicks == 0 {
          calls := calls + 1;
          if autoReload {
            remainingTicks := periodTicks;
          } else {
            running := false;
          }
        }
      }
    }
  }
}
