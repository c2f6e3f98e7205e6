/** Sleeping tasks.  In all runs, what exactly ends a sleep before its time, and when a
    sleep of n ticks ends; in orderly runs nothing but the tick that reaches its time. */
module Sleepers {
  import opened Words
  import opened Scheduling
  import opened SchedulingProofs
  import opened Blocking
  import opened Places
  import opened Systems
  import opened BaseProofs
  import opened OrderlyProofs
  import opened Theorems

  /** Task t sleeps until the given time. */
  ghost predicate Asleep(k: KState, t: nat, time: nat) {
    t < |k.tasks| && t < |k.wake| && k.tasks[t].state.Sleeping? && t in k.sleeping && k.wake[t] == time
  }

  ghost predicate IsFirst(q: seq<nat>, t: nat) {
    q != [] && q[0] == t
  }

  /** Step l, other than a tick, ends the sleep of task t or changes its time: task t takes
      the step itself and blocks, readies itself or goes to sleep until another time; or it
      is woken out of a wait queue; or it is selected, by a ready bit. */
  ghost predicate Disturbs(s: Sys, l: Label, t: nat)
    requires Typed(s) && Enabled(s, l)
  {
    match l
    case SelectTask => exists m: nat :: IsBest(s.k, m, t)
    case Sleep(n) => t == s.k.current && s.k.wake[t] != s.k.ticks + n
    case WaitSem(x, timeout, start) => t == s.k.current && WaitResult(s, x, timeout, start).Joined?
    case WaitEvents(g, mask, timeout) => t == s.k.current && EventsResult(s, g, mask, timeout).Again?
    case ReadySelf => t == s.k.current && s.pcs[t].Signalled?
    case ReleaseMutex(m) => Releases(s, l, m) && IsFirst(s.queues[MutexQ(m)], t)
    case SignalSem(x, _) => IsFirst(s.queues[SemQ(x)], t)
    case FlushSem(x, _) => t in s.queues[SemQ(x)]
    case RaiseEvents(g, bits) => t in Matching(s.k, Or(s.groups[g], bits), s.queues[GroupQ(g)])
    case _ => false
  }

  /** What a step does to a task that sleeps until the given time. */
  ghost predicate SleepMoves(s: Sys, l: Label, s': Sys, t: nat, time: nat)
    requires Typed(s) && Enabled(s, l)
  {
    && s'.k.ticks == (if l.SysTick? then s.k.ticks + 1 else s.k.ticks)
    && (Asleep(s.k, t, time) ==>
          if l.SysTick? && time <= s.k.ticks + 1 then t < |s'.k.tasks| && s'.k.tasks[t].state.Ready?
          else Asleep(s'.k, t, time) <==> !Disturbs(s, l, t))
  }

  // -------------------------------------------------------------------- step by step

  lemma SelectSleep(s: Sys, t: nat, time: nat)
    requires Base(s)
    ensures SleepMoves(s, SelectTask, After(s, SelectTask), t, time)
  {
    if AnyReady(s.k) {
      var l, i := SelectPicks(s.k);
      assert IsBest(s.k, l, i);
      if exists m: nat :: IsBest(s.k, m, t) {
        var m: nat :| IsBest(s.k, m, t);
        BestUnique(s.k, l, i, m, t);
      }
    } else {
      SelectStalls(s.k);
      forall m: nat
        ensures !IsBest(s.k, m, t)
      {
        assert IsBest(s.k, m, t) ==> ReadyAt(s.k, t, m);
      }
    }
  }

  lemma TickSleep(s: Sys, t: nat, time: nat)
    requires Base(s)
    ensures SleepMoves(s, SysTick, After(s, SysTick), t, time)
  {}

  lemma FirstSleep(s: Sys, l: Label, t: nat, time: nat)
    requires Base(s) && Enabled(s, l) && (l.ReleaseMutex? || l.SignalSem?)
    ensures SleepMoves(s, l, After(s, l), t, time)
  {}

  lemma FlushSleep(s: Sys, x: nat, isr: bool, t: nat, time: nat)
    requires Base(s) && Enabled(s, FlushSem(x, isr))
    ensures SleepMoves(s, FlushSem(x, isr), After(s, FlushSem(x, isr)), t, time)
  {
    var q := s.queues[SemQ(x)];
    WakeEachIs(s.k, q, if t < |s.k.tasks| then t else 0);
    WakeEachSleeping(s.k, q);
  }

  lemma {:induction false} WakeEachSleeping(k: KState, q: seq<nat>)
    requires Shape(k) && Registered(k, q)
    ensures WakeEach(k, q).sleeping == k.sleeping
  {
    if q != [] { WakeEachSleeping(k, q[..|q| - 1]); }
  }

  lemma {:induction false} WakeEachEventSleeping(k: KState, q: seq<nat>)
    requires Shape(k) && Registered(k, q)
    ensures WakeEachEvent(k, q).sleeping == k.sleeping
  {
    if q != [] { WakeEachEventSleeping(k, q[..|q| - 1]); }
  }

  lemma RaiseSleep(s: Sys, g: nat, bits: nat, t: nat, time: nat)
    requires Base(s) && Enabled(s, RaiseEvents(g, bits))
    ensures SleepMoves(s, RaiseEvents(g, bits), After(s, RaiseEvents(g, bits)), t, time)
  {
    var m := Matching(s.k, Or(s.groups[g], bits), s.queues[GroupQ(g)]);
    WakeEachEventIs(s.k, m, if t < |s.k.tasks| then t else 0);
    WakeEachEventSleeping(s.k, m);
  }

  lemma OwnSleep(s: Sys, l: Label, t: nat, time: nat)
    requires Base(s) && Enabled(s, l) && (l.Sleep? || l.ReadySelf?)
    ensures SleepMoves(s, l, After(s, l), t, time)
  {}

  lemma WaitSleep(s: Sys, l: Label, t: nat, time: nat)
    requires Base(s) && Enabled(s, l) && (l.WaitSem? || l.WaitEvents?)
    ensures SleepMoves(s, l, After(s, l), t, time)
  {}

  lemma OtherSleep(s: Sys, l: Label, t: nat, time: nat)
    requires Base(s) && Enabled(s, l)
    requires l.Register? || l.StartAcquire? || l.RecheckEvents? || l.LowerEvents?
    ensures SleepMoves(s, l, After(s, l), t, time)
  {}

  lemma PassSleep(s: Sys, t: nat, time: nat)
    requires Base(s) && Enabled(s, AcquirePass)
    ensures SleepMoves(s, AcquirePass, After(s, AcquirePass), t, time)
  {}

  lemma SleepStep(s: Sys, l: Label, t: nat, time: nat)
    requires Base(s) && Enabled(s, l)
    ensures SleepMoves(s, l, After(s, l), t, time)
  {
    match l
    case SelectTask => SelectSleep(s, t, time);
    case SysTick => TickSleep(s, t, time);
    case ReleaseMutex(_) => FirstSleep(s, l, t, time);
    case SignalSem(_, _) => FirstSleep(s, l, t, time);
    case FlushSem(x, isr) => FlushSleep(s, x, isr, t, time);
    case RaiseEvents(g, bits) => RaiseSleep(s, g, bits, t, time);
    case AcquirePass => PassSleep(s, t, time);
    case Sleep(_) => OwnSleep(s, l, t, time);
    case WaitSem(_, _, _) => WaitSleep(s, l, t, time);
    case WaitEvents(_, _, _) => WaitSleep(s, l, t, time);
    case ReadySelf => OwnSleep(s, l, t, time);
    case _ => OtherSleep(s, l, t, time);
  }

  /** In every run, orderly or not: a task that sleeps until a time sleeps on until then,
      except in the tick that reaches it, which makes the task ready, and in the steps
      that disturb it. */
  lemma SleepStepInRun(ss: seq<Sys>, ls: seq<Label>, h: nat, t: nat, time: nat)
    requires Run(ss, ls) && h < |ls|
    ensures Typed(ss[h]) && Enabled(ss[h], ls[h]) && SleepMoves(ss[h], ls[h], ss[h + 1], t, time)
  {
    BaseInRun(ss, ls, h);
    assert Step(ss[h], ls[h], ss[h + 1]);
    SleepStep(ss[h], ls[h], t, time);
  }

  // ------------------------------------------------------------------ in whole runs

  /** After a tick no sleeping task has a wake-up time that has come. */
  lemma TickLeavesNoneDue(k: KState)
    requires Shape(k)
    ensures forall t | t in PortTick(k).sleeping :: PortTick(k).wake[t] > PortTick(k).ticks
  {}

  /** The tick at which a sleep of n ticks entered at tick count now ends. */
  function WakeTick(now: nat, n: nat): nat {
    if n == 0 then now + 1 else now + n
  }

  lemma SleepStarts(ss: seq<Sys>, ls: seq<Label>, i: nat, n: nat)
    requires Run(ss, ls) && i < |ls| && ls[i] == Sleep(n)
    ensures ss[i + 1].k.ticks == ss[i].k.ticks && Asleep(ss[i + 1].k, ss[i].k.current, ss[i].k.ticks + n)
  {
    assert Step(ss[i], ls[i], ss[i + 1]);
  }

  /** Step h, before tick w is reached, does not disturb the sleep of task t. */
  ghost predicate LeavesAlone(ss: seq<Sys>, ls: seq<Label>, h: nat, t: nat, w: nat) {
    h < |ls| && h + 1 < |ss| && ss[h + 1].k.ticks < w ==>
      Typed(ss[h]) && Enabled(ss[h], ls[h]) && !Disturbs(ss[h], ls[h], t)
  }

  /** No step after i and before state j does. */
  ghost predicate LeftAlone(ss: seq<Sys>, ls: seq<Label>, i: nat, j: nat, t: nat, w: nat) {
    forall h | i < h < j :: LeavesAlone(ss, ls, h, t, w)
  }

  /** The task sleeps until the given time, or tick w has been reached. */
  ghost predicate SleepsOn(s: Sys, t: nat, time: nat, w: nat) {
    s.k.ticks < w ==> Asleep(s.k, t, time)
  }

  /** One step of a sleep of n ticks entered at tick count now. */
  lemma SleepGoesOn(s: Sys, l: Label, s': Sys, t: nat, now: nat, n: nat)
    requires Typed(s) && Enabled(s, l) && SleepMoves(s, l, s', t, now + n) && now <= s.k.ticks
    requires SleepsOn(s, t, now + n, WakeTick(now, n))
    ensures s.k.ticks <= s'.k.ticks
    ensures s'.k.ticks < WakeTick(now, n) ==> (Asleep(s'.k, t, now + n) <==> !Disturbs(s, l, t))
    ensures l.SysTick? && s'.k.ticks == WakeTick(now, n) ==> t < |s'.k.tasks| && s'.k.tasks[t].state.Ready?
  {}

  lemma SleepGoesOnInRun(ss: seq<Sys>, ls: seq<Label>, h: nat, t: nat, now: nat, n: nat)
    requires Run(ss, ls) && h < |ls| && now <= ss[h].k.ticks && SleepsOn(ss[h], t, now + n, WakeTick(now, n))
    ensures ss[h].k.ticks <= ss[h + 1].k.ticks
    ensures SleepsOn(ss[h + 1], t, now + n, WakeTick(now, n)) <==> LeavesAlone(ss, ls, h, t, WakeTick(now, n))
    ensures ls[h].SysTick? && ss[h + 1].k.ticks == WakeTick(now, n) ==>
      t < |ss[h + 1].k.tasks| && ss[h + 1].k.tasks[t].state.Ready?
  {
    SleepStepInRun(ss, ls, h, t, now + n);
    SleepGoesOn(ss[h], ls[h], ss[h + 1], t, now, n);
  }

  lemma {:induction false} SleepsWhileLeftAlone(ss: seq<Sys>, ls: seq<Label>, i: nat, n: nat, j: nat)
    requires Run(ss, ls) && i < j < |ss| && ls[i] == Sleep(n)
    requires LeftAlone(ss, ls, i, j, ss[i].k.current, WakeTick(ss[i].k.ticks, n))
    ensures ss[i].k.ticks <= ss[j].k.ticks
    ensures SleepsOn(ss[j], ss[i].k.current, ss[i].k.ticks + n, WakeTick(ss[i].k.ticks, n))
    decreases j
  {
    if j == i + 1 {
      SleepStarts(ss, ls, i, n);
    } else {
      var h := j - 1;
      SleepsWhileLeftAlone(ss, ls, i, n, h);
      assert LeavesAlone(ss, ls, h, ss[i].k.current, WakeTick(ss[i].k.ticks, n));
      SleepGoesOnInRun(ss, ls, h, ss[i].k.current, ss[i].k.ticks, n);
    }
  }

  ghost predicate TickGrows(ss: seq<Sys>, h: nat) {
    h + 1 < |ss| ==> ss[h].k.ticks <= ss[h + 1].k.ticks
  }

  lemma {:induction false} TicksOnlyGrow(ss: seq<Sys>, i: nat, j: nat)
    requires i <= j < |ss| && forall h: nat :: TickGrows(ss, h)
    ensures ss[i].k.ticks <= ss[j].k.ticks
    decreases j
  {
    if i < j {
      TicksOnlyGrow(ss, i, j - 1);
      assert TickGrows(ss, j - 1);
    }
  }

  lemma TicksInRun(ss: seq<Sys>, ls: seq<Label>, i: nat, j: nat)
    requires Run(ss, ls) && i <= j < |ss|
    ensures ss[i].k.ticks <= ss[j].k.ticks
  {
    forall h: nat
      ensures TickGrows(ss, h)
    {
      if h + 1 < |ss| { SleepStepInRun(ss, ls, h, 0, 0); }
    }
    TicksOnlyGrow(ss, i, j);
  }

  /** The tick that reaches WakeTick makes a task ready whose sleep was left alone. */
  lemma ReadyAtWakeTick(ss: seq<Sys>, ls: seq<Label>, i: nat, n: nat, j: nat)
    requires Run(ss, ls) && i < j < |ls| && ls[i] == Sleep(n)
    requires LeftAlone(ss, ls, i, j, ss[i].k.current, WakeTick(ss[i].k.ticks, n))
    requires ls[j].SysTick? && ss[j + 1].k.ticks == WakeTick(ss[i].k.ticks, n)
    ensures ss[i].k.current < |ss[j + 1].k.tasks| && ss[j + 1].k.tasks[ss[i].k.current].state.Ready?
  {
    SleepsWhileLeftAlone(ss, ls, i, n, j);
    SleepGoesOnInRun(ss, ls, j, ss[i].k.current, ss[i].k.ticks, n);
  }

  /** In all runs: a task that sleeps n ticks at step i sleeps, until that time, in all
      states up to j before the tick WakeTick is reached, if and only if no step before
      that disturbs its sleep; and then the tick that reaches it makes the task ready. */
  lemma SleepsExactly(ss: seq<Sys>, ls: seq<Label>, i: nat, n: nat, j: nat)
    requires Run(ss, ls) && i < j < |ss| && ls[i] == Sleep(n)
    ensures var t, now, w := ss[i].k.current, ss[i].k.ticks, WakeTick(ss[i].k.ticks, n);
      && (LeftAlone(ss, ls, i, j, t, w) <==> forall h | i < h <= j :: SleepsOn(ss[h], t, now + n, w))
      && (LeftAlone(ss, ls, i, j, t, w) && j < |ls| && ls[j].SysTick? && ss[j + 1].k.ticks == w ==>
            t < |ss[j + 1].k.tasks| && ss[j + 1].k.tasks[t].state.Ready?)
  {
    var t, now, w := ss[i].k.current, ss[i].k.ticks, WakeTick(ss[i].k.ticks, n);
    if LeftAlone(ss, ls, i, j, t, w) {
      forall h | i < h <= j
        ensures SleepsOn(ss[h], t, now + n, w)
      {
        SleepsWhileLeftAlone(ss, ls, i, n, h);
      }
      if j < |ls| && ls[j].SysTick? && ss[j + 1].k.ticks == w { ReadyAtWakeTick(ss, ls, i, n, j); }
    }
    if forall h | i < h <= j :: SleepsOn(ss[h], t, now + n, w) {
      forall h | i < h < j
        ensures LeavesAlone(ss, ls, h, t, w)
      {
        TicksInRun(ss, ls, i, h);
        assert SleepsOn(ss[h], t, now + n, w) && SleepsOn(ss[h + 1], t, now + n, w);
        SleepGoesOnInRun(ss, ls, h, t, now, n);
      }
    }
  }

  // ------------------------------------------------------------------- orderly runs

  /** In a sound state a sleeping task is in no queue, has no ready bit and executes
      nothing, so no step disturbs it. */
  lemma SoundLeavesAlone(s: Sys, l: Label, t: nat, time: nat)
    requires Sound(s) && Typed(s) && Enabled(s, l) && Asleep(s.k, t, time)
    ensures !Disturbs(s, l, t)
  {
    match l
    case SelectTask =>
      forall m: nat
        ensures !IsBest(s.k, m, t)
      {
        assert IsBest(s.k, m, t) ==> ReadyAt(s.k, t, m) && ReadyAt(Seen(s).k, t, m);
      }
    case ReleaseMutex(m) => SleeperNotQueued(s, MutexQ(m), t);
    case SignalSem(x, _) => SleeperNotQueued(s, SemQ(x), t);
    case FlushSem(x, _) => SleeperNotQueued(s, SemQ(x), t);
    case RaiseEvents(g, bits) =>
      SleeperNotQueued(s, GroupQ(g), t);
      MatchingOrDisjoint(s.k, Or(s.groups[g], bits), s.queues[GroupQ(g)], t);
    case ReadySelf =>
    case _ => if l.Sleep? || l.WaitSem? || l.WaitEvents? { WorkingRuns(s); }
  }

  lemma SleeperNotQueued(s: Sys, r: QRef, t: nat)
    requires Sound(s) && r in s.queues && t < |s.k.tasks| && s.k.tasks[t].state.Sleeping?
    ensures t !in s.queues[r]
  {
    forall p | 0 <= p < |s.queues[r]|
      ensures s.queues[r][p] != t
    {
      assert Queued(s.queues, r, p, s.queues[r][p]);
    }
  }

  /** In an orderly run nothing ends a sleep but the tick that reaches its time. */
  lemma SleepKeptInRun(ss: seq<Sys>, ls: seq<Label>, h: nat, t: nat, time: nat)
    requires Run(ss, ls) && h < |ls| && OrderlyUpTo(ss, ls, h) && Asleep(ss[h].k, t, time)
    ensures if ls[h].SysTick? && time <= ss[h].k.ticks + 1
            then t < |ss[h + 1].k.tasks| && ss[h + 1].k.tasks[t].state.Ready?
            else Asleep(ss[h + 1].k, t, time)
  {
    SoundInRun(ss, ls, h);
    SleepStepInRun(ss, ls, h, t, time);
    SoundLeavesAlone(ss[h], ls[h], t, time);
  }

  lemma AloneLonger(ss: seq<Sys>, ls: seq<Label>, i: nat, h: nat, j: nat, t: nat, w: nat)
    requires LeftAlone(ss, ls, i, h, t, w) && LeavesAlone(ss, ls, h, t, w) && j == h + 1
    ensures LeftAlone(ss, ls, i, j, t, w)
  {}

  lemma {:induction false} OrderlyLeavesAlone(ss: seq<Sys>, ls: seq<Label>, i: nat, n: nat, j: nat)
    requires Run(ss, ls) && i < j < |ss| && ls[i] == Sleep(n) && OrderlyUpTo(ss, ls, j)
    ensures LeftAlone(ss, ls, i, j, ss[i].k.current, WakeTick(ss[i].k.ticks, n))
    decreases j
  {
    if j > i + 1 {
      var h := j - 1;
      OrderlyLeavesAlone(ss, ls, i, n, h);
      LeavesSleeperAlone(ss, ls, i, n, h);
      AloneLonger(ss, ls, i, h, j, ss[i].k.current, WakeTick(ss[i].k.ticks, n));
    }
  }

  lemma LeavesSleeperAlone(ss: seq<Sys>, ls: seq<Label>, i: nat, n: nat, h: nat)
    requires Run(ss, ls) && i < h < |ls| && ls[i] == Sleep(n) && OrderlyUpTo(ss, ls, h)
    requires LeftAlone(ss, ls, i, h, ss[i].k.current, WakeTick(ss[i].k.ticks, n))
    ensures LeavesAlone(ss, ls, h, ss[i].k.current, WakeTick(ss[i].k.ticks, n))
  {
    SleepsWhileLeftAlone(ss, ls, i, n, h);
    SleepStepInRun(ss, ls, h, ss[i].k.current, ss[i].k.ticks + n);
    SoundInRun(ss, ls, h);
    if ss[h + 1].k.ticks < WakeTick(ss[i].k.ticks, n) {
      SoundLeavesAlone(ss[h], ls[h], ss[i].k.current, ss[i].k.ticks + n);
    }
  }

  /** In an orderly run the task that sleeps n ticks at step i sleeps in every later state
      with a smaller tick count than WakeTick, and the tick that reaches it makes it ready. */
  lemma ExactSleep(ss: seq<Sys>, ls: seq<Label>, i: nat, n: nat, j: nat)
    requires Run(ss, ls) && i < j < |ss| && ls[i] == Sleep(n) && OrderlyUpTo(ss, ls, j)
    ensures var t, now, w := ss[i].k.current, ss[i].k.ticks, WakeTick(ss[i].k.ticks, n);
      && now <= ss[j].k.ticks && (ss[j].k.ticks < w ==> Asleep(ss[j].k, t, now + n))
      && (j < |ls| && ls[j].SysTick? && ss[j + 1].k.ticks == w ==>
            t < |ss[j + 1].k.tasks| && ss[j + 1].k.tasks[t].state.Ready?)
  {
    OrderlyLeavesAlone(ss, ls, i, n, j);
    SleepsWhileLeftAlone(ss, ls, i, n, j);
    if j < |ls| && ls[j].SysTick? && ss[j + 1].k.ticks == WakeTick(ss[i].k.ticks, n) {
      ReadyAtWakeTick(ss, ls, i, n, j);
    }
  }
}
