/** The wake-up of a mutex.  A release makes the first waiter ready without handing the
    mutex over, so a waiter depends on somebody trying to take the mutex again.  When that
    fails, exactly, in all runs; and that it never fails in orderly ones. */
module MutexWaits {
  import opened Scheduling
  import opened Blocking
  import opened Places
  import opened Systems
  import opened BaseProofs
  import opened OrderlyProofs
  import opened Theorems

  /** Task t is in the acquire loop of mutex m and not among the waiters q. */
  ghost predicate Contends(pcs: seq<Pc>, m: nat, t: nat, q: seq<nat>) {
    t < |pcs| && pcs[t].Acquiring? && pcs[t].m == m && t !in q
  }

  ghost predicate SomebodyContends(pcs: seq<Pc>, m: nat, q: seq<nat>) {
    exists t :: Contends(pcs, m, t, q)
  }

  /** If mutex m is free and has waiters, somebody inside its acquire loop is not one of
      them and will try to take it. */
  ghost predicate NotForgotten(s: Sys, m: nat)
    requires MutexQ(m) in s.queues
  {
    m < |s.mutexes| && s.mutexes[m].count == 0 && s.queues[MutexQ(m)] != [] ==>
      SomebodyContends(s.pcs, m, s.queues[MutexQ(m)])
  }

  /** A release that leaves waiters behind also leaves somebody inside the loop who is not
      among them; the task it wakes will do, unless it is queued a second time. */
  ghost predicate PassedOn(s: Sys, l: Label, m: nat) {
    Releases(s, l, m) && MutexQ(m) in s.queues && |s.queues[MutexQ(m)]| > 1 ==>
      SomebodyContends(s.pcs, m, s.queues[MutexQ(m)][1..])
  }

  /** What a step leaves of a free mutex with waiters. */
  ghost predicate LoopMoves(s: Sys, l: Label, s': Sys, m: nat) {
    && MutexQ(m) in s.queues && MutexQ(m) in s'.queues && |s.mutexes| == |s'.mutexes| && |s.pcs| <= |s'.pcs|
    && m < |s.mutexes|
    && if Releases(s, l, m) then
         && s'.mutexes[m].count == 0 && s'.pcs == s.pcs
         && s'.queues[MutexQ(m)] == if s.queues[MutexQ(m)] == [] then [] else s.queues[MutexQ(m)][1..]
       else s'.mutexes[m].count == 0 ==>
         && s.mutexes[m].count == 0 && s'.queues[MutexQ(m)] == s.queues[MutexQ(m)]
         && forall t | 0 <= t < |s.pcs| && s.pcs[t].Acquiring? && s.pcs[t].m == m :: s'.pcs[t] == s.pcs[t]
  }

  lemma PassMoves(s: Sys, m: nat)
    requires Base(s) && Enabled(s, AcquirePass) && m < |s.mutexes|
    ensures LoopMoves(s, AcquirePass, After(s, AcquirePass), m)
  {
    var n := s.pcs[s.k.current].m;
    assert GoodCore(s.k, s.mutexes[n]) && GoodCore(s.k, s.mutexes[m]);
  }

  lemma ReleaseMoves(s: Sys, n: nat, m: nat)
    requires Base(s) && Enabled(s, ReleaseMutex(n)) && m < |s.mutexes|
    ensures LoopMoves(s, ReleaseMutex(n), After(s, ReleaseMutex(n)), m)
  {
    assert GoodCore(s.k, s.mutexes[n]) && GoodCore(s.k, s.mutexes[m]);
  }

  lemma SignalMoves(s: Sys, l: Label, m: nat)
    requires Base(s) && Enabled(s, l) && m < |s.mutexes| && (l.SignalSem? || l.FlushSem?)
    ensures LoopMoves(s, l, After(s, l), m)
  {
    if l.FlushSem? { WakeEachIs(s.k, s.queues[SemQ(l.x)], 0); }
  }

  lemma WaitMoves(s: Sys, l: Label, m: nat)
    requires Base(s) && Enabled(s, l) && m < |s.mutexes|
    requires l.WaitSem? || l.WaitEvents? || l.RecheckEvents? || l.RaiseEvents? || l.ReadySelf? || l.StartAcquire?
    ensures LoopMoves(s, l, After(s, l), m)
  {}

  lemma OtherMoves(s: Sys, l: Label, m: nat)
    requires Base(s) && Enabled(s, l) && m < |s.mutexes|
    requires l.Register? || l.SelectTask? || l.SysTick? || l.Sleep? || l.LowerEvents?
    ensures LoopMoves(s, l, After(s, l), m)
  {}

  lemma StepMoves(s: Sys, l: Label, m: nat)
    requires Base(s) && Enabled(s, l) && m < |s.mutexes|
    ensures LoopMoves(s, l, After(s, l), m)
  {
    match l
    case AcquirePass => PassMoves(s, m);
    case ReleaseMutex(n) => ReleaseMoves(s, n, m);
    case SignalSem(_, _) => SignalMoves(s, l, m);
    case FlushSem(_, _) => SignalMoves(s, l, m);
    case Register(_) => OtherMoves(s, l, m);
    case SelectTask => OtherMoves(s, l, m);
    case SysTick => OtherMoves(s, l, m);
    case Sleep(_) => OtherMoves(s, l, m);
    case LowerEvents(_, _) => OtherMoves(s, l, m);
    case _ => WaitMoves(s, l, m);
  }

  /** Only a release can leave waiters behind with nobody to try, and it does so if and
      only if it does not pass the mutex on. */
  lemma PassedOnStep(s: Sys, l: Label, s': Sys, m: nat)
    requires LoopMoves(s, l, s', m) && NotForgotten(s, m)
    ensures NotForgotten(s', m) <==> PassedOn(s, l, m)
  {
    var q := s.queues[MutexQ(m)];
    if !Releases(s, l, m) && s'.mutexes[m].count == 0 && q != [] {
      var t :| Contends(s.pcs, m, t, q);
      assert Contends(s'.pcs, m, t, q);
    }
  }

  lemma StepInRun(ss: seq<Sys>, ls: seq<Label>, i: nat, m: nat)
    requires Run(ss, ls) && i < |ls| && m < |ss[0].mutexes|
    ensures LoopMoves(ss[i], ls[i], ss[i + 1], m)
  {
    HasQueue(ss, ls, i, m);
    BaseInRun(ss, ls, i);
    assert Step(ss[i], ls[i], ss[i + 1]);
    StepMoves(ss[i], ls[i], m);
  }

  lemma {:induction false} MutexesFixed(ss: seq<Sys>, ls: seq<Label>, i: nat)
    requires Run(ss, ls) && i < |ss|
    ensures |ss[i].mutexes| == |ss[0].mutexes|
  {
    if i > 0 {
      var h := i - 1;
      MutexesFixed(ss, ls, h);
      BaseInRun(ss, ls, h);
      SameCount(ss[h], ls[h], ss[h + 1]);
    }
  }

  lemma SameCount(s: Sys, l: Label, s': Sys)
    requires Base(s) && Step(s, l, s')
    ensures |s'.mutexes| == |s.mutexes|
  {}

  lemma HasQueue(ss: seq<Sys>, ls: seq<Label>, i: nat, m: nat)
    requires Run(ss, ls) && i < |ss| && m < |ss[0].mutexes|
    ensures m < |ss[i].mutexes| && MutexQ(m) in ss[i].queues
  {
    MutexesFixed(ss, ls, i);
    BaseInRun(ss, ls, i);
  }

  /** The property of mutex m in the first n states of a run. */
  ghost predicate NeverForgotten(ss: seq<Sys>, m: nat, n: nat) {
    forall i | 0 <= i <= n && i < |ss| && MutexQ(m) in ss[i].queues :: NotForgotten(ss[i], m)
  }

  ghost predicate AlwaysPassedOn(ss: seq<Sys>, ls: seq<Label>, m: nat, n: nat) {
    forall i | 0 <= i < n && i < |ss| && i < |ls| :: PassedOn(ss[i], ls[i], m)
  }

  lemma {:induction false} PassedOnUpTo(ss: seq<Sys>, ls: seq<Label>, m: nat, n: nat)
    requires Run(ss, ls) && n <= |ls| && m < |ss[0].mutexes| && AlwaysPassedOn(ss, ls, m, n)
    ensures MutexQ(m) in ss[n].queues && NotForgotten(ss[n], m)
  {
    HasQueue(ss, ls, n, m);
    if n > 0 {
      PassedOnUpTo(ss, ls, m, n - 1);
      StepInRun(ss, ls, n - 1, m);
      PassedOnStep(ss[n - 1], ls[n - 1], ss[n - 1 + 1], m);
    }
  }

  /** In all runs: whenever mutex m is free and has waiters, some task that is not one of
      them is inside its acquire loop, in every state, if and only if every release by its
      owner that leaves waiters behind leaves such a task too. */
  lemma NoLostWakeupExactly(ss: seq<Sys>, ls: seq<Label>, m: nat, n: nat)
    requires Run(ss, ls) && n <= |ls| && m < |ss[0].mutexes|
    ensures NeverForgotten(ss, m, n) <==> AlwaysPassedOn(ss, ls, m, n)
  {
    if AlwaysPassedOn(ss, ls, m, n) {
      forall i | 0 <= i <= n
        ensures MutexQ(m) in ss[i].queues && NotForgotten(ss[i], m)
      {
        PassedOnUpTo(ss, ls, m, i);
      }
    }
    if NeverForgotten(ss, m, n) {
      forall i | 0 <= i < n
        ensures PassedOn(ss[i], ls[i], m)
      {
        StepInRun(ss, ls, i, m);
        assert NotForgotten(ss[i], m) && NotForgotten(ss[i + 1], m);
        PassedOnStep(ss[i], ls[i], ss[i + 1], m);
      }
    }
  }

  // ------------------------------------------------------------------- orderly runs

  /** In a sound state the first waiter is inside the loop and queued only once. */
  lemma SoundPassesOn(s: Sys, l: Label, m: nat)
    requires Sound(s) && Typed(s)
    ensures PassedOn(s, l, m)
  {
    if Releases(s, l, m) && MutexQ(m) in s.queues && |s.queues[MutexQ(m)]| > 1 {
      var q := s.queues[MutexQ(m)];
      QueueFacts(s, MutexQ(m));
      assert Queued(s.queues, MutexQ(m), 0, q[0]);
      assert PcFits(Seen(s).k, s.pcs, MutexQ(m), q[0]);
      assert Contends(s.pcs, m, q[0], q[1..]);
    }
  }

  lemma ContenderRuns(s: Sys, m: nat, t: nat)
    requires Sound(s) && Typed(s) && MutexQ(m) in s.queues && Contends(s.pcs, m, t, s.queues[MutexQ(m)])
    ensures Runnable(s.k, t)
  {
    var k := Seen(s).k;
    assert k.tasks[t] == s.k.tasks[t];
    forall r: QRef, p: nat
      ensures !Queued(s.queues, r, p, t)
    {
      assert Queued(s.queues, r, p, t) ==> r in s.queues && t in s.queues[r];
      assert Queued(s.queues, r, p, t) ==> PcFits(k, s.pcs, r, t);
    }
    assert !InSomeQueue(s.queues, t);
    if k.tasks[t].state.Ready? {
      var l: nat :| ReadyAt(k, t, l);
      assert ReadyAt(s.k, t, l);
    }
  }

  /** In an orderly run a free mutex with waiters always has a task that is ready or
      running and inside its acquire loop: the wake-up of a release is never lost. */
  lemma NoLostWakeupInRun(ss: seq<Sys>, ls: seq<Label>, i: nat, m: nat) returns (t: nat)
    requires Run(ss, ls) && i < |ss| && OrderlyUpTo(ss, ls, i) && m < |ss[0].mutexes|
    requires m < |ss[i].mutexes| && ss[i].mutexes[m].count == 0
    requires MutexQ(m) in ss[i].queues && ss[i].queues[MutexQ(m)] != []
    ensures Contends(ss[i].pcs, m, t, ss[i].queues[MutexQ(m)]) && Runnable(ss[i].k, t)
  {
    forall j | 0 <= j < i
      ensures PassedOn(ss[j], ls[j], m)
    {
      SoundInRun(ss, ls, j);
      SoundPassesOn(ss[j], ls[j], m);
    }
    PassedOnUpTo(ss, ls, m, i);
    SoundInRun(ss, ls, i);
    t :| Contends(ss[i].pcs, m, t, ss[i].queues[MutexQ(m)]);
    ContenderRuns(ss[i], m, t);
  }
}
