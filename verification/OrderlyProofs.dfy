/** Every orderly step keeps what makes a state sound, so every state of an orderly run
    is sound. */
module OrderlyProofs {
  import opened Tasks
  import opened Words
  import opened Scheduling
  import opened SchedulingProofs
  import opened Blocking
  import opened Places
  import opened Systems
  import opened BaseProofs
  import opened SystemProofs

  lemma InitSound(s: Sys)
    requires Init(s)
    ensures Sound(s)
  {
    InitInv(s);
  }

  lemma InvPending(s: Sys, b: bool)
    requires SysInv(s)
    ensures SysInv(s.(pending := b))
  {}

  // ------------------------------------------- steps of a running task outside its windows

  /** A step of the running task that leaves it running or has requested a switch. */
  lemma TaskStepSound(s: Sys, s': Sys)
    requires Sound(s) && AtWorkOrLoop(s) && SysInv(s') && s'.k.current == s.k.current
    requires s'.k.tasks[s.k.current].priority <= s.k.tasks[s.k.current].priority
    requires !s'.k.tasks[s.k.current].state.Ready?
    requires s'.k.tasks[s.k.current].state.Running? || s'.pending
    requires |s'.pcs| >= |s.pcs| && !s'.pcs[s.k.current].StateWritten? && !s'.pcs[s.k.current].WordLoaded?
    requires forall t | 0 <= t < |s'.pcs| && t != s.k.current ::
               if t < |s.pcs| then s'.pcs[t] == s.pcs[t] else s'.pcs[t].App?
    ensures Sound(s')
  {
    forall l: nat
      ensures !ReadyAt(s'.k, s.k.current, l)
    {}
  }

  ghost predicate AtWorkOrLoop(s: Sys) {
    Executes(s) && !SelfReadying(s.pcs[s.k.current])
  }

  /** So the task is running, and the state is seen as it is. */
  lemma WorkingRuns(s: Sys)
    requires Sound(s) && AtWorkOrLoop(s)
    ensures InTask(s) && !Midway(s) && Seen(s) == s && SysInv(s)
  {}

  lemma SleepSound(s: Sys, n: nat)
    requires Sound(s) && InApp(s)
    ensures Sound(After(s, Sleep(n)))
  {
    WorkingRuns(s);
    SleepStep(s, n);
    InvPending(Effect(s, Sleep(n)), true);
    TaskStepSound(s, After(s, Sleep(n)));
  }

  lemma StartAcquireSound(s: Sys, m: nat, timeout: nat)
    requires Sound(s) && Enabled(s, StartAcquire(m, timeout))
    ensures Sound(After(s, StartAcquire(m, timeout)))
  {
    WorkingRuns(s);
    StartAcquireStep(s, m, timeout);
    InvPending(Effect(s, StartAcquire(m, timeout)), s.pending);
    TaskStepSound(s, After(s, StartAcquire(m, timeout)));
  }

  lemma AcquirePassSound(s: Sys)
    requires Sound(s) && Enabled(s, AcquirePass)
    ensures Sound(After(s, AcquirePass))
  {
    WorkingRuns(s);
    AcquirePassStep(s);
    InvPending(Effect(s, AcquirePass), Pends(s, AcquirePass));
    AcquirePassRunner(s);
    TaskStepSound(s, After(s, AcquirePass));
  }

  /** A pass leaves the caller running unless it has to wait, and then blocks it. */
  lemma AcquirePassRunner(s: Sys)
    requires SysInv(s) && InTask(s) && s.pcs[s.k.current].Acquiring?
    ensures var s', c := AfterAcquirePass(s), s.k.current;
      && s'.k.current == c && s'.k.tasks[c].priority == s.k.tasks[c].priority
      && (if PassResult(s).MustWait? then s'.k.tasks[c].state.Blocked? && s'.pcs == s.pcs
          else s'.k.tasks[c].state.Running? && s'.pcs == s.pcs[c := App])
      && s'.k.ready == s.k.ready
  {
    var pc := s.pcs[s.k.current];
    RoomToBlock(s.k, s.queues, MutexQ(pc.m));
  }

  lemma ReleaseSound(s: Sys, m: nat)
    requires Sound(s) && Enabled(s, ReleaseMutex(m))
    ensures Sound(After(s, ReleaseMutex(m)))
  {
    WorkingRuns(s);
    ReleaseStep(s, m);
    RunnerNotQueued(s, MutexQ(m));
    InvPending(Effect(s, ReleaseMutex(m)), Pends(s, ReleaseMutex(m)));
    TaskStepSound(s, After(s, ReleaseMutex(m)));
  }

  lemma RunnerNotQueued(s: Sys, r: QRef)
    requires SysInv(s) && InTask(s) && r in s.queues
    ensures s.k.current !in s.queues[r]
  {
    RoomToBlock(s.k, s.queues, r);
  }

  lemma WaitSemSound(s: Sys, x: nat, timeout: nat, start: nat)
    requires Sound(s) && Enabled(s, WaitSem(x, timeout, start))
    ensures Sound(After(s, WaitSem(x, timeout, start)))
  {
    var l := WaitSem(x, timeout, start);
    WorkingRuns(s);
    WaitSemStep(s, x, timeout, start);
    InvPending(Effect(s, l), Pends(s, l));
    TaskStepSound(s, After(s, l));
  }

  /** A wait for events leaves the caller running or blocks it. */
  lemma WaitEventsRunner(s: Sys, g: nat, mask: nat, timeout: nat)
    requires Typed(s) && InTask(s) && s.pcs[s.k.current].App? && g < |s.groups|
    ensures var s', c := AfterWaitEvents(s, g, mask, timeout), s.k.current;
      && s'.k.current == c && s'.k.tasks[c].priority == s.k.tasks[c].priority && |s'.pcs| == |s.pcs|
      && (if EventsResult(s, g, mask, timeout).Again? then s'.k.tasks[c].state.Blocked?
          else s'.k.tasks[c].state.Running?)
      && !SelfReadying(s'.pcs[c]) && forall t | 0 <= t < |s.pcs| && t != c :: s'.pcs[t] == s.pcs[t]
  {}

  lemma WaitEventsSound(s: Sys, g: nat, mask: nat, timeout: nat)
    requires Sound(s) && Enabled(s, WaitEvents(g, mask, timeout))
    ensures Sound(After(s, WaitEvents(g, mask, timeout)))
  {
    WorkingRuns(s);
    WaitEventsStep(s, g, mask, timeout, s.k.ticks + timeout);
    WaitEventsRunner(s, g, mask, timeout);
    var s', b := AfterWaitEvents(s, g, mask, timeout), EventsResult(s, g, mask, timeout).Again?;
    InvPending(s', b);
    TaskStepSound(s, s'.(pending := b));
    assert After(s, WaitEvents(g, mask, timeout)) == s'.(pending := b);
  }

  lemma RecheckSound(s: Sys)
    requires Sound(s) && Enabled(s, RecheckEvents)
    ensures Sound(After(s, RecheckEvents))
  {
    WorkingRuns(s);
    RecheckStep(s);
    InvPending(Effect(s, RecheckEvents), Pends(s, RecheckEvents));
    TaskStepSound(s, After(s, RecheckEvents));
  }

  lemma RegisterSound(s: Sys, r: TaskRec)
    requires Sound(s) && Enabled(s, Register(r))
    ensures Sound(After(s, Register(r)))
  {
    var s' := After(s, Register(r));
    assert !Midway(s) && Seen(s) == s;
    if |s.k.tasks| < MAX_TASKS {
      RegisterStep(s, r);
      InvPending(Effect(s, Register(r)), s.pending);
      if s.k.current != 0 {
        WorkingRuns(s);
        TaskStepSound(s, s');
      }
    }
  }

  lemma SelectSound(s: Sys)
    requires Sound(s) && Typed(s) && Orderly(s, SelectTask)
    ensures Sound(After(s, SelectTask))
  {
    if AnyReady(s.k) {
      SelectFinds(s);
    } else {
      SelectFindsNobody(s);
    }
  }

  lemma SelectFinds(s: Sys)
    requires Sound(s) && Typed(s) && !Midway(s) && AnyReady(s.k)
    ensures Sound(After(s, SelectTask))
  {
    SelectStep(s);
    InvPending(Effect(s, SelectTask), false);
    SelectedFits(s, After(s, SelectTask));
  }

  lemma SelectedFits(s: Sys, s': Sys)
    requires CurrentFits(s) && Typed(s) && !Midway(s) && AnyReady(s.k)
    requires s' == s.(k := Select(s.k), pending := false) && SysInv(s')
    ensures CurrentFits(s') && !Midway(s')
  {
    var l, i := SelectPicks(s.k);
    forall m: nat
      ensures !ReadyAt(s'.k, i, m)
    {}
    assert ReadyAt(s.k, i, l);
  }

  lemma SelectFindsNobody(s: Sys)
    requires Sound(s) && Typed(s) && !AnyReady(s.k)
    requires Midway(s) || s.k.current == 0 || IsRunning(s.k, s.k.current)
    ensures Sound(After(s, SelectTask))
  {
    var s' := After(s, SelectTask);
    SelectStalls(s.k);
    InvPending(Seen(s), false);
    assert Seen(s') == Seen(s).(pending := false);
  }

  // ----------------------------------------------------------------------- interrupts

  /** What an interrupt may do to a kernel state: the current task stays, no priority
      changes, and blocked or sleeping tasks become ready, each with a bit at its
      priority. */
  ghost predicate Interrupted(k: KState, k': KState) {
    && |k'.tasks| == |k.tasks| && |k'.ready| == |k.ready| && k'.current == k.current && k'.highest == k.highest
    && (forall t | 0 <= t < |k.tasks| :: OneInterrupted(k.tasks[t], k'.tasks[t]))
    && (forall t: nat, l: nat | ReadyAt(k, t, l) :: ReadyAt(k', t, l))
    && (forall t: nat, l: nat | ReadyAt(k', t, l) && !ReadyAt(k, t, l) :: GotBit(k, t, l))
  }

  ghost predicate OneInterrupted(r: TaskRec, r': TaskRec) {
    && r'.priority == r.priority
    && (r'.state == r.state || ((r.state.Blocked? || r.state.Sleeping?) && r'.state.Ready?))
  }

  ghost predicate GotBit(k: KState, t: nat, l: nat) {
    t < |k.tasks| && (k.tasks[t].state.Blocked? || k.tasks[t].state.Sleeping?) && k.tasks[t].priority == l
  }

  lemma InterruptedTwice(k: KState, k1: KState, k2: KState)
    requires Interrupted(k, k1) && Interrupted(k1, k2)
    ensures Interrupted(k, k2)
  {
    forall t: nat, l: nat | ReadyAt(k2, t, l) && !ReadyAt(k, t, l)
      ensures GotBit(k, t, l)
    {
      if !ReadyAt(k1, t, l) { assert GotBit(k1, t, l); }
    }
  }

  lemma ReadyInterrupts(k: KState, t: nat)
    requires Shape(k) && t < |k.tasks| && (k.tasks[t].state.Blocked? || k.tasks[t].state.Sleeping?)
    ensures Interrupted(k, SetReady(k, t))
  {}

  lemma TickInterrupts(k: KState)
    requires Shape(k) && forall t | t in k.sleeping :: t < |k.tasks| && k.tasks[t].state.Sleeping?
    ensures Interrupted(k, PortTick(k))
  {}

  lemma {:induction false} WakeEachInterrupts(k: KState, q: seq<nat>)
    requires Shape(k) && Registered(k, q) && Distinct(q)
    requires forall i | 0 <= i < |q| :: k.tasks[q[i]].state.Blocked?
    ensures Interrupted(k, WakeEach(k, q))
    ensures forall t | 0 <= t < |k.tasks| && t !in q :: WakeEach(k, q).tasks[t] == k.tasks[t]
  {
    if q != [] {
      var n := |q| - 1;
      WakeEachInterrupts(k, q[..n]);
      ReadyInterrupts(WakeEach(k, q[..n]), q[n]);
      InterruptedTwice(k, WakeEach(k, q[..n]), WakeEach(k, q));
      assert q == q[..n] + [q[n]];
    }
  }

  lemma FlagsInterrupt(k: KState, t: nat, f: nat)
    requires Shape(k) && t < |k.tasks|
    ensures Interrupted(k, SetFlags(k, t, f))
  {
    ReadyBitsKept(k, SetFlags(k, t, f));
  }

  lemma {:induction false} WakeEachEventInterrupts(k: KState, q: seq<nat>)
    requires Shape(k) && Registered(k, q) && Distinct(q)
    requires forall i | 0 <= i < |q| :: k.tasks[q[i]].state.Blocked?
    ensures Interrupted(k, WakeEachEvent(k, q))
  {
    if q != [] {
      var n := |q| - 1;
      var k1, t := WakeEachEvent(k, q[..n]), q[n];
      WakeEachEventInterrupts(k, q[..n]);
      OthersKept(k, q[..n], t);
      ReadyInterrupts(k1, t);
      SetReadyShape(k1, t);
      FlagsInterrupt(SetReady(k1, t), t, 0);
      InterruptedTwice(k, k1, SetReady(k1, t));
      InterruptedTwice(k, SetReady(k1, t), WakeEachEvent(k, q));
    }
  }

  /** What an interrupt leaves of the fit of the current task. */
  lemma CurrentFitsInterrupted(s: Sys, s': Sys)
    requires CurrentFits(s) && Interrupted(s.k, s'.k) && s'.pcs == s.pcs && (s.pending ==> s'.pending)
    ensures CurrentFits(s')
  {
    var c := s.k.current;
    if HasReadyBit(s.k, c) {
      var l: nat :| ReadyAt(s.k, c, l);
      assert ReadyAt(s'.k, c, l);
    }
    if s.pcs[c].WordLoaded? {
      forall t | t in s.pcs[c].word
        ensures t in s'.k.ready[s.pcs[c].level]
      {
        assert ReadyAt(s.k, t, s.pcs[c].level);
      }
    }
    forall l: nat | ReadyAt(s'.k, c, l)
      ensures ReadyAt(s.k, c, l) || GotBit(s.k, c, l)
    {}
  }

  /** The kernel state in which the current task is seen as running. */
  function Raw(k: KState, c: nat): KState
    requires c < |k.tasks|
  {
    Scheduling.SetState(k, c, Running)
  }

  lemma ReadyCommutes(k: KState, c: nat, t: nat)
    requires Shape(k) && c < |k.tasks| && t < |k.tasks| && t != c
    ensures Shape(Raw(k, c)) && SetReady(Raw(k, c), t) == Raw(SetReady(k, t), c)
  {
    assert SetReady(Raw(k, c), t).tasks == Raw(SetReady(k, t), c).tasks;
  }

  lemma FlagsCommute(k: KState, c: nat, t: nat, f: nat)
    requires c < |k.tasks| && t < |k.tasks| && t != c
    ensures SetFlags(Raw(k, c), t, f) == Raw(SetFlags(k, t, f), c)
  {
    assert SetFlags(Raw(k, c), t, f).tasks == Raw(SetFlags(k, t, f), c).tasks;
  }

  lemma TickCommutes(k: KState, c: nat)
    requires Shape(k) && c < |k.tasks| && c !in k.sleeping
    ensures Shape(Raw(k, c)) && PortTick(Raw(k, c)) == Raw(PortTick(k), c)
  {
    var a, b := PortTick(Raw(k, c)), Raw(PortTick(k), c);
    assert a.tasks == b.tasks;
    forall l | 0 <= l < LEVELS
      ensures a.ready[l] == b.ready[l]
    {}
    assert a.ready == b.ready;
    var k1 := k.(ticks := k.ticks + 1);
    forall l: nat
      ensures l in a.levels <==> l in b.levels
    {
      forall t | t in Due(k1)
        ensures Raw(k, c).tasks[t].priority == k.tasks[t].priority
      {}
    }
    assert a.levels == b.levels;
  }

  lemma {:induction false} WakeEachCommutes(k: KState, c: nat, q: seq<nat>)
    requires Shape(k) && c < |k.tasks| && Registered(k, q) && c !in q
    ensures Shape(Raw(k, c)) && Registered(Raw(k, c), q)
    ensures WakeEach(Raw(k, c), q) == Raw(WakeEach(k, q), c)
  {
    if q != [] {
      WakeEachCommutes(k, c, q[..|q| - 1]);
      ReadyCommutes(WakeEach(k, q[..|q| - 1]), c, q[|q| - 1]);
    }
  }

  lemma {:induction false} WakeEachEventCommutes(k: KState, c: nat, q: seq<nat>)
    requires Shape(k) && c < |k.tasks| && Registered(k, q) && c !in q
    ensures Shape(Raw(k, c)) && Registered(Raw(k, c), q)
    ensures WakeEachEvent(Raw(k, c), q) == Raw(WakeEachEvent(k, q), c)
  {
    if q != [] {
      var t, k1 := q[|q| - 1], WakeEachEvent(k, q[..|q| - 1]);
      WakeEachEventCommutes(k, c, q[..|q| - 1]);
      ReadyCommutes(k1, c, t);
      SetReadyShape(k1, t);
      FlagsCommute(SetReady(k1, t), c, t, 0);
    }
  }

  lemma {:induction false} PartitionCommutes(k: KState, c: nat, f: nat, q: seq<nat>)
    requires c < |k.tasks| && Registered(k, q)
    ensures Registered(Raw(k, c), q)
    ensures Matching(Raw(k, c), f, q) == Matching(k, f, q) && Disjoint(Raw(k, c), f, q) == Disjoint(k, f, q)
  {
    if q != [] { PartitionCommutes(k, c, f, q[..|q| - 1]); }
  }

  /** In a sound state the queues hold blocked tasks, each once, and not the current task
      unless it is blocked. */
  lemma QueueFacts(s: Sys, r: QRef)
    requires Sound(s) && r in s.queues
    ensures Shape(s.k) && Registered(s.k, s.queues[r]) && Distinct(s.queues[r])
    ensures forall i | 0 <= i < |s.queues[r]| :: s.k.tasks[s.queues[r][i]].state.Blocked?
    ensures Midway(s) ==> s.k.current !in s.queues[r]
  {
    var q := s.queues[r];
    QueuesDistinct(Seen(s).k, s.queues, r);
    SeenShape(s);
    forall i | 0 <= i < |q|
      ensures s.k.tasks[q[i]].state.Blocked? && (Midway(s) ==> q[i] != s.k.current)
    {
      assert Queued(s.queues, r, i, q[i]);
    }
  }

  /** Seeing the current task as running does not change sizes and ranges. */
  lemma SeenShape(s: Sys)
    requires s.k.current < |s.k.tasks| && Typed(Seen(s))
    ensures Typed(s)
  {
    if Midway(s) {
      assert Shape(s.k) by {
        forall t | 0 <= t < |s.k.tasks|
          ensures GoodPriority(s.k.tasks[t], s.k.highest)
        {
          assert GoodPriority(Seen(s).k.tasks[t], s.k.highest);
        }
      }
    }
  }

  /** An interrupt that commutes with seeing the current task as running. */
  lemma InterruptSound(s: Sys, s': Sys)
    requires Sound(s) && Interrupted(s.k, s'.k) && s'.pcs == s.pcs && (s.pending ==> s'.pending)
    requires SysInv(Seen(s'))
    ensures Sound(s')
  {
    CurrentFitsInterrupted(s, s');
  }

  lemma TickSound(s: Sys)
    requires Sound(s) && Typed(s)
    ensures Sound(After(s, SysTick))
  {
    var s' := After(s, SysTick);
    TickStep(Seen(s));
    if Midway(s) {
      TickCommutes(s.k, s.k.current);
      assert Midway(s');
      assert Seen(s') == Seen(s).(k := PortTick(Seen(s).k), pending := true);
    }
    InvPending(Seen(s).(k := PortTick(Seen(s).k)), true);
    TickInterrupts(s.k);
    InterruptSound(s, s');
  }

  /** A signal that wakes a waiter commutes with seeing the current task as running. */
  lemma SignalWakes(s: Sys, x: nat)
    requires Sound(s) && Typed(s) && x < |s.sems| && s.queues[SemQ(x)] != []
    ensures Interrupted(s.k, AfterSignal(s, x).k)
    ensures Typed(Seen(s)) && Seen(AfterSignal(s, x)) == AfterSignal(Seen(s), x)
  {
    var q := s.queues[SemQ(x)];
    QueueFacts(s, SemQ(x));
    ReadyInterrupts(s.k, q[0]);
    if Midway(s) { ReadyCommutes(s.k, s.k.current, q[0]); }
  }

  lemma SignalCounts(s: Sys, x: nat)
    requires Sound(s) && Typed(s) && x < |s.sems| && s.queues[SemQ(x)] == []
    ensures Interrupted(s.k, AfterSignal(s, x).k)
    ensures Typed(Seen(s)) && Seen(AfterSignal(s, x)) == AfterSignal(Seen(s), x)
  {
    ReadyBitsKept(s.k, s.k);
  }

  lemma SignalSound(s: Sys, x: nat)
    requires Sound(s) && Typed(s) && x < |s.sems|
    ensures Sound(AfterSignal(s, x))
  {
    SignalStep(Seen(s), x);
    if s.queues[SemQ(x)] != [] { SignalWakes(s, x); } else { SignalCounts(s, x); }
    InterruptSound(s, AfterSignal(s, x));
  }

  lemma FlushSound(s: Sys, x: nat)
    requires Sound(s) && Typed(s) && x < |s.sems|
    ensures Sound(AfterFlush(s, x))
  {
    var s', q := AfterFlush(s, x), s.queues[SemQ(x)];
    QueueFacts(s, SemQ(x));
    FlushStep(Seen(s), x);
    WakeEachInterrupts(s.k, q);
    if Midway(s) { WakeEachCommutes(s.k, s.k.current, q); }
    assert Seen(s') == AfterFlush(Seen(s), x);
    InterruptSound(s, s');
  }

  lemma {:induction false} MatchingDistinct(k: KState, f: nat, q: seq<nat>)
    requires Registered(k, q) && Distinct(q)
    ensures Distinct(Matching(k, f, q))
  {
    if q != [] {
      var n := |q| - 1;
      MatchingDistinct(k, f, q[..n]);
      MatchingOrDisjoint(k, f, q[..n], q[n]);
    }
  }

  /** The tasks that setting events wakes are blocked, and the current task midway is not
      among them. */
  lemma MatchingFacts(s: Sys, g: nat, f: nat)
    requires Sound(s) && GroupQ(g) in s.queues
    ensures Shape(s.k) && Registered(s.k, s.queues[GroupQ(g)])
    ensures var m := Matching(s.k, f, s.queues[GroupQ(g)]);
      && Distinct(m) && (forall i | 0 <= i < |m| :: s.k.tasks[m[i]].state.Blocked?)
      && (Midway(s) ==> s.k.current !in m)
  {
    var q := s.queues[GroupQ(g)];
    QueueFacts(s, GroupQ(g));
    MatchingDistinct(s.k, f, q);
    var m := Matching(s.k, f, q);
    MatchingOrDisjoint(s.k, f, q, s.k.current);
    forall i | 0 <= i < |m|
      ensures s.k.tasks[m[i]].state.Blocked?
    {
      MatchingOrDisjoint(s.k, f, q, m[i]);
      assert m[i] in q;
    }
  }

  lemma RaiseSound(s: Sys, g: nat, bits: nat)
    requires Sound(s) && Enabled(s, RaiseEvents(g, bits)) && Typed(s)
    ensures Sound(After(s, RaiseEvents(g, bits)))
  {
    var s', f, q := After(s, RaiseEvents(g, bits)), Or(s.groups[g], bits), s.queues[GroupQ(g)];
    MatchingFacts(s, g, f);
    RaiseStep(Seen(s), g, bits);
    WakeEachEventInterrupts(s.k, Matching(s.k, f, q));
    if Midway(s) {
      PartitionCommutes(s.k, s.k.current, f, q);
      WakeEachEventCommutes(s.k, s.k.current, Matching(s.k, f, q));
    }
    assert Seen(s') == AfterRaise(Seen(s), g, bits).(pending := true);
    InvPending(AfterRaise(Seen(s), g, bits), true);
    InterruptSound(s, s');
  }

  lemma LowerSound(s: Sys, g: nat, bits: nat)
    requires Sound(s) && Enabled(s, LowerEvents(g, bits)) && Typed(s)
    ensures Sound(After(s, LowerEvents(g, bits)))
  {
    var s', f := After(s, LowerEvents(g, bits)), And(s.groups[g], Not(bits, WIDTH32));
    LowerStep(Seen(s), g, bits);
    ReadyBitsKept(s.k, s'.k);
    assert Seen(s') == Seen(s).(groups := s.groups[g := f]);
    InterruptSound(s, s');
  }

  // --------------------------------------------------- the accesses of a task readying itself

  /** The first write: the state of a task that was running. */
  lemma StateWriteSound(s: Sys)
    requires Sound(s) && Typed(s) && Executes(s) && s.pcs[s.k.current].Signalled?
    ensures Sound(AfterReadySelf(s))
  {
    var c, s' := s.k.current, AfterReadySelf(s);
    PcStep(s, StateWritten);
    assert Seen(s').k.tasks == s.k.tasks;
    assert Seen(s') == SetPc(s, StateWritten);
    forall l: nat
      ensures !ReadyAt(s'.k, c, l)
    {
      assert !ReadyAt(s.k, c, l);
    }
  }

  lemma WordLoadSound(s: Sys)
    requires Sound(s) && Typed(s) && Executes(s) && s.pcs[s.k.current].StateWritten?
    ensures Sound(AfterReadySelf(s))
  {
    var c, s' := s.k.current, AfterReadySelf(s);
    var l := s.k.tasks[c].priority;
    forall t | t in s.k.ready[l]
      ensures t < |s.k.tasks|
    {}
    PcStep(Seen(s), WordLoaded(l, s.k.ready[l]));
    assert Seen(s') == SetPc(Seen(s), WordLoaded(l, s.k.ready[l]));
  }

  lemma LevelsFree(s: Sys, levels: set<nat>)
    requires SysInv(s)
    ensures SysInv(s.(k := s.k.(levels := levels)))
  {
    var k' := s.k.(levels := levels);
    ReadyBitsKept(s.k, k');
    KernelStep(s, k');
  }

  /** The kernel state with the bit of the current task stored, and no level marked. */
  lemma BitStored(s: Sys)
    requires Sound(s) && Typed(s) && s.pcs[s.k.current].WordLoaded?
    ensures Shape(Seen(s).k) && s.k.current < |Seen(s).k.tasks|
    ensures SysInv(Seen(s).(k := SetReady(Seen(s).k, s.k.current).(levels := s.k.levels)))
  {
    var c := s.k.current;
    SetReadyKeeps(Seen(s).k, c);
    KernelStep(Seen(s), SetReady(Seen(s).k, c));
    LevelsFree(Seen(s).(k := SetReady(Seen(s).k, c)), s.k.levels);
  }

  lemma BitStoredIs(s: Sys)
    requires Sound(s) && Typed(s) && s.pcs[s.k.current].WordLoaded? && WordUnchanged(s.k, s.pcs[s.k.current])
    ensures var c, l := s.k.current, s.pcs[s.k.current].level;
      && Shape(Seen(s).k) && l < LEVELS
      && SetReady(Seen(s).k, c).(levels := s.k.levels) ==
         s.k.(ready := s.k.ready[l := s.pcs[c].word + {c}])
  {
    var c := s.k.current;
    assert SetReady(Seen(s).k, c).tasks == s.k.tasks;
  }

  lemma StoredFits(s: Sys, k': KState)
    requires CurrentFits(s) && Executes(s) && s.pcs[s.k.current].WordLoaded?
    requires s.pcs[s.k.current].level < |s.k.ready|
    requires k' == s.k.(ready := s.k.ready[s.pcs[s.k.current].level := s.pcs[s.k.current].word + {s.k.current}])
    ensures CurrentFits(SetPc(s.(k := k'), WordStored(s.pcs[s.k.current].level)))
  {
    var c, l := s.k.current, s.pcs[s.k.current].level;
    assert ReadyAt(k', c, l);
    forall m: nat | ReadyAt(k', c, m)
      ensures m == l
    {
      assert m != l ==> ReadyAt(s.k, c, m);
    }
  }

  /** Storing the ready word that was loaded is making the task ready. */
  lemma WordStoreSound(s: Sys)
    requires Sound(s) && Typed(s) && Executes(s) && s.pcs[s.k.current].WordLoaded?
    requires WordUnchanged(s.k, s.pcs[s.k.current])
    ensures Sound(AfterReadySelf(s))
  {
    BitStored(s);
    BitStoredIs(s);
    var s1 := Seen(s).(k := SetReady(Seen(s).k, s.k.current).(levels := s.k.levels));
    PcStep(s1, WordStored(s.pcs[s.k.current].level));
    StoredFits(s, s1.k);
  }

  /** A task on its way through marking its level is running or ready. */
  lemma MarkerState(s: Sys)
    requires Sound(s) && Executes(s) && (s.pcs[s.k.current].WordStored? || s.pcs[s.k.current].MapLoaded?)
    ensures SysInv(s) && (s.k.tasks[s.k.current].state.Running? || s.k.tasks[s.k.current].state.Ready?)
  {
    if !s.k.tasks[s.k.current].state.Running? {
      var l: nat :| ReadyAt(s.k, s.k.current, l);
    }
  }

  lemma MapLoadSound(s: Sys)
    requires Sound(s) && Typed(s) && Executes(s) && s.pcs[s.k.current].WordStored?
    ensures Sound(AfterReadySelf(s))
  {
    MarkerState(s);
    PcStep(s, MapLoaded(s.pcs[s.k.current].level, s.k.levels));
  }

  lemma MapStoreSound(s: Sys)
    requires Sound(s) && Typed(s) && Executes(s) && s.pcs[s.k.current].MapLoaded?
    ensures Sound(AfterReadySelf(s).(pending := true))
  {
    var pc, s' := s.pcs[s.k.current], AfterReadySelf(s);
    MarkerState(s);
    LevelsFree(s, pc.marks + {pc.level});
    PcStep(s.(k := s.k.(levels := pc.marks + {pc.level})), App);
    InvPending(s', true);
    forall l: nat | ReadyAt(s'.k, s.k.current, l)
      ensures ReadyAt(s.k, s.k.current, l)
    {}
  }

  lemma ReadySelfSound(s: Sys)
    requires Sound(s) && Typed(s) && Enabled(s, ReadySelf) && Orderly(s, ReadySelf)
    ensures Sound(After(s, ReadySelf))
  {
    var pc := s.pcs[s.k.current];
    if pc.Signalled? {
      StateWriteSound(s);
    } else if pc.StateWritten? {
      WordLoadSound(s);
    } else if pc.WordLoaded? {
      WordStoreSound(s);
    } else if pc.WordStored? {
      MapLoadSound(s);
    } else {
      MapStoreSound(s);
    }
    assert !pc.MapLoaded? ==> After(s, ReadySelf) == AfterReadySelf(s);
  }

  // ---------------------------------------------------------------------- all steps

  /** A running task whose signal is done is about to ready itself. */
  lemma SignalledSound(s: Sys, s': Sys)
    requires Sound(s') && Executes(s') && s'.pcs[s'.k.current].App?
    ensures Sound(SetPc(s', Signalled))
  {
    WorkingRuns(s');
    PcStep(s', Signalled);
    TaskStepSound(s', SetPc(s', Signalled));
  }

  lemma SoundStep(s: Sys, l: Label)
    requires Sound(s) && Typed(s) && Enabled(s, l) && Orderly(s, l)
    ensures Sound(After(s, l))
  {
    match l
    case Register(r) => RegisterSound(s, r);
    case SelectTask => SelectSound(s);
    case SysTick => TickSound(s);
    case Sleep(n) => SleepSound(s, n);
    case StartAcquire(m, timeout) => StartAcquireSound(s, m, timeout);
    case AcquirePass => AcquirePassSound(s);
    case ReleaseMutex(m) => ReleaseSound(s, m);
    case WaitSem(x, timeout, start) => WaitSemSound(s, x, timeout, start);
    case SignalSem(x, isr) => SignalLabelSound(s, x, isr);
    case FlushSem(x, isr) => FlushLabelSound(s, x, isr);
    case ReadySelf => ReadySelfSound(s);
    case WaitEvents(g, mask, timeout) => WaitEventsSound(s, g, mask, timeout);
    case RecheckEvents => RecheckSound(s);
    case RaiseEvents(g, bits) => RaiseSound(s, g, bits);
    case LowerEvents(g, bits) => LowerSound(s, g, bits);
  }

  lemma SignalLabelSound(s: Sys, x: nat, isr: bool)
    requires Sound(s) && Typed(s) && Enabled(s, SignalSem(x, isr))
    ensures Sound(After(s, SignalSem(x, isr)))
  {
    SignalSound(s, x);
    if isr {
      assert After(s, SignalSem(x, isr)) == AfterSignal(s, x);
    } else {
      SignalledSound(s, AfterSignal(s, x));
      assert After(s, SignalSem(x, isr)) == SetPc(AfterSignal(s, x), Signalled);
    }
  }

  lemma FlushLabelSound(s: Sys, x: nat, isr: bool)
    requires Sound(s) && Typed(s) && Enabled(s, FlushSem(x, isr))
    ensures Sound(After(s, FlushSem(x, isr)))
  {
    FlushSound(s, x);
    WakeEachIs(s.k, s.queues[SemQ(x)], 0);
    if isr || s.queues[SemQ(x)] == [] {
      assert After(s, FlushSem(x, isr)) == AfterFlush(s, x);
    } else {
      SignalledSound(s, AfterFlush(s, x));
      assert After(s, FlushSem(x, isr)) == SetPc(AfterFlush(s, x), Signalled);
    }
  }

  /** Every state of an orderly run is sound, up to and including the one after its last
      orderly step. */
  lemma {:induction false} SoundInRun(ss: seq<Sys>, ls: seq<Label>, i: nat)
    requires Run(ss, ls) && i < |ss| && OrderlyUpTo(ss, ls, i)
    ensures Sound(ss[i]) && Typed(ss[i])
  {
    BaseInRun(ss, ls, i);
    if i == 0 {
      InitSound(ss[0]);
    } else {
      var j := i - 1;
      SoundInRun(ss, ls, j);
      assert Step(ss[j], ls[j], ss[j + 1]);
      SoundStep(ss[j], ls[j]);
    }
  }
}
