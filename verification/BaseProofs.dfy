/** What every step keeps, in all runs, whatever goes wrong with the places of tasks. */
module BaseProofs {
  import opened Tasks
  import opened Words
  import opened Scheduling
  import opened SchedulingProofs
  import opened Blocking
  import opened Places
  import opened Systems

  lemma InitBase(s: Sys)
    requires Init(s)
    ensures Base(s)
  {
    BootKeeps();
    forall g | 0 <= g < |s.groups|
      ensures Fits(s.groups[g], WIDTH32)
    {}
  }

  /** A kernel state with the same tasks and flags may take the place of the old one. */
  lemma BaseKernel(s: Sys, k': KState)
    requires Base(s) && Shape(k') && |k'.tasks| == |s.k.tasks| && k'.highest == s.k.highest
    requires forall t | 0 <= t < |s.k.tasks| :: k'.tasks[t].flags == s.k.tasks[t].flags
    ensures Base(s.(k := k'))
  {}

  /** So may other contents of a queue that is not that of a group. */
  lemma BaseQueue(s: Sys, r: QRef, q: seq<nat>)
    requires Base(s) && !r.GroupQ? && r in s.queues && Registered(s.k, q)
    requires r.SemQ? && r.x < |s.sems| && s.sems[r.x].count > 0 ==> q == []
    ensures Base(s.(queues := s.queues[r := q]))
  {
    var s' := s.(queues := s.queues[r := q]);
    forall g: nat, p: nat, t: nat | Queued(s'.queues, GroupQ(g), p, t)
      ensures Queued(s.queues, GroupQ(g), p, t)
    {}
  }

  lemma PcTyped(s: Sys, pc: Pc)
    requires Typed(s) && s.k.current < |s.pcs| && PcInRange(s, pc)
    ensures Typed(SetPc(s, pc))
  {}

  /** A task outside the wait loops may move anywhere outside them. */
  lemma BasePc(s: Sys, pc: Pc)
    requires Base(s) && s.k.current < |s.pcs| && PcInRange(s, pc) && !s.pcs[s.k.current].Waiting?
    ensures Base(SetPc(s, pc))
  {
    var s' := SetPc(s, pc);
    assert Typed(s') by { PcTyped(s, pc); }
    forall g: nat, p: nat, t: nat | Queued(s'.queues, GroupQ(g), p, t)
      ensures PcFits(s'.k, s'.pcs, GroupQ(g), t)
    {
      assert PcFits(s.k, s.pcs, GroupQ(g), t);
    }
  }

  lemma BasePending(s: Sys, b: bool)
    requires Base(s)
    ensures Base(s.(pending := b))
  {}

  lemma BaseMutex(s: Sys, m: nat, core: MutexCore)
    requires Base(s) && m < |s.mutexes| && GoodCore(s.k, core)
    ensures Base(s.(mutexes := s.mutexes[m := core]))
  {}

  // -------------------------------------------------------------------- kernel steps

  lemma {:induction false} WakeEachIs(k: KState, q: seq<nat>, t: nat)
    requires Shape(k) && Registered(k, q) && t < |k.tasks|
    ensures WakeEach(k, q).tasks[t] == if t in q then k.tasks[t].(state := Ready) else k.tasks[t]
    ensures WakeEach(k, q).ticks == k.ticks && WakeEach(k, q).wake == k.wake
    ensures WakeEach(k, q).current == k.current && WakeEach(k, q).highest == k.highest
  {
    if q != [] {
      WakeEachIs(k, q[..|q| - 1], t);
      assert q == q[..|q| - 1] + [q[|q| - 1]];
    }
  }

  lemma SelectBase(s: Sys)
    requires Base(s)
    ensures Base(s.(k := Select(s.k)))
  {
    if AnyReady(s.k) {
      var l, i := SelectPicks(s.k);
      var k1 := PutBack(s.k);
      if s.k.tasks[s.k.current].state.Running? { SetReadyShape(s.k, s.k.current); }
      DispatchShape(k1, l, i);
    } else {
      SelectStalls(s.k);
    }
    BaseKernel(s, Select(s.k));
  }

  lemma TickBase(s: Sys)
    requires Base(s)
    ensures Base(s.(k := PortTick(s.k)))
  {
    var k1 := s.k.(ticks := s.k.ticks + 1);
    WakeShape(k1, Due(k1));
    BaseKernel(s, PortTick(s.k));
  }

  lemma RegisterBase(s: Sys, r: TaskRec)
    requires Base(s) && |s.k.tasks| < MAX_TASKS && r.priority <= PRIORITY_IDLE && r.basePriority == r.priority
    ensures Base(s.(k := AddTask(s.k, r), pcs := s.pcs + [App]))
  {
    AddTaskShape(s.k, r);
    var s' := s.(k := AddTask(s.k, r), pcs := s.pcs + [App]);
    forall g: nat, p: nat, t: nat | Queued(s'.queues, GroupQ(g), p, t)
      ensures PcFits(s'.k, s'.pcs, GroupQ(g), t)
    {
      assert PcFits(s.k, s.pcs, GroupQ(g), t);
    }
    forall g, t | 0 <= g < |s.groups| && GroupQ(g) in s.queues && t in s.queues[GroupQ(g)] && t < |s'.k.tasks|
      ensures Fits(s'.k.tasks[t].flags, WIDTH32) && And(s.groups[g], s'.k.tasks[t].flags) == 0
    {
      assert Registered(s.k, s.queues[GroupQ(g)]);
    }
  }

  // ------------------------------------------------------------- mutex and semaphore

  lemma TakeBase(s: Sys, m: nat)
    requires Base(s) && Executes(s) && s.pcs[s.k.current].Acquiring? && s.pcs[s.k.current].m == m
    requires s.mutexes[m].count == 0
    ensures Base(AfterAcquirePass(s))
  {
    var core := MutexCore(1, Some(s.k.current));
    BaseMutex(s, m, core);
    var s1 := s.(mutexes := s.mutexes[m := core]);
    BasePc(s1, App);
    assert AfterAcquirePass(s) == SetPc(s1, App);
  }

  lemma TimeoutBase(s: Sys, m: nat)
    requires Base(s) && Executes(s) && s.pcs[s.k.current].Acquiring? && s.pcs[s.k.current].m == m
    requires s.mutexes[m].count > 0 && !s.pcs[s.k.current].forever && s.k.ticks > s.pcs[s.k.current].end
    ensures Base(AfterAcquirePass(s))
  {
    BasePc(s, App);
    assert AfterAcquirePass(s) == SetPc(s, App);
  }

  lemma MustWaitBase(s: Sys, m: nat)
    requires Base(s) && Executes(s) && s.pcs[s.k.current].Acquiring? && s.pcs[s.k.current].m == m
    requires s.mutexes[m].count > 0 && (s.pcs[s.k.current].forever || s.k.ticks <= s.pcs[s.k.current].end)
    ensures Base(AfterAcquirePass(s))
  {
    var c, q := s.k.current, s.queues[MutexQ(m)];
    assert GoodCore(s.k, s.mutexes[m]);
    var k1 := Boost(s.k, s.mutexes[m].owner.value, c);
    if |q| < MAX_TASKS && k1.tasks[c].state.Running? { ResetReadyShape(k1, c, Blocked); }
    var k2 := BlockRunner(k1, q);
    BaseKernel(s, k2);
    BaseQueue(s.(k := k2), MutexQ(m), Enqueued(q, c));
    assert AfterAcquirePass(s) == s.(k := k2, queues := s.queues[MutexQ(m) := Enqueued(q, c)]);
  }

  lemma CountIsBit(s: Sys, m: nat)
    requires Base(s) && m < |s.mutexes|
    ensures s.mutexes[m].count == 0 || s.mutexes[m].count == 1
  {
    assert GoodCore(s.k, s.mutexes[m]);
  }

  lemma AcquirePassBase(s: Sys)
    requires Base(s) && Executes(s) && s.pcs[s.k.current].Acquiring?
    ensures Base(AfterAcquirePass(s))
  {
    var pc := s.pcs[s.k.current];
    CountIsBit(s, pc.m);
    if s.mutexes[pc.m].count == 0 {
      TakeBase(s, pc.m);
    } else if !pc.forever && s.k.ticks > pc.end {
      TimeoutBase(s, pc.m);
    } else {
      MustWaitBase(s, pc.m);
    }
  }

  lemma WakeFirstBase(s: Sys, r: QRef)
    requires Base(s) && !r.GroupQ? && r in s.queues && s.queues[r] != []
    ensures s.queues[r][0] < |s.k.tasks|
    ensures Base(s.(k := SetReady(s.k, s.queues[r][0]), queues := s.queues[r := s.queues[r][1..]]))
  {
    var w, q := s.queues[r][0], s.queues[r][1..];
    SetReadyShape(s.k, w);
    BaseKernel(s, SetReady(s.k, w));
    BaseQueue(s.(k := SetReady(s.k, w)), r, q);
  }

  lemma ReleaseBase(s: Sys, m: nat)
    requires Base(s) && m < |s.mutexes|
    ensures Base(AfterRelease(s, m))
  {
    var core, r := s.mutexes[m], MutexQ(m);
    if core.owner == Some(s.k.current) {
      BaseMutex(s, m, MutexCore(0, None));
      var s1 := s.(mutexes := s.mutexes[m := MutexCore(0, None)]);
      if s.queues[r] != [] {
        WakeFirstBase(s1, r);
      } else {
        assert s.queues[r := s.queues[r]] == s.queues;
      }
    } else {
      assert AfterRelease(s, m) == s;
    }
  }

  lemma SemCount(s: Sys, x: nat, core: SemCore)
    requires Base(s) && x < |s.sems| && (core.count > 0 ==> s.queues[SemQ(x)] == [])
    ensures Base(s.(sems := s.sems[x := core]))
  {}

  lemma WaitSemBase(s: Sys, x: nat, timeout: nat, start: nat)
    requires Base(s) && s.k.current < |s.pcs| && x < |s.sems|
    ensures Base(AfterWaitSem(s, x, timeout, start))
  {
    var core, r, c := s.sems[x], SemQ(x), s.k.current;
    if core.count > 0 {
      SemCount(s, x, core.(count := core.count - 1));
      assert s.queues[r := s.queues[r]] == s.queues;
    } else if timeout == 0 || (timeout != WAIT_FOREVER && s.k.ticks > timeout + start) {
      assert s.queues[r := s.queues[r]] == s.queues;
    } else {
      JoinSemBase(s, x);
      assert s.sems[x := core] == s.sems;
    }
  }

  /** The caller joins the queue of a semaphore without tokens. */
  lemma JoinSemBase(s: Sys, x: nat)
    requires Base(s) && s.k.current < |s.pcs| && x < |s.sems| && s.sems[x].count == 0
    ensures var c, r := s.k.current, SemQ(x);
      Base(s.(k := ResetReady(s.k, c, Blocked), queues := s.queues[r := Enqueued(s.queues[r], c)]))
  {
    var c, r := s.k.current, SemQ(x);
    ResetReadyShape(s.k, c, Blocked);
    BaseKernel(s, ResetReady(s.k, c, Blocked));
    BaseQueue(s.(k := ResetReady(s.k, c, Blocked)), r, Enqueued(s.queues[r], c));
  }

  lemma SignalBase(s: Sys, x: nat)
    requires Base(s) && x < |s.sems|
    ensures Base(AfterSignal(s, x))
  {
    var core, r := s.sems[x], SemQ(x);
    if s.queues[r] != [] {
      WakeFirstBase(s, r);
    } else {
      assert s.queues[r := s.queues[r]] == s.queues;
      if core.count < core.max { SemCount(s, x, core.(count := core.count + 1)); }
    }
  }

  lemma FlushBase(s: Sys, x: nat)
    requires Base(s) && x < |s.sems|
    ensures Base(AfterFlush(s, x))
  {
    var k' := WakeEach(s.k, s.queues[SemQ(x)]);
    forall t | 0 <= t < |s.k.tasks|
      ensures k'.tasks[t].flags == s.k.tasks[t].flags
    {
      WakeEachIs(s.k, s.queues[SemQ(x)], t);
    }
    WakeEachIs(s.k, s.queues[SemQ(x)], 0);
    BaseKernel(s, k');
    BaseQueue(s.(k := k'), SemQ(x), []);
  }

  lemma ReadySelfBase(s: Sys)
    requires Base(s) && Executes(s) && SelfReadying(s.pcs[s.k.current])
    ensures Base(AfterReadySelf(s))
  {
    var c, pc := s.k.current, s.pcs[s.k.current];
    if pc.StateWritten? {
      BasePc(s, WordLoaded(s.k.tasks[c].priority, s.k.ready[s.k.tasks[c].priority]));
    } else if pc.WordLoaded? {
      var k' := s.k.(ready := s.k.ready[pc.level := pc.word + {c}]);
      BaseKernel(s, k');
      BasePc(s.(k := k'), WordStored(pc.level));
    } else if pc.WordStored? {
      BasePc(s, MapLoaded(pc.level, s.k.levels));
    } else if pc.MapLoaded? {
      BaseKernel(s, s.k.(levels := pc.marks + {pc.level}));
      BasePc(s.(k := s.k.(levels := pc.marks + {pc.level})), App);
    } else {
      BaseKernel(s, Scheduling.SetState(s.k, c, Ready));
      BasePc(s.(k := Scheduling.SetState(s.k, c, Ready)), StateWritten);
    }
  }

  // -------------------------------------------------------------------- event group

  /** A task outside the wait loops is in the queue of no group. */
  lemma NotWaiting(s: Sys, g: nat, t: nat)
    requires GroupsFit(s.k, s.queues, s.pcs) && GroupQ(g) in s.queues
    requires t < |s.pcs| ==> !(s.pcs[t].Waiting? && s.pcs[t].g == g)
    ensures t !in s.queues[GroupQ(g)]
  {
    forall p | 0 <= p < |s.queues[GroupQ(g)]|
      ensures s.queues[GroupQ(g)][p] != t
    {
      assert Queued(s.queues, GroupQ(g), p, s.queues[GroupQ(g)][p]);
    }
  }

  lemma WaitEventsBase(s: Sys, g: nat, mask: nat, timeout: nat)
    requires Base(s) && InApp(s) && g < |s.groups| && Fits(mask, WIDTH32)
    ensures Base(AfterWaitEvents(s, g, mask, timeout))
  {
    var c, r := s.k.current, GroupQ(g);
    var s' := AfterWaitEvents(s, g, mask, timeout);
    if And(s.groups[g], mask) != 0 || timeout == 0 {
      assert s.queues[r := s.queues[r]] == s.queues;
      assert s' == s;
    } else {
      JoinGroup(s, s', g, c, mask);
    }
  }

  /** s' is s with task c, which waits nowhere, in the wait loop of group g. */
  lemma JoinGroup(s: Sys, s': Sys, g: nat, c: nat, mask: nat)
    requires Base(s) && g < |s.groups| && Fits(mask, WIDTH32) && And(s.groups[g], mask) == 0
    requires c < |s.pcs| && !s.pcs[c].Waiting? && Typed(s') && |s'.k.tasks| == |s.k.tasks|
    requires s'.queues == s.queues[GroupQ(g) := Enqueued(s.queues[GroupQ(g)], c)]
    requires s'.groups == s.groups && s'.sems == s.sems && s'.k.tasks[c].flags == mask
    requires forall t | 0 <= t < |s.k.tasks| && t != c ::
               s'.pcs[t] == s.pcs[t] && s'.k.tasks[t].flags == s.k.tasks[t].flags
    requires s'.pcs[c].Waiting? && s'.pcs[c].g == g && s'.pcs[c].mask == mask
    ensures Base(s')
  {
    NotWaiting(s, g, c);
    forall h: nat, p: nat, t: nat | Queued(s'.queues, GroupQ(h), p, t)
      ensures PcFits(s'.k, s'.pcs, GroupQ(h), t)
    {
      if Queued(s.queues, GroupQ(h), p, t) {
        assert PcFits(s.k, s.pcs, GroupQ(h), t);
      }
    }
    forall h, t | 0 <= h < |s'.groups| && GroupQ(h) in s'.queues && t in s'.queues[GroupQ(h)] && t < |s'.k.tasks|
      ensures Fits(s'.k.tasks[t].flags, WIDTH32) && And(s'.groups[h], s'.k.tasks[t].flags) == 0
    {
      NotWaiting(s, h, c);
    }
  }

  lemma {:induction false} RemovedOnce(q: seq<nat>, t: nat)
    requires Distinct(q)
    ensures t !in Removed(q, t) && Distinct(Removed(q, t))
    ensures forall u | u in Removed(q, t) :: u in q
  {
    if q != [] {
      assert q[0] !in q[1..];
      RemovedOnce(q[1..], t);
      if q[0] != t { DistinctCons(q[0], Removed(q[1..], t)); }
    }
  }

  lemma DistinctCons(x: nat, q: seq<nat>)
    requires Distinct(q) && x !in q
    ensures Distinct([x] + q)
  {}

  /** A waiter that returns is in the queue of no group, even if it was never woken. */
  lemma RecheckBase(s: Sys)
    requires Base(s) && Executes(s) && s.pcs[s.k.current].Waiting?
    ensures Base(AfterRecheck(s))
    ensures !RecheckResult(s).Again? ==>
      forall g | GroupQ(g) in AfterRecheck(s).queues :: s.k.current !in AfterRecheck(s).queues[GroupQ(g)]
  {
    var c, pc := s.k.current, s.pcs[s.k.current];
    var r, s' := GroupQ(pc.g), AfterRecheck(s);
    RemovedOnce(s.queues[r], c);
    if RecheckResult(s).Again? {
      assert s.queues[r := s.queues[r]] == s.queues;
      assert s' == s;
    } else {
      forall i | 0 <= i < |s'.queues[r]|
        ensures s'.queues[r][i] < |s.k.tasks|
      {
        assert s'.queues[r][i] in s.queues[r];
      }
      forall h: nat | GroupQ(h) in s'.queues
        ensures c !in s'.queues[GroupQ(h)]
      {
        if h != pc.g { NotWaiting(s, h, c); }
      }
      forall h: nat, p: nat, t: nat | Queued(s'.queues, GroupQ(h), p, t)
        ensures PcFits(s'.k, s'.pcs, GroupQ(h), t)
      {
        assert t in s'.queues[GroupQ(h)] && t in s.queues[GroupQ(h)];
        var p' :| 0 <= p' < |s.queues[GroupQ(h)]| && s.queues[GroupQ(h)][p'] == t;
        assert Queued(s.queues, GroupQ(h), p', t);
      }
    }
  }

  lemma {:induction false} WakeEachEventIs(k: KState, q: seq<nat>, t: nat)
    requires Shape(k) && Registered(k, q) && t < |k.tasks|
    ensures WakeEachEvent(k, q).tasks[t] ==
            if t in q then k.tasks[t].(state := Ready, flags := 0) else k.tasks[t]
    ensures WakeEachEvent(k, q).ticks == k.ticks && WakeEachEvent(k, q).wake == k.wake
    ensures WakeEachEvent(k, q).current == k.current && WakeEachEvent(k, q).highest == k.highest
  {
    if q != [] {
      WakeEachEventIs(k, q[..|q| - 1], t);
      assert q == q[..|q| - 1] + [q[|q| - 1]];
    }
  }

  lemma {:induction false} DisjointDistinct(k: KState, f: nat, q: seq<nat>)
    requires Registered(k, q) && Distinct(q)
    ensures Distinct(Disjoint(k, f, q))
  {
    if q != [] {
      var n := |q| - 1;
      DisjointDistinct(k, f, q[..n]);
      MatchingOrDisjoint(k, f, q[..n], q[n]);
    }
  }

  /** Whoever is still queued in a group was queued there before, is unchanged, and waits
      for none of the flags. */
  lemma StillQueued(s: Sys, g: nat, f: nat, h: nat, t: nat)
    requires Base(s) && g < |s.groups| && GroupQ(h) in s.queues && t in s.queues[GroupQ(h)]
    requires h == g ==> t in Disjoint(s.k, f, s.queues[GroupQ(g)])
    ensures t < |s.k.tasks| && PcFits(s.k, s.pcs, GroupQ(h), t) && (h == g ==> And(f, s.k.tasks[t].flags) == 0)
    ensures WakeEachEvent(s.k, Matching(s.k, f, s.queues[GroupQ(g)])).tasks[t] == s.k.tasks[t]
  {
    var p :| 0 <= p < |s.queues[GroupQ(h)]| && s.queues[GroupQ(h)][p] == t;
    assert Queued(s.queues, GroupQ(h), p, t);
    if h != g { NotWaiting(s, g, t); }
    MatchingOrDisjoint(s.k, f, s.queues[GroupQ(g)], t);
    WakeEachEventIs(s.k, Matching(s.k, f, s.queues[GroupQ(g)]), t);
  }

  /** The waiters of group g that wait for one of flags f were woken. */
  ghost predicate FlagsSet(s: Sys, s': Sys, g: nat, f: nat)
    requires Typed(s) && g < |s.groups|
  {
    var q := s.queues[GroupQ(g)];
    && s'.k == WakeEachEvent(s.k, Matching(s.k, f, q)) && s'.pcs == s.pcs
    && s'.queues == s.queues[GroupQ(g) := Disjoint(s.k, f, q)]
  }

  /** Task t, left in the queue of group h by setting flags f of group g, still fits. */
  lemma LeftFits(s: Sys, s': Sys, g: nat, f: nat, h: nat, t: nat)
    requires Base(s) && g < |s.groups| && FlagsSet(s, s', g, f)
    requires GroupQ(h) in s'.queues && t in s'.queues[GroupQ(h)]
    ensures t < |s.k.tasks| && PcFits(s'.k, s'.pcs, GroupQ(h), t) && t in s.queues[GroupQ(h)]
    ensures s'.k.tasks[t].flags == s.k.tasks[t].flags && (h == g ==> And(f, s.k.tasks[t].flags) == 0)
  {
    MatchingOrDisjoint(s.k, f, s.queues[GroupQ(g)], t);
    StillQueued(s, g, f, h, t);
  }

  lemma RaiseFits(s: Sys, s': Sys, g: nat, f: nat)
    requires Base(s) && g < |s.groups| && FlagsSet(s, s', g, f)
    ensures GroupsFit(s'.k, s'.queues, s'.pcs)
  {
    DisjointDistinct(s.k, f, s.queues[GroupQ(g)]);
    forall h: nat, p: nat, t: nat | Queued(s'.queues, GroupQ(h), p, t)
      ensures PcFits(s'.k, s'.pcs, GroupQ(h), t)
    {
      LeftFits(s, s', g, f, h, t);
    }
  }

  lemma LeftQuiet(s: Sys, s': Sys, g: nat, f: nat, h: nat, t: nat)
    requires Base(s) && g < |s.groups| && h < |s.groups| && FlagsSet(s, s', g, f)
    requires GroupQ(h) in s'.queues && t in s'.queues[GroupQ(h)]
    ensures t < |s'.k.tasks| && Fits(s'.k.tasks[t].flags, WIDTH32)
    ensures And(s.groups[g := f][h], s'.k.tasks[t].flags) == 0
  {
    LeftFits(s, s', g, f, h, t);
    assert Fits(s.k.tasks[t].flags, WIDTH32) && And(s.groups[h], s.k.tasks[t].flags) == 0;
  }

  lemma RaiseQuiet(s: Sys, s': Sys, g: nat, f: nat)
    requires Base(s) && g < |s.groups| && FlagsSet(s, s', g, f)
    ensures GroupQuiet(s'.k, s.groups[g := f], s'.queues)
  {
    forall h: nat, t: nat | h < |s.groups| && GroupQ(h) in s'.queues && t in s'.queues[GroupQ(h)]
      ensures Fits(s'.k.tasks[t].flags, WIDTH32) && And(s.groups[g := f][h], s'.k.tasks[t].flags) == 0
    {
      LeftQuiet(s, s', g, f, h, t);
    }
  }

  lemma RaiseBase(s: Sys, g: nat, bits: nat)
    requires Base(s) && g < |s.groups| && Fits(bits, WIDTH32)
    ensures Base(AfterRaise(s, g, bits))
  {
    var f, s' := Or(s.groups[g], bits), AfterRaise(s, g, bits);
    OrAndBits(s.groups[g], bits, WIDTH32);
    WakeEachEventIs(s.k, Matching(s.k, f, s.queues[GroupQ(g)]), 0);
    RaiseTyped(s, s', g, f);
    RaiseFits(s, s', g, f);
    RaiseQuiet(s, s', g, f);
  }

  lemma RaiseTyped(s: Sys, s': Sys, g: nat, f: nat)
    requires Typed(s) && g < |s.groups| && Fits(f, WIDTH32)
    requires Shape(s'.k) && |s'.k.tasks| == |s.k.tasks| && s'.k.highest == s.k.highest
    requires exists q :: Registered(s.k, q) &&
               s' == s.(k := s'.k, groups := s.groups[g := f], queues := s.queues[GroupQ(g) := q])
    ensures Typed(s')
  {}

  lemma LowerBase(s: Sys, g: nat, bits: nat)
    requires Base(s) && g < |s.groups| && Fits(bits, WIDTH32)
    ensures Base(s.(groups := s.groups[g := And(s.groups[g], Not(bits, WIDTH32))]))
  {
    var f := And(s.groups[g], Not(bits, WIDTH32));
    AndNotBits(s.groups[g], bits, WIDTH32);
    forall t | t in s.queues[GroupQ(g)] && t < |s.k.tasks|
      ensures And(f, s.k.tasks[t].flags) == 0
    {
      OrAndBits(s.groups[g], s.k.tasks[t].flags, WIDTH32);
      OrAndBits(f, s.k.tasks[t].flags, WIDTH32);
    }
  }

  // ---------------------------------------------------------------------- all steps

  lemma EffectBase(s: Sys, l: Label)
    requires Base(s) && Enabled(s, l)
    ensures Base(Effect(s, l))
  {
    match l
    case Register(r) => if |s.k.tasks| < MAX_TASKS { RegisterBase(s, r); }
    case SelectTask => SelectBase(s);
    case SysTick => TickBase(s);
    case Sleep(n) => SleepBase(s, n);
    case StartAcquire(m, timeout) => StartAcquireBase(s, m, timeout);
    case AcquirePass => AcquirePassBase(s);
    case ReleaseMutex(m) => ReleaseBase(s, m);
    case WaitSem(x, timeout, start) => WaitSemBase(s, x, timeout, start);
    case SignalSem(x, isr) => SignalBase(s, x); if !isr { BasePc(AfterSignal(s, x), Signalled); }
    case FlushSem(x, isr) => FlushPcBase(s, x, isr);
    case ReadySelf => ReadySelfBase(s);
    case WaitEvents(g, mask, timeout) => WaitEventsBase(s, g, mask, timeout);
    case RecheckEvents => RecheckBase(s);
    case RaiseEvents(g, bits) => RaiseBase(s, g, bits);
    case LowerEvents(g, bits) => LowerBase(s, g, bits);
  }

  lemma SleepBase(s: Sys, n: nat)
    requires Base(s) && s.k.current < |s.pcs|
    ensures Base(s.(k := AddSleeping(s.k, s.k.current, n)))
  {
    AddSleepingShape(s.k, s.k.current, n);
    BaseKernel(s, AddSleeping(s.k, s.k.current, n));
  }

  lemma StartAcquireBase(s: Sys, m: nat, timeout: nat)
    requires Base(s) && InApp(s) && m < |s.mutexes|
    ensures Base(Effect(s, StartAcquire(m, timeout)))
  {
    var s' := Effect(s, StartAcquire(m, timeout));
    var pc := Acquiring(m, timeout == WAIT_FOREVER, timeout + s.k.ticks);
    BasePc(s, pc);
    assert s' == s || s' == SetPc(s, pc);
  }

  lemma FlushPcBase(s: Sys, x: nat, isr: bool)
    requires Base(s) && Enabled(s, FlushSem(x, isr))
    ensures Base(Effect(s, FlushSem(x, isr)))
  {
    FlushBase(s, x);
    if !isr {
      WakeEachIs(s.k, s.queues[SemQ(x)], 0);
      BasePc(AfterFlush(s, x), Signalled);
    }
  }

  lemma BaseStep(s: Sys, l: Label, s': Sys)
    requires Base(s) && Step(s, l, s')
    ensures Base(s')
  {
    EffectBase(s, l);
    BasePending(Effect(s, l), Pends(s, l));
  }

  /** In every state of every run, orderly or not. */
  lemma {:induction false} BaseInRun(ss: seq<Sys>, ls: seq<Label>, i: nat)
    requires Run(ss, ls) && i < |ss|
    ensures Base(ss[i])
  {
    if i == 0 {
      InitBase(ss[0]);
    } else {
      var j := i - 1;
      BaseInRun(ss, ls, j);
      BaseStep(ss[j], ls[j], ss[j + 1]);
    }
  }
}
