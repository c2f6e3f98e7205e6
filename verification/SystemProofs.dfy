/** Every orderly step keeps the system invariant, so it holds in every state of every
    orderly run. */
module SystemProofs {
  import opened Tasks
  import opened Words
  import opened Scheduling
  import opened SchedulingProofs
  import opened Blocking
  import opened Fifos
  import opened Places
  import opened Systems

  ghost predicate InTask(s: Sys) {
    s.k.current < |s.pcs| && IsRunning(s.k, s.k.current)
  }

  /** The running task is outside all loops. */
  ghost predicate AtWork(s: Sys) {
    InTask(s) && s.pcs[s.k.current].App?
  }

  lemma InitInv(s: Sys)
    requires Init(s)
    ensures SysInv(s)
  {
    BootKeeps();
    forall g | 0 <= g < |s.groups|
      ensures Fits(s.groups[g], WIDTH32)
    {}
    forall r: QRef, p: nat, t: nat
      ensures !Queued(s.queues, r, p, t)
    {}
  }

  // ---------------------------------------------------------- steps of the kernel alone

  /** k' differs from k in what a kernel step may change: no task blocks, unblocks or
      changes its flags, and only a task outside a blocking loop may fall asleep. */
  ghost predicate KernelOnly(k: KState, k': KState, pcs: seq<Pc>) {
    && KInv(k') && |k'.tasks| == |k.tasks| == |pcs| && k'.highest == k.highest
    && forall t | 0 <= t < |k.tasks| ::
         && (k'.tasks[t].state.Blocked? <==> k.tasks[t].state.Blocked?)
         && k'.tasks[t].flags == k.tasks[t].flags
         && (k'.tasks[t].state.Sleeping? ==> k.tasks[t].state.Sleeping? || pcs[t].App?)
  }

  lemma KernelStep(s: Sys, k': KState)
    requires SysInv(s) && KernelOnly(s.k, k', s.pcs)
    ensures SysInv(s.(k := k'))
  {
    SameBlocked(s.k, k', s.queues);
  }

  lemma SelectStep(s: Sys)
    requires SysInv(s)
    ensures SysInv(s.(k := Select(s.k)))
  {
    SelectKeeps(s.k);
    if AnyReady(s.k) {
      var l, i := SelectPicks(s.k);
    } else {
      SelectStalls(s.k);
    }
    KernelStep(s, Select(s.k));
  }

  lemma TickStep(s: Sys)
    requires SysInv(s)
    ensures SysInv(s.(k := PortTick(s.k)))
  {
    TickKeeps(s.k);
    KernelStep(s, PortTick(s.k));
  }

  lemma SleepStep(s: Sys, n: nat)
    requires SysInv(s) && AtWork(s)
    ensures SysInv(s.(k := AddSleeping(s.k, s.k.current, n)))
  {
    SleepKeeps(s.k, s.k.current, n);
    KernelStep(s, AddSleeping(s.k, s.k.current, n));
  }

  lemma RegisterStep(s: Sys, r: TaskRec)
    requires SysInv(s) && |s.k.tasks| < MAX_TASKS
    requires r.priority <= PRIORITY_IDLE && r.basePriority == r.priority && r.state.Ready?
    ensures SysInv(s.(k := AddTask(s.k, r), pcs := s.pcs + [App]))
  {
    var k' := AddTask(s.k, r);
    AddTaskKeeps(s.k, r);
    SameBlocked(s.k, k', s.queues);
    forall q: QRef, p: nat, t: nat | Queued(s.queues, q, p, t)
      ensures PcFits(k', s.pcs + [App], q, t)
    {
      assert PcFits(s.k, s.pcs, q, t);
    }
    GroupQuietGrows(s, k');
  }

  lemma GroupQuietGrows(s: Sys, k': KState)
    requires Typed(s) && GroupQuiet(s.k, s.groups, s.queues) && |k'.tasks| > |s.k.tasks|
    requires forall t | 0 <= t < |s.k.tasks| :: k'.tasks[t].flags == s.k.tasks[t].flags
    ensures GroupQuiet(k', s.groups, s.queues)
  {
    forall g, t | 0 <= g < |s.groups| && GroupQ(g) in s.queues && t in s.queues[GroupQ(g)] && t < |k'.tasks|
      ensures Fits(k'.tasks[t].flags, WIDTH32) && And(s.groups[g], k'.tasks[t].flags) == 0
    {
      assert Registered(s.k, s.queues[GroupQ(g)]);
    }
  }

  // ------------------------------------------------------- one queue and the others

  /** Queue r of the system becomes q and the kernel state k'; nothing else changes. */
  function WithQueue(s: Sys, k': KState, r: QRef, q: seq<nat>): Sys {
    s.(k := k', queues := s.queues[r := q])
  }

  lemma QueueTyped(s: Sys, k': KState, r: QRef, q: seq<nat>)
    requires Typed(s) && Shape(k') && |k'.tasks| == |s.k.tasks| && k'.highest == s.k.highest && Registered(k', q)
    ensures Typed(WithQueue(s, k', r, q))
  {}

  /** A queue that only loses entries, while tasks only wake up, keeps the fit between
      queues and what their tasks do. */
  lemma PcInvLoses(s: Sys, k': KState, r: QRef, q: seq<nat>)
    requires PcInv(s.k, s.queues, s.pcs) && r in s.queues && |k'.tasks| == |s.k.tasks|
    requires forall t | t in q :: t in s.queues[r]
    requires forall t | 0 <= t < |s.k.tasks| :: k'.tasks[t].state.Sleeping? ==> s.k.tasks[t].state.Sleeping?
    requires forall r', t | r' in s.queues && t in s.queues[r'] && t < |s.k.tasks| && (r' == r ==> t in q) ::
               k'.tasks[t].flags == s.k.tasks[t].flags
    ensures PcInv(k', s.queues[r := q], s.pcs)
  {
    var qs := s.queues[r := q];
    forall r': QRef, p: nat, t: nat | Queued(qs, r', p, t)
      ensures PcFits(k', s.pcs, r', t)
    {
      assert t in s.queues[r'];
      var p' :| 0 <= p' < |s.queues[r']| && s.queues[r'][p'] == t;
      assert Queued(s.queues, r', p', t);
    }
  }

  /** The running task joins queue r, whose kind fits what it is doing. */
  lemma PcInvGains(s: Sys, k': KState, r: QRef, pcs: seq<Pc>)
    requires PcInv(s.k, s.queues, s.pcs) && r in s.queues && Place(s.k, s.queues)
    requires IsRunning(s.k, s.k.current) && |k'.tasks| == |s.k.tasks| == |s.pcs|
    requires k'.tasks[s.k.current].state.Blocked?
    requires forall t | 0 <= t < |s.k.tasks| && t != s.k.current ::
               k'.tasks[t].state == s.k.tasks[t].state && k'.tasks[t].flags == s.k.tasks[t].flags
    requires |pcs| == |s.pcs| && forall t | 0 <= t < |pcs| && t != s.k.current :: pcs[t] == s.pcs[t]
    requires PcFits(k', pcs, r, s.k.current)
    ensures PcInv(k', s.queues[r := s.queues[r] + [s.k.current]], pcs)
  {
    var c := s.k.current;
    var qs := s.queues[r := s.queues[r] + [c]];
    forall r': QRef, p: nat, t: nat | Queued(qs, r', p, t)
      ensures PcFits(k', pcs, r', t)
    {
      if !(r' == r && p == |s.queues[r]|) {
        assert Queued(s.queues, r', p, t);
      }
    }
  }

  // -------------------------------------------------------------------------- mutex

  /** A running or ready task is in no queue, so its own place in a call is free to change. */
  lemma PcStep(s: Sys, pc: Pc)
    requires SysInv(s) && s.k.current < |s.pcs| && PcInRange(s, pc)
    requires s.k.tasks[s.k.current].state.Running? || s.k.tasks[s.k.current].state.Ready?
    ensures SysInv(SetPc(s, pc))
  {
    var c, s' := s.k.current, SetPc(s, pc);
    forall r: QRef, p: nat, t: nat | Queued(s.queues, r, p, t)
      ensures PcFits(s.k, s'.pcs, r, t)
    {
      assert PcFits(s.k, s.pcs, r, t);
    }
  }

  /** The mutex was free: the caller owns it now and leaves the loop. */
  lemma AcquiredStep(s: Sys, m: nat)
    requires SysInv(s) && InTask(s) && s.pcs[s.k.current].Acquiring? && s.pcs[s.k.current].m == m
    requires s.mutexes[m].count == 0
    ensures SysInv(AfterAcquirePass(s))
  {
    var s1 := s.(mutexes := s.mutexes[m := MutexCore(1, Some(s.k.current))]);
    PcStep(s1, App);
    assert AfterAcquirePass(s) == SetPc(s1, App);
  }

  lemma TimedOutStep(s: Sys, m: nat)
    requires SysInv(s) && InTask(s) && s.pcs[s.k.current].Acquiring? && s.pcs[s.k.current].m == m
    requires s.mutexes[m].count == 1 && !s.pcs[s.k.current].forever && s.k.ticks > s.pcs[s.k.current].end
    ensures SysInv(AfterAcquirePass(s))
  {
    PcStep(s, App);
    assert s.mutexes[m := s.mutexes[m]] == s.mutexes;
    assert AfterAcquirePass(s) == SetPc(s, App);
  }

  /** A boosted owner changes nothing but its priority. */
  lemma BoostStep(s: Sys, o: nat, t: nat)
    requires SysInv(s) && o < |s.k.tasks| && t < |s.k.tasks|
    ensures SysInv(s.(k := Boost(s.k, o, t)))
  {
    var k' := Boost(s.k, o, t);
    assert GoodPriority(s.k.tasks[t], s.k.highest);
    if Lower(s.k.tasks[o].priority, s.k.tasks[t].priority) {
      BoostKeeps(s.k, o, s.k.tasks[t].priority);
    }
    KernelStep(s, k');
  }

  /** The running task, inside the acquire loop of a held mutex, joins its queue. */
  lemma MutexBlockStep(s: Sys, m: nat)
    requires SysInv(s) && InTask(s) && s.pcs[s.k.current].Acquiring? && s.pcs[s.k.current].m == m
    requires s.mutexes[m].count == 1
    ensures SysInv(WithQueue(s, SetState(s.k, s.k.current, Blocked), MutexQ(m),
                             s.queues[MutexQ(m)] + [s.k.current]))
  {
    var c, r := s.k.current, MutexQ(m);
    var k', q := SetState(s.k, c, Blocked), s.queues[r] + [c];
    var s' := WithQueue(s, k', r, q);
    BlockPlace(s.k, s.queues, r);
    QueueTyped(s, k', r, q);
    PcInvGains(s, k', r, s.pcs);
  }

  /** What a pass over a held mutex does while the caller may wait and has room. */
  lemma MustWaitIs(s: Sys, m: nat, o: nat)
    requires Typed(s) && InTask(s) && s.pcs[s.k.current].Acquiring? && s.pcs[s.k.current].m == m
    requires s.mutexes[m] == MutexCore(1, Some(o)) && |s.queues[MutexQ(m)]| < MAX_TASKS
    requires s.pcs[s.k.current].forever || s.k.ticks <= s.pcs[s.k.current].end
    ensures var c, k1 := s.k.current, Boost(s.k, o, s.k.current);
      AfterAcquirePass(s) == WithQueue(s, SetState(k1, c, Blocked), MutexQ(m), s.queues[MutexQ(m)] + [c])
  {}

  lemma MustWaitStep(s: Sys, m: nat, o: nat)
    requires SysInv(s) && InTask(s) && s.pcs[s.k.current].Acquiring? && s.pcs[s.k.current].m == m
    requires s.mutexes[m] == MutexCore(1, Some(o))
    requires s.pcs[s.k.current].forever || s.k.ticks <= s.pcs[s.k.current].end
    ensures SysInv(AfterAcquirePass(s))
  {
    assert |s.queues[MutexQ(m)]| < MAX_TASKS by { RoomToBlock(s.k, s.queues, MutexQ(m)); }
    MustWaitIs(s, m, o);
    var s1 := s.(k := Boost(s.k, o, s.k.current));
    BoostStep(s, o, s.k.current);
    MutexBlockStep(s1, m);
  }

  lemma AcquirePassStep(s: Sys)
    requires SysInv(s) && InTask(s) && s.pcs[s.k.current].Acquiring?
    ensures SysInv(AfterAcquirePass(s))
  {
    var pc := s.pcs[s.k.current];
    var core := s.mutexes[pc.m];
    if core.count <= 0 {
      AcquiredStep(s, pc.m);
    } else if !pc.forever && s.k.ticks > pc.end {
      TimedOutStep(s, pc.m);
    } else {
      MustWaitStep(s, pc.m, core.owner.value);
    }
  }

  /** The first task of queue r leaves it for the ready tasks. */
  lemma WakeHead(s: Sys, r: QRef)
    requires SysInv(s) && r in s.queues && s.queues[r] != []
    ensures var w, q := s.queues[r][0], s.queues[r][1..];
      && w < |s.k.tasks| && s.k.tasks[w].state.Blocked? && w !in q && PcFits(s.k, s.pcs, r, w)
      && var s' := WithQueue(s, SetReady(s.k, w), r, q);
         && Typed(s') && Place(s'.k, s'.queues) && PcInv(s'.k, s'.queues, s'.pcs)
         && SemQuiet(s'.sems, s'.queues) && GroupQuiet(s'.k, s'.groups, s'.queues)
  {
    var w, q := s.queues[r][0], s.queues[r][1..];
    assert Queued(s.queues, r, 0, w);
    forall i | 0 <= i < |q|
      ensures q[i] != w
    {
      assert Queued(s.queues, r, i + 1, q[i]);
    }
    WakePlace(s.k, s.queues, r, 0);
    assert Without(s.queues[r], 0) == q;
    SetReadyShape(s.k, w);
    QueueTyped(s, SetReady(s.k, w), r, q);
    PcInvLoses(s, SetReady(s.k, w), r, q);
  }

  lemma MutexFree(s: Sys, m: nat)
    requires SysInv(s) && m < |s.mutexes|
    ensures SysInv(s.(mutexes := s.mutexes[m := MutexCore(0, None)]))
  {}

  lemma ReleaseIs(s: Sys, m: nat)
    requires Typed(s) && m < |s.mutexes|
    ensures AfterRelease(s, m) ==
            if s.mutexes[m].owner != Some(s.k.current) then s
            else
              var s1, q := s.(mutexes := s.mutexes[m := MutexCore(0, None)]), s.queues[MutexQ(m)];
              if q == [] then s1 else WithQueue(s1, SetReady(s.k, q[0]), MutexQ(m), q[1..])
  {
    assert s.mutexes[m := s.mutexes[m]] == s.mutexes;
    assert s.queues[MutexQ(m) := s.queues[MutexQ(m)]] == s.queues;
    assert GoodCore(s.k, s.mutexes[m]);
  }

  /** The owner lets go, and the first waiter is woken. */
  lemma ReleaseStep(s: Sys, m: nat)
    requires SysInv(s) && AtWork(s) && m < |s.mutexes|
    ensures SysInv(AfterRelease(s, m))
  {
    ReleaseIs(s, m);
    if s.mutexes[m].owner == Some(s.k.current) {
      MutexFree(s, m);
      if s.queues[MutexQ(m)] != [] {
        WakeHead(s.(mutexes := s.mutexes[m := MutexCore(0, None)]), MutexQ(m));
      }
    }
  }

  // ---------------------------------------------------------------------- semaphore

  lemma WaitSemStep(s: Sys, x: nat, timeout: nat, start: nat)
    requires SysInv(s) && AtWork(s) && x < |s.sems|
    ensures SysInv(AfterWaitSem(s, x, timeout, start))
  {
    var core, r, c := s.sems[x], SemQ(x), s.k.current;
    var s' := AfterWaitSem(s, x, timeout, start);
    if core.count > 0 || timeout == 0 || (timeout != WAIT_FOREVER && s.k.ticks > timeout + start) {
      assert s'.queues == s.queues;
    } else {
      RoomToBlock(s.k, s.queues, r);
      BlockPlace(s.k, s.queues, r);
      var k', q := SetState(s.k, c, Blocked), s.queues[r] + [c];
      QueueTyped(s, k', r, q);
      PcInvGains(s, k', r, s.pcs);
      assert s'.sems == s.sems;
      assert s' == WithQueue(s, k', r, q);
    }
  }

  /** One waiter of a semaphore is handed its token. */
  lemma HandOver(s: Sys, x: nat)
    requires SysInv(s) && x < |s.sems| && s.queues[SemQ(x)] != []
    ensures var q := s.queues[SemQ(x)];
      q[0] < |s.k.tasks| && SysInv(WithQueue(s, SetReady(s.k, q[0]), SemQ(x), q[1..]))
  {
    var q := s.queues[SemQ(x)];
    WakeHead(s, SemQ(x));
  }

  lemma SignalStep(s: Sys, x: nat)
    requires SysInv(s) && x < |s.sems|
    ensures SysInv(AfterSignal(s, x))
  {
    var r, s' := SemQ(x), AfterSignal(s, x);
    if s.queues[r] != [] {
      HandOver(s, x);
      assert s'.sems == s.sems;
      assert s' == WithQueue(s, SetReady(s.k, s.queues[r][0]), r, s.queues[r][1..]);
    } else {
      assert s'.queues == s.queues;
    }
  }

  /** s' is s with another kernel state and with q in queue r. */
  ghost predicate OnlyQueueDiffers(s: Sys, s': Sys, r: QRef, q: seq<nat>) {
    && s'.queues == s.queues[r := q]
    && s'.mutexes == s.mutexes && s'.sems == s.sems && s'.groups == s.groups
    && s'.pcs == s.pcs && s'.pending == s.pending
  }

  /** s1 is s after the first n waiters of q were handed a token. */
  ghost predicate Flushed(s: Sys, s1: Sys, x: nat, q: seq<nat>, n: nat)
    requires Shape(s.k)
  {
    && n <= |q| && Registered(s.k, q[..n]) && s1.k == WakeEach(s.k, q[..n])
    && OnlyQueueDiffers(s, s1, SemQ(x), q[n..])
  }

  lemma HandOverTo(s: Sys, x: nat, t: nat, rest: seq<nat>) returns (s': Sys)
    requires SysInv(s) && x < |s.sems| && s.queues[SemQ(x)] == [t] + rest
    ensures t < |s.k.tasks| && s'.k == SetReady(s.k, t)
    ensures OnlyQueueDiffers(s, s', SemQ(x), rest) && SysInv(s')
  {
    HandOver(s, x);
    assert ([t] + rest)[1..] == rest;
    s' := WithQueue(s, SetReady(s.k, t), SemQ(x), rest);
  }

  lemma OneOff(q: seq<nat>, n: nat, next: nat)
    requires n < |q| && next == n + 1
    ensures q[n..] == [q[n]] + q[next..]
  {}

  lemma FlushOne(s: Sys, s1: Sys, x: nat, q: seq<nat>, n: nat, next: nat) returns (s': Sys)
    requires Typed(s) && x < |s.sems| && n < |q| && next == n + 1 && Registered(s.k, q[..next])
    requires SysInv(s1) && Flushed(s, s1, x, q, n)
    ensures SysInv(s') && Flushed(s, s', x, q, next)
  {
    OneOff(q, n, next);
    WakeEachSnoc(s.k, q, n);
    s' := HandOverTo(s1, x, q[n], q[next..]);
    OnlyQueueTwice(s, s1, s', SemQ(x), q[n..], q[next..]);
  }

  /** A flush is as many hand-overs as there are waiters. */
  lemma {:induction false} FlushUpTo(s: Sys, x: nat, q: seq<nat>, n: nat) returns (s': Sys)
    requires SysInv(s) && x < |s.sems| && q == s.queues[SemQ(x)] && n <= |q|
    ensures SysInv(s') && Flushed(s, s', x, q, n)
  {
    if n == 0 {
      s' := s;
      assert q[..0] == [] && q[0..] == q;
    } else {
      var s1 := FlushUpTo(s, x, q, n - 1);
      s' := FlushOne(s, s1, x, q, n - 1, n);
    }
  }

  lemma FlushStep(s: Sys, x: nat)
    requires SysInv(s) && x < |s.sems|
    ensures SysInv(AfterFlush(s, x))
  {
    var q := s.queues[SemQ(x)];
    var s' := FlushUpTo(s, x, q, |q|);
    assert q[..|q|] == q && q[|q|..] == [];
    assert s' == AfterFlush(s, x);
  }

  // -------------------------------------------------------------------- event group

  /** The state once the running task waits for flags in the queue of group g. */
  function GroupBlocked(s: Sys, g: nat, mask: nat, end: nat): Sys
    requires s.k.current < |s.k.tasks| && s.k.current < |s.pcs| && GroupQ(g) in s.queues
  {
    var c := s.k.current;
    s.(k := SetFlags(SetState(s.k, c, Blocked), c, mask),
       queues := s.queues[GroupQ(g) := s.queues[GroupQ(g)] + [c]],
       pcs := s.pcs[c := Waiting(g, mask, end)])
  }

  /** The running task joins the queue of group g for flags of which none is set. */
  lemma GroupBlockStep(s: Sys, g: nat, mask: nat, end: nat)
    requires SysInv(s) && AtWork(s) && g < |s.groups| && Fits(mask, WIDTH32)
    requires And(s.groups[g], mask) == 0
    ensures SysInv(GroupBlocked(s, g, mask, end))
  {
    var c, r, s' := s.k.current, GroupQ(g), GroupBlocked(s, g, mask, end);
    GroupBlockParts(s, g, mask, end);
    GroupQuietGains(s, s'.k, g);
  }

  lemma GroupBlockParts(s: Sys, g: nat, mask: nat, end: nat)
    requires SysInv(s) && AtWork(s) && g < |s.groups| && Fits(mask, WIDTH32)
    ensures var s' := GroupBlocked(s, g, mask, end);
      && Typed(s') && Place(s'.k, s'.queues) && PcInv(s'.k, s'.queues, s'.pcs)
  {
    var c, r, s' := s.k.current, GroupQ(g), GroupBlocked(s, g, mask, end);
    var k1 := SetState(s.k, c, Blocked);
    BlockPlace(s.k, s.queues, r);
    FlagsPlace(k1, s'.queues, c, mask);
    QueueTyped(s, s'.k, r, s'.queues[r]);
    PcInvGains(s, s'.k, r, s'.pcs);
  }

  lemma GroupQuietGains(s: Sys, k': KState, g: nat)
    requires SysInv(s) && InTask(s) && g < |s.groups| && |k'.tasks| == |s.k.tasks|
    requires Fits(k'.tasks[s.k.current].flags, WIDTH32) && And(s.groups[g], k'.tasks[s.k.current].flags) == 0
    requires forall t | 0 <= t < |s.k.tasks| && t != s.k.current :: k'.tasks[t].flags == s.k.tasks[t].flags
    ensures GroupQuiet(k', s.groups, s.queues[GroupQ(g) := s.queues[GroupQ(g)] + [s.k.current]])
  {
    var qs := s.queues[GroupQ(g) := s.queues[GroupQ(g)] + [s.k.current]];
    forall h, t | 0 <= h < |s.groups| && GroupQ(h) in qs && t in qs[GroupQ(h)] && t < |k'.tasks|
      ensures Fits(k'.tasks[t].flags, WIDTH32) && And(s.groups[h], k'.tasks[t].flags) == 0
    {
      RoomToBlock(s.k, s.queues, GroupQ(h));
    }
  }

  lemma FlagsPlace(k: KState, qs: Queues, t: nat, f: nat)
    requires Place(k, qs) && t < |k.tasks|
    ensures Place(SetFlags(k, t, f), qs)
  {
    ReadyBitsKept(k, SetFlags(k, t, f));
  }

  /** The running task is in no queue, so a recheck that ends the wait removes nothing. */
  lemma RecheckStep(s: Sys)
    requires SysInv(s) && InTask(s) && s.pcs[s.k.current].Waiting?
    ensures SysInv(AfterRecheck(s))
  {
    var r := GroupQ(s.pcs[s.k.current].g);
    RoomToBlock(s.k, s.queues, r);
    RemovedAbsent(s.queues[r], s.k.current);
    var s' := AfterRecheck(s);
    assert s'.queues == s.queues;
    PcStep(s, App);
    assert s' == s || s' == SetPc(s, App);
  }

  /** Waking one waiter of a group, wherever it is in the queue. */
  lemma WakeWaiter(s: Sys, g: nat, j: nat)
    requires SysInv(s) && g < |s.groups| && j < |s.queues[GroupQ(g)]|
    ensures var r, q := GroupQ(g), s.queues[GroupQ(g)];
      q[j] < |s.k.tasks| &&
      SysInv(WithQueue(s, SetFlags(SetReady(s.k, q[j]), q[j], 0), r, Without(q, j)))
  {
    var r, q := GroupQ(g), s.queues[GroupQ(g)];
    var w := q[j];
    assert Queued(s.queues, r, j, w);
    WakePlace(s.k, s.queues, r, j);
    var k1, q' := SetReady(s.k, w), Without(q, j);
    FlagsPlace(k1, s.queues[r := q'], w, 0);
    var k' := SetFlags(k1, w, 0);
    WakenNowhere(s, r, j);
    QueueTyped(s, k', r, q');
    PcInvLoses(s, k', r, q');
    var s' := WithQueue(s, k', r, q');
    assert GroupQuiet(k', s.groups, s'.queues);
  }

  /** A queued task has no other entry in any queue. */
  lemma WakenNowhere(s: Sys, r: QRef, j: nat)
    requires Place(s.k, s.queues) && r in s.queues && j < |s.queues[r]|
    ensures s.queues[r][j] !in Without(s.queues[r], j)
    ensures forall r' | r' in s.queues && r' != r :: s.queues[r][j] !in s.queues[r']
  {
    var q, w := s.queues[r], s.queues[r][j];
    assert Queued(s.queues, r, j, w);
    forall i | 0 <= i < |q| && i != j
      ensures q[i] != w
    {
      assert Queued(s.queues, r, i, q[i]);
    }
    forall r', i | r' in s.queues && r' != r && 0 <= i < |s.queues[r']|
      ensures s.queues[r'][i] != w
    {
      assert Queued(s.queues, r', i, s.queues[r'][i]);
    }
  }

  lemma WakeMiddle(s1: Sys, g: nat, d: seq<nat>, t: nat, rest: seq<nat>) returns (s': Sys)
    requires SysInv(s1) && g < |s1.groups| && s1.queues[GroupQ(g)] == d + [t] + rest
    ensures t < |s1.k.tasks| && s'.k == SetFlags(SetReady(s1.k, t), t, 0)
    ensures OnlyQueueDiffers(s1, s', GroupQ(g), d + rest) && SysInv(s')
  {
    var q := d + [t] + rest;
    assert q[|d|] == t;
    WakeWaiter(s1, g, |d|);
    assert Without(q, |d|) == d + rest;
    s' := WithQueue(s1, SetFlags(SetReady(s1.k, t), t, 0), GroupQ(g), d + rest);
  }

  lemma OnlyQueueTwice(s: Sys, s1: Sys, s2: Sys, r: QRef, q1: seq<nat>, q2: seq<nat>)
    requires OnlyQueueDiffers(s, s1, r, q1) && OnlyQueueDiffers(s1, s2, r, q2)
    ensures OnlyQueueDiffers(s, s2, r, q2)
  {}

  lemma SplitRest(d: seq<nat>, q: seq<nat>, n: nat)
    requires n < |q|
    ensures d + q[n..] == d + [q[n]] + q[n + 1..]
  {}

  /** One waiter t of the loop of setEvents: w was woken and d kept before it. */
  lemma RaiseOne(s: Sys, s1: Sys, g: nat, w: seq<nat>, d: seq<nat>, t: nat, rest: seq<nat>, wake: bool)
    returns (s': Sys)
    requires Typed(s) && g < |s.groups| && Registered(s.k, w + [t])
    requires Registered(s.k, w) && s1.k == WakeEachEvent(s.k, w)
    requires SysInv(s1) && OnlyQueueDiffers(s, s1, GroupQ(g), d + [t] + rest)
    ensures s'.k == WakeEachEvent(s.k, if wake then w + [t] else w)
    ensures OnlyQueueDiffers(s, s', GroupQ(g), (if wake then d else d + [t]) + rest) && SysInv(s')
  {
    if wake {
      WakeEachEventSnoc(s.k, w, t);
      s' := WakeMiddle(s1, g, d, t, rest);
      OnlyQueueTwice(s, s1, s', GroupQ(g), d + [t] + rest, d + rest);
    } else {
      s' := s1;
    }
  }

  /** s1 is s after the loop of setEvents has looked at the first n waiters of q. */
  ghost predicate Raised(s: Sys, s1: Sys, g: nat, f: nat, q: seq<nat>, n: nat)
    requires Shape(s.k)
  {
    && n <= |q| && Registered(s.k, q[..n]) && s1.k == WakeEachEvent(s.k, Matching(s.k, f, q[..n]))
    && OnlyQueueDiffers(s, s1, GroupQ(g), Disjoint(s.k, f, q[..n]) + q[n..])
  }

  lemma RaiseNext(s: Sys, s1: Sys, g: nat, f: nat, q: seq<nat>, n: nat) returns (s': Sys)
    requires Typed(s) && g < |s.groups| && n < |q| && Registered(s.k, q[..n + 1])
    requires SysInv(s1) && Raised(s, s1, g, f, q, n)
    ensures SysInv(s') && Raised(s, s', g, f, q, n + 1)
  {
    var w, d, t := Matching(s.k, f, q[..n]), Disjoint(s.k, f, q[..n]), q[n];
    SplitSnoc(s.k, f, q, n);
    SplitRest(d, q, n);
    s' := RaiseOne(s, s1, g, w, d, t, q[n + 1..], And(f, s.k.tasks[t].flags) != 0);
  }

  /** The loop of setEvents, waiter by waiter. */
  lemma {:induction false} RaiseUpTo(s: Sys, g: nat, f: nat, q: seq<nat>, n: nat) returns (s': Sys)
    requires SysInv(s) && g < |s.groups| && q == s.queues[GroupQ(g)] && n <= |q|
    ensures SysInv(s') && Raised(s, s', g, f, q, n)
  {
    if n == 0 {
      s' := s;
      assert Disjoint(s.k, f, q[..0]) + q[0..] == q;
    } else {
      var s1 := RaiseUpTo(s, g, f, q, n - 1);
      s' := RaiseNext(s, s1, g, f, q, n - 1);
    }
  }

  /** A group may get any flags that none of its waiters waits for. */
  lemma NewFlags(s: Sys, g: nat, f: nat)
    requires SysInv(s) && g < |s.groups| && Fits(f, WIDTH32)
    requires forall t | t in s.queues[GroupQ(g)] && t < |s.k.tasks| :: And(f, s.k.tasks[t].flags) == 0
    ensures SysInv(s.(groups := s.groups[g := f]))
  {}

  lemma RaiseStep(s: Sys, g: nat, bits: nat)
    requires SysInv(s) && g < |s.groups| && Fits(bits, WIDTH32)
    ensures SysInv(AfterRaise(s, g, bits))
  {
    var f, q := Or(s.groups[g], bits), s.queues[GroupQ(g)];
    OrAndBits(s.groups[g], bits, WIDTH32);
    var s1 := RaiseUpTo(s, g, f, q, |q|);
    assert q[..|q|] == q && q[|q|..] == [];
    assert Disjoint(s.k, f, q) + [] == Disjoint(s.k, f, q);
    forall t | t in s1.queues[GroupQ(g)] && t < |s1.k.tasks|
      ensures And(f, s1.k.tasks[t].flags) == 0
    {
      MatchingOrDisjoint(s.k, f, q, t);
      OthersKept(s.k, Matching(s.k, f, q), t);
    }
    NewFlags(s1, g, f);
    assert s1.(groups := s.groups[g := f]) == AfterRaise(s, g, bits);
  }

  lemma LowerStep(s: Sys, g: nat, bits: nat)
    requires SysInv(s) && g < |s.groups| && Fits(bits, WIDTH32)
    ensures SysInv(s.(groups := s.groups[g := And(s.groups[g], Not(bits, WIDTH32))]))
  {
    var f := And(s.groups[g], Not(bits, WIDTH32));
    AndNotBits(s.groups[g], bits, WIDTH32);
    forall t | t in s.queues[GroupQ(g)] && t < |s.k.tasks|
      ensures And(f, s.k.tasks[t].flags) == 0
    {
      OrAndBits(s.groups[g], s.k.tasks[t].flags, WIDTH32);
      OrAndBits(f, s.k.tasks[t].flags, WIDTH32);
    }
    NewFlags(s, g, f);
  }

  // ---------------------------------------------------------------------- all steps

  lemma WaitEventsIs(s: Sys, g: nat, mask: nat, timeout: nat, end: nat)
    requires Typed(s) && g < |s.groups| && |s.queues[GroupQ(g)]| < MAX_TASKS
    requires end == s.k.ticks + timeout
    ensures AfterWaitEvents(s, g, mask, timeout) ==
            if And(s.groups[g], mask) != 0 || timeout == 0 then s else GroupBlocked(s, g, mask, end)
  {}

  lemma WaitEventsStep(s: Sys, g: nat, mask: nat, timeout: nat, end: nat)
    requires SysInv(s) && AtWork(s) && g < |s.groups| && Fits(mask, WIDTH32)
    requires end == s.k.ticks + timeout
    ensures SysInv(AfterWaitEvents(s, g, mask, timeout))
  {
    assert |s.queues[GroupQ(g)]| < MAX_TASKS by { RoomToBlock(s.k, s.queues, GroupQ(g)); }
    WaitEventsIs(s, g, mask, timeout, end);
    if And(s.groups[g], mask) == 0 && timeout != 0 {
      GroupBlockStep(s, g, mask, end);
    }
  }

  lemma StartAcquireStep(s: Sys, m: nat, timeout: nat)
    requires SysInv(s) && AtWork(s) && Enabled(s, StartAcquire(m, timeout))
    ensures SysInv(Effect(s, StartAcquire(m, timeout)))
  {
    var s' := Effect(s, StartAcquire(m, timeout));
    var pc := Acquiring(m, timeout == WAIT_FOREVER, timeout + s.k.ticks);
    PcStep(s, pc);
    assert s' == s || s' == SetPc(s, pc);
  }
}
