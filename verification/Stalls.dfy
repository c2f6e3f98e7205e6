/** Runs in which a task blocks while nobody else is ready and goes on executing: it queues
    up again and again, until the queue is full and the next task to wait is dropped; and
    a mutex is forgotten by everybody but a task that waits for it. */
module Stalls {
  import opened Tasks
  import opened Scheduling
  import opened SchedulingProofs
  import opened Blocking
  import opened Places
  import opened Systems
  import opened Windows
  import opened MutexWaits
  import opened Breakdowns

  /** One more step of any run. */
  lemma Goes(s: Sys, l: Label) returns (s': Sys)
    requires Reached(s, false) && Enabled(s, l)
    ensures Step(s, l, s') && Reached(s', false) && Typed(s')
  {
    ReachedStep(s, l, false);
    s' := After(s, l);
  }

  // -------------------------------------------------- a semaphore waiter that waits again

  function Twos(n: nat): (q: seq<nat>)
    ensures |q| == n
  {
    seq(n, i => 2)
  }

  lemma OneMoreTwo(n: nat, next: nat)
    requires n < MAX_TASKS && next == n + 1
    ensures Enqueued(Twos(n), 2) == Twos(next)
  {}

  /** Task 2 is current and blocked, with n entries in the queue of the semaphore; task 1
      sleeps until tick 1. */
  ghost predicate Stalled(s: Sys, n: nat) {
    && At(s, 2, Sleeping, Blocked, {(0, 15)}, App, App) && Objects(s, MutexCore(0, None), [], Twos(n), [])
    && s.k.ticks == 0 && s.k.sleeping == {1} && |s.k.wake| == MAX_TASKS && s.k.wake[1] == 1
  }

  /** Waiting without limit, on the semaphore that has no tokens. */
  const WAIT_CALL := WaitSem(0, WAIT_FOREVER, 0)

  lemma WaitsIs(s: Sys, q: seq<nat>)
    requires Typed(s) && Enabled(s, WAIT_CALL) && Objects(s, MutexCore(0, None), [], q, [])
    requires !s.k.tasks[s.k.current].state.Ready?
    ensures WaitResult(s, 0, WAIT_FOREVER, 0).Joined?
    ensures After(s, WAIT_CALL) ==
            s.(k := Scheduling.SetState(s.k, s.k.current, Blocked),
               queues := Three([], Enqueued(q, s.k.current), []), pending := true)
  {
    OneOfThree([], q, [], Enqueued(q, s.k.current));
    assert s.sems[0 := s.sems[0]] == s.sems;
  }

  lemma FirstWait(s: Sys, s': Sys)
    requires SecondAlone(s, MutexCore(0, None), 1) && Step(s, WAIT_CALL, s') && Typed(s')
    ensures Stalled(s', 1)
  {
    WaitsIs(s, []);
    assert Enqueued([], 2) == Twos(1);
    SameBits(s.k, s'.k, {(0, 15)});
  }

  lemma NobodyElse(s: Sys, n: nat)
    requires Stalled(s, n)
    ensures After(s, SelectTask) == s.(pending := false)
  {
    NobodyBits(s.k, {(0, 15)});
  }

  lemma WaitsAgain(s: Sys, s': Sys, n: nat, next: nat)
    requires Stalled(s, n) && n < MAX_TASKS && next == n + 1 && Step(s, WAIT_CALL, s') && Typed(s')
    ensures Stalled(s', next)
  {
    WaitsIs(s, Twos(n));
    OneMoreTwo(n, next);
    SameBits(s.k, s'.k, {(0, 15)});
  }

  lemma SecondAloneReached(n: nat) returns (s: Sys)
    ensures Reached(s, false) && SecondAlone(s, MutexCore(0, None), n)
  {
    s := TwoTasks();
    s := SecondTakesOver(s, MutexCore(0, None), n);
    ReachedFacts(s, true);
  }

  lemma StartsWaiting() returns (s: Sys)
    ensures Reached(s, false) && Stalled(s, 1)
  {
    var s0 := SecondAloneReached(1);
    s := Goes(s0, WAIT_CALL);
    FirstWait(s0, s);
  }

  /** The switch it asks for finds nobody, and it calls wait again. */
  lemma GoesRound(s: Sys, n: nat, next: nat) returns (s': Sys)
    requires Reached(s, false) && Stalled(s, n) && n < MAX_TASKS && next == n + 1
    ensures Reached(s', false) && Stalled(s', next)
  {
    NobodyElse(s, n);
    var s1 := Goes(s, SelectTask);
    s' := Goes(s1, WAIT_CALL);
    WaitsAgain(s1, s', n, next);
  }

  /** A task that waits on a semaphore while nobody else is ready queues up again each time
      it calls wait: for every number of entries the queue has room for there is a run in
      which that one task has them all. */
  lemma {:induction false} WaiterQueuesAgain(n: nat) returns (s: Sys)
    requires 1 <= n <= MAX_TASKS
    ensures Reached(s, false) && Stalled(s, n)
  {
    if n == 1 {
      s := StartsWaiting();
    } else {
      var h := n - 1;
      var s0 := WaiterQueuesAgain(h);
      s := GoesRound(s0, h, n);
    }
  }

  // ----------------------------------------------------------------- a task that is dropped

  lemma FirstWakes(s: Sys, s': Sys)
    requires Stalled(s, 32) && Step(s, SysTick, s') && Typed(s')
    ensures At(s', 2, Ready, Blocked, {(0, 15), (1, 1)}, App, App)
    ensures Objects(s', MutexCore(0, None), [], Twos(32), []) && s'.k.sleeping == {}
  {
    TickWakes(s.k, 1);
    ReadyBits(s.k, 1, 1, {(0, 15)});
    assert {(0, 15)} + {(1, 1)} == {(0, 15), (1, 1)};
    SameBits(SetReady(s.k, 1), s'.k, {(0, 15), (1, 1)});
  }

  lemma FirstRuns(s: Sys, s': Sys, pb: Pc)
    requires At(s, 2, Ready, Blocked, {(0, 15), (1, 1)}, App, pb) && Step(s, SelectTask, s') && Typed(s')
    ensures At(s', 1, Running, Blocked, {(0, 15)}, App, pb) && s' == s.(k := s'.k, pending := false)
    ensures s'.k.sleeping == s.k.sleeping && s'.k.ticks == s.k.ticks
  {
    SelectBits(s.k, 1, 1, {(0, 15), (1, 1)});
    assert {(0, 15), (1, 1)} - {(1, 1)} == {(0, 15)};
  }

  /** Task 1 blocks, and is dropped by the full queue. */
  lemma FirstDropped(s: Sys, s': Sys)
    requires At(s, 1, Running, Blocked, {(0, 15)}, App, App) && Objects(s, MutexCore(0, None), [], Twos(32), [])
    requires Enabled(s, WAIT_CALL) && Step(s, WAIT_CALL, s') && Typed(s') && s.k.sleeping == {}
    ensures WaitResult(s, 0, WAIT_FOREVER, 0).Joined? && s'.queues == s.queues
    ensures At(s', 1, Blocked, Blocked, {(0, 15)}, App, App) && Objects(s', MutexCore(0, None), [], Twos(32), [])
    ensures s'.k.sleeping == {}
  {
    WaitsIs(s, Twos(32));
    SameBits(s.k, s'.k, {(0, 15)});
  }

  /** An interrupt signals, and task 2 is woken by one of its entries. */
  lemma SecondWakes(s: Sys, s': Sys)
    requires At(s, 1, Blocked, Blocked, {(0, 15)}, App, App) && Objects(s, MutexCore(0, None), [], Twos(32), [])
    requires Step(s, SignalSem(0, true), s') && Typed(s')
    ensures At(s', 1, Blocked, Ready, {(0, 15), (2, 2)}, App, App) && s'.k.sleeping == s.k.sleeping
    ensures s'.queues == Three([], Twos(32)[1..], [])
  {
    ReadyBits(s.k, 2, 2, {(0, 15)});
    assert {(0, 15)} + {(2, 2)} == {(0, 15), (2, 2)};
    OneOfThree([], Twos(32), [], Twos(32)[1..]);
  }

  lemma SecondRuns(s: Sys, s': Sys, pa: Pc, pb: Pc)
    requires At(s, 1, Blocked, Ready, {(0, 15), (2, 2)}, pa, pb) && Step(s, SelectTask, s') && Typed(s')
    ensures At(s', 2, Blocked, Running, {(0, 15)}, pa, pb) && s' == s.(k := s'.k, pending := false)
    ensures s'.k.sleeping == s.k.sleeping && s'.k.ticks == s.k.ticks
  {
    SelectBits(s.k, 2, 2, {(0, 15), (2, 2)});
    assert {(0, 15), (2, 2)} - {(2, 2)} == {(0, 15)};
  }

  lemma BlockedNowhere(s: Sys)
    requires At(s, 2, Blocked, Running, {(0, 15)}, App, App) && s.k.sleeping == {}
    requires forall r | r in s.queues :: 1 !in s.queues[r]
    ensures Lost(s, 1)
  {
    forall l: nat
      ensures !ReadyAt(s.k, 1, l)
    {}
  }

  lemma NotAmongTwos(s: Sys, q: seq<nat>)
    requires s.queues == Three([], q, []) && 1 !in q
    ensures forall r | r in s.queues :: 1 !in s.queues[r]
  {}

  lemma QueueFull() returns (s: Sys)
    ensures Reached(s, false) && At(s, 1, Running, Blocked, {(0, 15)}, App, App) && !s.pending
    ensures Objects(s, MutexCore(0, None), [], Twos(32), []) && s.k.sleeping == {}
  {
    var s0 := WaiterQueuesAgain(32);
    var s1 := Goes(s0, SysTick);
    FirstWakes(s0, s1);
    s := Goes(s1, SelectTask);
    FirstRuns(s1, s, App);
  }

  lemma OnlyTwos(s: Sys)
    requires s.queues == Three([], Twos(32), []) || s.queues == Three([], Twos(32)[1..], [])
    ensures forall r | r in s.queues :: 1 !in s.queues[r]
  {
    if s.queues == Three([], Twos(32), []) {
      NotAmongTwos(s, Twos(32));
    } else {
      NotAmongTwos(s, Twos(32)[1..]);
    }
  }

  /** Task 1 waits and blocks, but the queue is as it was. */
  lemma WaitDrops() returns (s: Sys, s1: Sys)
    ensures Reached(s, false) && Step(s, WAIT_CALL, s1) && WaitResult(s, 0, WAIT_FOREVER, 0).Joined?
    ensures s.k.current == 1 && IsRunning(s.k, 1) && s1.queues == s.queues
    ensures Reached(s1, false) && At(s1, 1, Blocked, Blocked, {(0, 15)}, App, App) && s1.k.sleeping == {}
    ensures Objects(s1, MutexCore(0, None), [], Twos(32), [])
  {
    s := QueueFull();
    s1 := Goes(s, WAIT_CALL);
    FirstDropped(s, s1);
  }

  lemma DroppedIsLost(s1: Sys) returns (s2: Sys, s3: Sys)
    requires Reached(s1, false) && At(s1, 1, Blocked, Blocked, {(0, 15)}, App, App) && s1.k.sleeping == {}
    requires Objects(s1, MutexCore(0, None), [], Twos(32), [])
    ensures Step(s1, SignalSem(0, true), s2) && Step(s2, SelectTask, s3)
    ensures Reached(s3, false) && Lost(s3, 1)
  {
    s2 := Goes(s1, SignalSem(0, true));
    SecondWakes(s1, s2);
    s3 := Goes(s2, SelectTask);
    SecondRuns(s2, s3, App, App);
    OnlyTwos(s3);
    BlockedNowhere(s3);
  }

  /** A silent drop: one task, waiting again and again while it is alone, fills the queue of
      a semaphore.  The next task that waits blocks without joining the queue, and when
      the other one is woken it is in none of the four places, for good. */
  lemma WaiterIsDropped() returns (s: Sys, s1: Sys, s2: Sys, s3: Sys)
    ensures Reached(s, false) && Step(s, WAIT_CALL, s1) && WaitResult(s, 0, WAIT_FOREVER, 0).Joined?
    ensures s.k.current == 1 && IsRunning(s.k, 1) && s1.queues == s.queues
    ensures forall r | r in s1.queues :: 1 !in s1.queues[r]
    ensures Step(s1, SignalSem(0, true), s2) && Step(s2, SelectTask, s3)
    ensures Reached(s3, false) && Lost(s3, 1)
  {
    s, s1 := WaitDrops();
    OnlyTwos(s1);
    s2, s3 := DroppedIsLost(s1);
  }

  // ------------------------------------------------------------ a mutex that is forgotten

  lemma FirstStarts(s: Sys)
    requires At(s, 1, Running, Ready, {(0, 15), (2, 2)}, App, App) && Fresh(s)
    requires Objects(s, MutexCore(0, None), [], [], [])
    ensures Enabled(s, StartAcquire(0, 0)) && Orderly(s, StartAcquire(0, 0))
    ensures After(s, StartAcquire(0, 0)) == s.(pcs := [App, Acquiring(0, false, 0), App])
  {}

  /** Task 1 takes the free mutex. */
  lemma FirstTakes(s: Sys, s1: Sys)
    requires At(s, 1, Running, Ready, {(0, 15), (2, 2)}, App, App) && Fresh(s)
    requires Objects(s, MutexCore(0, None), [], [], [])
    requires s1 == s.(pcs := [App, Acquiring(0, false, 0), App]) && Typed(s1)
    ensures Enabled(s1, AcquirePass)
    ensures After(s1, AcquirePass) == s.(mutexes := [MutexCore(1, Some(1))])
  {
    assert s.queues[MutexQ(0) := s.queues[MutexQ(0)]] == s.queues;
  }

  /** Task 1 sleeps until tick 1 with the mutex, and task 2 alone runs. */
  lemma OwnerAsleep() returns (s: Sys)
    ensures Reached(s, true) && SecondAlone(s, MutexCore(1, Some(1)), 1)
  {
    s := TwoTasks();
    FirstStarts(s);
    ReachedStep(s, StartAcquire(0, 0), true);
    var s1 := After(s, StartAcquire(0, 0));
    FirstTakes(s, s1);
    ReachedStep(s1, AcquirePass, true);
    s := After(s1, AcquirePass);
    s := SecondTakesOver(s, MutexCore(1, Some(1)), 1);
  }

  /** The place in its call of task 2, which waits without limit for the mutex. */
  const IN_LOOP := Acquiring(0, true, WAIT_FOREVER)

  /** Task 2 is current and inside its acquire loop, blocked unless it has not tried yet,
      and the queue of the mutex that sleeping task 1 owns is q. */
  ghost predicate InLoop(s: Sys, b: TaskState, q: seq<nat>) {
    && At(s, 2, Sleeping, b, {(0, 15)}, App, IN_LOOP) && Objects(s, MutexCore(1, Some(1)), q, [], [])
    && s.k.ticks == 0 && s.k.sleeping == {1} && |s.k.wake| == MAX_TASKS && s.k.wake[1] == 1
  }

  lemma SecondStartsIs(s: Sys)
    requires SecondAlone(s, MutexCore(1, Some(1)), 1)
    ensures Enabled(s, StartAcquire(0, WAIT_FOREVER))
    ensures After(s, StartAcquire(0, WAIT_FOREVER)) == s.(pcs := [App, App, IN_LOOP])
  {}

  lemma SecondStarts(s: Sys, s': Sys)
    requires SecondAlone(s, MutexCore(1, Some(1)), 1) && s' == s.(pcs := [App, App, IN_LOOP]) && Typed(s')
    ensures InLoop(s', Running, []) && Enabled(s', AcquirePass)
  {}

  /** It finds the mutex held and queues up. */
  lemma SecondTries(s: Sys, s': Sys, b: TaskState, q: seq<nat>)
    requires InLoop(s, b, q) && (b.Running? || b.Blocked?) && |q| < MAX_TASKS
    requires Step(s, AcquirePass, s') && Typed(s')
    ensures InLoop(s', Blocked, q + [2])
  {
    OneOfThree(q, [], [], q + [2]);
    assert s.mutexes[0 := s.mutexes[0]] == s.mutexes;
    assert Boost(s.k, 1, 2) == s.k;
    SameBits(s.k, s'.k, {(0, 15)});
  }

  lemma LoopAlone(s: Sys, q: seq<nat>)
    requires InLoop(s, Blocked, q)
    ensures After(s, SelectTask) == s.(pending := false)
  {
    NobodyBits(s.k, {(0, 15)});
  }

  lemma BlocksInLoop() returns (s: Sys)
    ensures Reached(s, false) && InLoop(s, Blocked, [2])
  {
    var s0 := OwnerAsleep();
    ReachedFacts(s0, true);
    SecondStartsIs(s0);
    var s1 := Goes(s0, StartAcquire(0, WAIT_FOREVER));
    SecondStarts(s0, s1);
    s := Goes(s1, AcquirePass);
    SecondTries(s1, s, Running, []);
    assert [] + [2] == [2];
  }

  lemma QueuedTwice(s: Sys)
    requires MutexQ(0) in s.queues && s.queues[MutexQ(0)] == [2, 2]
    ensures !Fine(s)
  {
    assert Queued(s.queues, MutexQ(0), 0, 2) && Queued(s.queues, MutexQ(0), 1, 2);
  }

  /** A task owns a mutex and sleeps; another one, the only one left, waits for the mutex
      without limit.  The switch it asks for finds nobody, it goes round its loop and
      queues up again. */
  lemma BlockedCallerQueuesTwice() returns (s: Sys)
    ensures Reached(s, false) && InLoop(s, Blocked, [2, 2]) && !Fine(s)
  {
    var s2 := BlocksInLoop();
    LoopAlone(s2, [2]);
    var s3 := Goes(s2, SelectTask);
    s := Goes(s3, AcquirePass);
    SecondTries(s3, s, Blocked, [2]);
    assert [2] + [2] == [2, 2];
    QueuedTwice(s);
  }

  lemma OwnerWakes(s: Sys, s': Sys)
    requires InLoop(s, Blocked, [2, 2]) && Step(s, SysTick, s') && Typed(s')
    ensures At(s', 2, Ready, Blocked, {(0, 15), (1, 1)}, App, IN_LOOP)
    ensures Objects(s', MutexCore(1, Some(1)), [2, 2], [], []) && s'.k.sleeping == {}
  {
    TickWakes(s.k, 1);
    ReadyBits(s.k, 1, 1, {(0, 15)});
    assert {(0, 15)} + {(1, 1)} == {(0, 15), (1, 1)};
    SameBits(SetReady(s.k, 1), s'.k, {(0, 15), (1, 1)});
  }

  /** Task 1 lets go, which wakes task 2 by its first entry. */
  lemma OwnerLetsGo(s: Sys, s': Sys)
    requires At(s, 1, Running, Blocked, {(0, 15)}, App, IN_LOOP) && s.k.sleeping == {}
    requires Objects(s, MutexCore(1, Some(1)), [2, 2], [], []) && Step(s, ReleaseMutex(0), s') && Typed(s')
    ensures At(s', 1, Running, Ready, {(0, 15), (2, 2)}, App, IN_LOOP) && s'.k.sleeping == {}
    ensures Objects(s', MutexCore(0, None), [2], [], [])
  {
    ReadyBits(s.k, 2, 2, {(0, 15)});
    assert {(0, 15)} + {(2, 2)} == {(0, 15), (2, 2)};
    assert [2, 2][1..] == [2];
    OneOfThree([2, 2], [], [], [2]);
  }

  lemma SwitchToSecond(s: Sys, s': Sys)
    requires At(s, 1, Running, Ready, {(0, 15), (2, 2)}, App, IN_LOOP) && s.k.sleeping == {}
    requires Step(s, SelectTask, s') && Typed(s')
    ensures At(s', 2, Ready, Running, {(0, 15), (1, 1)}, App, IN_LOOP) && s'.k.sleeping == {}
    ensures s' == s.(k := s'.k, pending := false)
  {
    SwitchBits(s.k, 2, 2, 1, {(0, 15), (2, 2)});
    assert {(0, 15), (2, 2)} + {(1, 1)} - {(2, 2)} == {(0, 15), (1, 1)};
  }

  /** Task 2 owns the mutex, and its second entry is still queued. */
  lemma SecondTakes(s: Sys, s': Sys)
    requires At(s, 2, Ready, Running, {(0, 15), (1, 1)}, App, IN_LOOP) && s.k.sleeping == {}
    requires Objects(s, MutexCore(0, None), [2], [], []) && Step(s, AcquirePass, s') && Typed(s')
    ensures At(s', 2, Ready, Running, {(0, 15), (1, 1)}, App, App) && s'.k == s.k
    ensures Objects(s', MutexCore(1, Some(2)), [2], [], [])
  {
    assert s.queues[MutexQ(0) := s.queues[MutexQ(0)]] == s.queues;
  }

  lemma NobodySleeps(s: Sys, s': Sys)
    requires Typed(s) && s.k.sleeping == {} && Step(s, SysTick, s')
    ensures s' == s.(k := s.k.(ticks := s.k.ticks + 1), pending := true)
  {
    TickCounts(s.k);
  }

  lemma SwitchToFirst(s: Sys, s': Sys)
    requires At(s, 2, Ready, Running, {(0, 15), (1, 1)}, App, App) && s.k.sleeping == {}
    requires Step(s, SelectTask, s') && Typed(s')
    ensures At(s', 1, Running, Ready, {(0, 15), (2, 2)}, App, App) && s'.k.sleeping == {}
    ensures s' == s.(k := s'.k, pending := false)
  {
    SwitchBits(s.k, 1, 1, 2, {(0, 15), (1, 1)});
    assert {(0, 15), (1, 1)} + {(2, 2)} - {(1, 1)} == {(0, 15), (2, 2)};
  }

  /** As At, with task 2 boosted to priority 1. */
  ghost predicate Boosted(s: Sys, current: nat, a: TaskState, b: TaskState, bits: set<(nat, nat)>, pa: Pc, pb: Pc) {
    && Typed(s) && |s.k.tasks| == 3 && s.k.current == current && s.k.tasks[0].state == Ready
    && TaskIs(s.k, 1, a, 1) && TaskIs(s.k, 2, b, 1) && BitsAre(s.k, bits) && s.pcs == [App, pa, pb]
  }

  lemma FirstStartsAgain(s: Sys, s': Sys)
    requires At(s, 1, Running, Ready, {(0, 15), (2, 2)}, App, App)
    requires Objects(s, MutexCore(1, Some(2)), [2], [], []) && Step(s, StartAcquire(0, WAIT_FOREVER), s') && Typed(s')
    ensures var pc := Acquiring(0, true, WAIT_FOREVER + s.k.ticks);
      && At(s', 1, Running, Ready, {(0, 15), (2, 2)}, pc, App)
      && Objects(s', MutexCore(1, Some(2)), [2], [], [])
  {}

  /** Task 1 lends task 2 its priority and queues up behind the entry task 2 still has. */
  lemma FirstQueuesUp(s: Sys, s': Sys, pc: Pc)
    requires At(s, 1, Running, Ready, {(0, 15), (2, 2)}, pc, App) && pc.Acquiring? && pc.m == 0 && pc.forever
    requires Objects(s, MutexCore(1, Some(2)), [2], [], []) && Step(s, AcquirePass, s') && Typed(s')
    ensures Boosted(s', 1, Blocked, Ready, {(0, 15), (2, 2)}, pc, App)
    ensures Objects(s', MutexCore(1, Some(2)), [2, 1], [], [])
  {
    assert [2] + [1] == [2, 1];
    OneOfThree([2], [], [], [2, 1]);
    assert s.mutexes[0 := s.mutexes[0]] == s.mutexes;
    SameBits(s.k, s'.k, {(0, 15), (2, 2)});
  }

  lemma BoostedRuns(s: Sys, s': Sys, l: nat, pc: Pc)
    requires Boosted(s, if l == 1 then 2 else 1, Blocked, Ready, {(0, 15), (2, l)}, pc, App) && 1 <= l <= 2
    requires Step(s, SelectTask, s') && Typed(s')
    ensures Boosted(s', 2, Blocked, Running, {(0, 15)}, pc, App) && s' == s.(k := s'.k, pending := false)
  {
    SelectBits(s.k, l, 2, {(0, 15), (2, l)});
    assert {(0, 15), (2, l)} - {(2, l)} == {(0, 15)};
  }

  /** Task 2 lets go, and wakes itself. */
  lemma WakesItself(s: Sys, s': Sys, pc: Pc)
    requires Boosted(s, 2, Blocked, Running, {(0, 15)}, pc, App)
    requires Objects(s, MutexCore(1, Some(2)), [2, 1], [], []) && Step(s, ReleaseMutex(0), s') && Typed(s')
    ensures Boosted(s', 2, Blocked, Ready, {(0, 15), (2, 1)}, pc, App)
    ensures Objects(s', MutexCore(0, None), [1], [], [])
  {
    ReadyBits(s.k, 2, 1, {(0, 15)});
    assert {(0, 15)} + {(2, 1)} == {(0, 15), (2, 1)};
    assert [2, 1][1..] == [1];
    OneOfThree([2, 1], [], [], [1]);
  }

  /** Task 2 runs with the mutex, and with an entry left in its queue. */
  lemma TakenWhileQueued() returns (s: Sys)
    ensures Reached(s, false) && At(s, 2, Ready, Running, {(0, 15), (1, 1)}, App, App) && s.k.sleeping == {}
    ensures Objects(s, MutexCore(1, Some(2)), [2], [], [])
  {
    var s0 := BlockedCallerQueuesTwice();
    var s1 := Goes(s0, SysTick);
    OwnerWakes(s0, s1);
    var s2 := Goes(s1, SelectTask);
    FirstRuns(s1, s2, IN_LOOP);
    s := LetsGoTo(s2);
  }

  lemma LetsGoTo(s2: Sys) returns (s: Sys)
    requires Reached(s2, false) && At(s2, 1, Running, Blocked, {(0, 15)}, App, IN_LOOP) && s2.k.sleeping == {}
    requires Objects(s2, MutexCore(1, Some(1)), [2, 2], [], []) && !s2.pending
    ensures Reached(s, false) && At(s, 2, Ready, Running, {(0, 15), (1, 1)}, App, App) && s.k.sleeping == {}
    ensures Objects(s, MutexCore(1, Some(2)), [2], [], [])
  {
    var s3 := Goes(s2, ReleaseMutex(0));
    OwnerLetsGo(s2, s3);
    var s4 := Goes(s3, SelectTask);
    SwitchToSecond(s3, s4);
    s := Goes(s4, AcquirePass);
    SecondTakes(s4, s);
  }

  lemma FirstRunsAgain() returns (s: Sys)
    ensures Reached(s, false) && At(s, 1, Running, Ready, {(0, 15), (2, 2)}, App, App) && !s.pending
    ensures Objects(s, MutexCore(1, Some(2)), [2], [], [])
  {
    var s0 := TakenWhileQueued();
    var s1 := Goes(s0, SysTick);
    NobodySleeps(s0, s1);
    SameBits(s0.k, s1.k, {(0, 15), (1, 1)});
    s := Goes(s1, SelectTask);
    SwitchToFirst(s1, s);
  }

  /** Task 1 waits behind the left-over entry of task 2, which runs and owns the mutex. */
  lemma WaitsBehind() returns (s: Sys, pc: Pc)
    ensures Reached(s, false) && Boosted(s, 2, Blocked, Running, {(0, 15)}, pc, App) && !s.pending
    ensures Objects(s, MutexCore(1, Some(2)), [2, 1], [], [])
  {
    var s0 := FirstRunsAgain();
    var s1 := Goes(s0, StartAcquire(0, WAIT_FOREVER));
    FirstStartsAgain(s0, s1);
    pc := s1.pcs[1];
    var s2 := Goes(s1, AcquirePass);
    FirstQueuesUp(s1, s2, pc);
    s := Goes(s2, SelectTask);
    BoostedRuns(s2, s, 2, pc);
  }

  lemma NobodyTries(s: Sys, pc: Pc)
    requires Boosted(s, 2, Blocked, Running, {(0, 15)}, pc, App) && Objects(s, MutexCore(0, None), [1], [], [])
    ensures !NotForgotten(s, 0)
  {
    forall t
      ensures !Contends(s.pcs, 0, t, [1])
    {
      if t == 1 { assert 1 in [1]; }
    }
  }

  /** A wake-up that is lost: the release of the mutex goes to an entry that the releasing
      task itself left behind in the queue when it was woken by another one.  The mutex is
      free, task 1 waits for it without limit, task 2 runs outside all calls, and nobody
      will ever try to take the mutex unless it is used again. */
  lemma MutexIsForgotten() returns (s: Sys, s1: Sys, s2: Sys)
    ensures Reached(s, false) && MutexQ(0) in s.queues && !PassedOn(s, ReleaseMutex(0), 0)
    ensures Step(s, ReleaseMutex(0), s1) && Step(s1, SelectTask, s2) && Reached(s2, false)
    ensures MutexQ(0) in s2.queues && !NotForgotten(s2, 0)
    ensures |s2.k.tasks| == 3 && s2.k.tasks[1].state.Blocked? && s2.k.current == 2 && InApp(s2)
  {
    var pc;
    s, pc := WaitsBehind();
    s1 := Goes(s, ReleaseMutex(0));
    WakesItself(s, s1, pc);
    NotPassedOn(s, pc);
    s2 := Goes(s1, SelectTask);
    BoostedRuns(s1, s2, 1, pc);
    NobodyTries(s2, pc);
  }

  lemma NotPassedOn(s: Sys, pc: Pc)
    requires Boosted(s, 2, Blocked, Running, {(0, 15)}, pc, App) && Objects(s, MutexCore(1, Some(2)), [2, 1], [], [])
    ensures !PassedOn(s, ReleaseMutex(0), 0)
  {
    assert [2, 1][1..] == [1];
    forall t
      ensures !Contends(s.pcs, 0, t, [1])
    {
      if t == 1 { assert 1 in [1]; }
    }
  }
}
