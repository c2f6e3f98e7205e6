/** Runs in which a task that readies itself stores a ready word that is out of date: a task
    woken meanwhile is lost, and one that fell asleep meanwhile is run before its time. */
module StaleWords {
  import opened Tasks
  import opened Scheduling
  import opened SchedulingProofs
  import opened Blocking
  import opened Places
  import opened Systems
  import opened Windows
  import opened Breakdowns
  import opened Sleepers

  /** Idle and two tasks of priority 1, with the given states and ready bits; task 2 is at
      the given place in its call. */
  ghost predicate Peers(s: Sys, current: nat, a: TaskState, b: TaskState, bits: set<(nat, nat)>, pc: Pc) {
    && Typed(s) && |s.k.tasks| == 3 && s.k.current == current && s.k.tasks[0].state == Ready
    && TaskIs(s.k, 1, a, 1) && TaskIs(s.k, 2, b, 1) && BitsAre(s.k, bits) && s.pcs == [App, App, pc]
  }

  /** Two semaphores, the first without tokens and with waiters q. */
  ghost predicate Sems(s: Sys, q: seq<nat>, count: nat) {
    && s.mutexes == [] && s.sems == [SemCore(0, 1), SemCore(count, 1)] && s.groups == []
    && s.queues == map[SemQ(0) := q, SemQ(1) := []]
  }

  /** Nobody sleeps, at tick count n. */
  ghost predicate AllAwake(k: KState, n: nat) {
    k.sleeping == {} && k.ticks == n && |k.wake| == MAX_TASKS
  }

  ghost function TwoSems(): Sys {
    Sys(Boot(), [], [SemCore(0, 1), SemCore(0, 1)], [], map[SemQ(0) := [], SemQ(1) := []], [App], false)
  }

  lemma QueueOf(q: seq<nat>, q': seq<nat>)
    ensures (map[SemQ(0) := q, SemQ(1) := []])[SemQ(0) := q'] == map[SemQ(0) := q', SemQ(1) := []]
  {}

  /** One more step of an orderly run. */
  lemma Goes(s: Sys, l: Label) returns (s': Sys)
    requires Reached(s, true) && Enabled(s, l) && Orderly(s, l)
    ensures Step(s, l, s') && Reached(s', true) && Typed(s')
  {
    ReachedStep(s, l, true);
    s' := After(s, l);
  }

  lemma FirstRuns(s: Sys, s': Sys)
    requires Peers(s, 0, Ready, Ready, {(0, 15), (1, 1), (2, 1)}, App) && Step(s, SelectTask, s') && Typed(s')
    requires AllAwake(s.k, 0)
    ensures Peers(s', 1, Running, Ready, {(0, 15), (2, 1)}, App) && s' == s.(k := s'.k, pending := false)
    ensures AllAwake(s'.k, 0)
  {
    SelectBits(s.k, 1, 1, {(0, 15), (1, 1), (2, 1)});
    assert {(0, 15), (1, 1), (2, 1)} - {(1, 1)} == {(0, 15), (2, 1)};
  }

  lemma FirstWaits(s: Sys, s': Sys)
    requires Peers(s, 1, Running, Ready, {(0, 15), (2, 1)}, App) && Sems(s, [], 0)
    requires Step(s, WaitSem(0, WAIT_FOREVER, 0), s') && Typed(s') && AllAwake(s.k, 0)
    ensures Peers(s', 1, Blocked, Ready, {(0, 15), (2, 1)}, App) && Sems(s', [1], 0) && AllAwake(s'.k, 0)
  {
    QueueOf([], [1]);
    assert [] + [1] == [1];
    SameBits(s.k, s'.k, {(0, 15), (2, 1)});
  }

  lemma SecondRuns(s: Sys)
    requires Peers(s, 1, Blocked, Ready, {(0, 15), (2, 1)}, App) && AllAwake(s.k, 0)
    ensures Orderly(s, SelectTask)
    ensures var s' := After(s, SelectTask);
      Typed(s') ==>
        && Peers(s', 2, Blocked, Running, {(0, 15)}, App) && s' == s.(k := s'.k, pending := false)
        && AllAwake(s'.k, 0)
  {
    SelectBits(s.k, 1, 2, {(0, 15), (2, 1)});
    assert {(0, 15), (2, 1)} - {(2, 1)} == {(0, 15)};
  }

  lemma SecondSignals(s: Sys, s': Sys)
    requires Peers(s, 2, Blocked, Running, {(0, 15)}, App) && Sems(s, [1], 0) && !s.pending
    requires Step(s, SignalSem(1, false), s') && Typed(s')
    ensures Peers(s', 2, Blocked, Running, {(0, 15)}, Signalled) && Sems(s', [1], 1) && !s'.pending
  {
    assert s.queues[SemQ(1) := s.queues[SemQ(1)]] == s.queues;
    SameBits(s.k, s'.k, {(0, 15)});
  }

  lemma WritesState(s: Sys, s': Sys)
    requires Peers(s, 2, Blocked, Running, {(0, 15)}, Signalled) && Step(s, ReadySelf, s') && Typed(s')
    ensures Peers(s', 2, Blocked, Ready, {(0, 15)}, StateWritten) && s' == s.(k := s'.k, pcs := s'.pcs)
  {
    SameBits(s.k, s'.k, {(0, 15)});
  }

  lemma LoadsWord(s: Sys, s': Sys)
    requires Peers(s, 2, Blocked, Ready, {(0, 15)}, StateWritten) && Step(s, ReadySelf, s') && Typed(s')
    ensures Peers(s', 2, Blocked, Ready, {(0, 15)}, WordLoaded(1, {})) && s' == s.(pcs := s'.pcs)
  {
    forall t: nat
      ensures t !in s.k.ready[1]
    {
      assert !ReadyAt(s.k, t, 1);
    }
    assert s.k.ready[1] == {};
  }

  /** An interrupt wakes task 1, which has the same priority. */
  lemma FirstWakes(s: Sys, s': Sys)
    requires Peers(s, 2, Blocked, Ready, {(0, 15)}, WordLoaded(1, {})) && Sems(s, [1], 1) && !s.pending
    requires Step(s, SignalSem(0, true), s') && Typed(s')
    ensures Peers(s', 2, Ready, Ready, {(0, 15), (1, 1)}, WordLoaded(1, {})) && !s'.pending
  {
    ReadyBits(s.k, 1, 1, {(0, 15)});
    assert {(0, 15)} + {(1, 1)} == {(0, 15), (1, 1)};
  }

  lemma FirstIsRunning() returns (s: Sys)
    ensures Reached(s, true) && Peers(s, 1, Running, Ready, {(0, 15), (2, 1)}, App) && Sems(s, [], 0) && !s.pending
    ensures AllAwake(s.k, 0)
  {
    var s0 := Registers(TwoSems(), 1, 1);
    ReachedFacts(s0, true);
    s := Goes(s0, SelectTask);
    FirstRuns(s0, s);
  }

  /** Task 1 waits on the first semaphore and task 2 runs. */
  lemma FirstIsWaiting() returns (s: Sys)
    ensures Reached(s, true) && Peers(s, 2, Blocked, Running, {(0, 15)}, App) && Sems(s, [1], 0) && !s.pending
    ensures AllAwake(s.k, 0)
  {
    var s1 := FirstIsRunning();
    var s2 := Goes(s1, WaitSem(0, WAIT_FOREVER, 0));
    FirstWaits(s1, s2);
    SecondRuns(s2);
    s := Goes(s2, SelectTask);
  }

  /** Task 2 has signalled the second semaphore and loaded its ready word. */
  lemma WordIsLoaded() returns (s: Sys)
    ensures Reached(s, true) && Peers(s, 2, Blocked, Ready, {(0, 15)}, WordLoaded(1, {})) && Sems(s, [1], 1)
    ensures !s.pending
  {
    var s0 := FirstIsWaiting();
    var s1 := Goes(s0, SignalSem(1, false));
    SecondSignals(s0, s1);
    var s2 := Goes(s1, ReadySelf);
    WritesState(s1, s2);
    s := Goes(s2, ReadySelf);
    LoadsWord(s2, s);
  }

  lemma WordIsStale(s: Sys)
    requires Peers(s, 2, Ready, Ready, {(0, 15), (1, 1)}, WordLoaded(1, {}))
    ensures !WordUnchanged(s.k, s.pcs[s.k.current])
    ensures forall u: nat | ReadyAt(s.k, u, 1) :: u == 1
  {
    assert ReadyAt(s.k, 1, 1);
  }

  /** Task 1 waits on one semaphore.  Task 2, of the same priority, signals another, and
      between its load and its store of the ready word an interrupt signals the first one:
      task 1 is made ready, and the store takes its bit away for good. */
  lemma WokenTaskIsLost() returns (s: Sys, s1: Sys, s2: Sys)
    ensures Reached(s, true) && Step(s, SignalSem(0, true), s1) && |s.k.tasks| == |s1.k.tasks| == 3
    ensures s.k.tasks[1].state.Blocked? && s1.k.tasks[1].state.Ready? && ReadyAt(s1.k, 1, 1)
    ensures Step(s1, ReadySelf, s2) && Reached(s2, false) && Lost(s2, 1)
  {
    s := WordIsLoaded();
    s1 := Goes(s, SignalSem(0, true));
    FirstWakes(s, s1);
    ReachedFacts(s1, true);
    WordIsStale(s1);
    var u := StoreLoses(s1);
    ReachedStep(s1, ReadySelf, false);
    s2 := After(s1, ReadySelf);
  }

  // ------------------------------------------------------- a sleeper that is run too early

  /** One more step of any run. */
  lemma GoesOn(s: Sys, l: Label) returns (s': Sys)
    requires Reached(s, false) && Enabled(s, l)
    ensures Step(s, l, s') && Reached(s', false) && Typed(s')
  {
    ReachedStep(s, l, false);
    s' := After(s, l);
  }

  lemma SecondWaitsToo(s: Sys, s': Sys)
    requires Peers(s, 2, Blocked, Running, {(0, 15)}, App) && Sems(s, [1], 0) && AllAwake(s.k, 0)
    requires Step(s, WaitSem(0, WAIT_FOREVER, 0), s') && Typed(s')
    ensures Peers(s', 2, Blocked, Blocked, {(0, 15)}, App) && Sems(s', [1, 2], 0) && AllAwake(s'.k, 0)
  {
    QueueOf([1], [1, 2]);
    assert [1] + [2] == [1, 2];
    SameBits(s.k, s'.k, {(0, 15)});
  }

  lemma NobodyElse(s: Sys)
    requires Peers(s, 2, Blocked, Blocked, {(0, 15)}, App)
    ensures After(s, SelectTask) == s.(pending := false)
  {
    NobodyBits(s.k, {(0, 15)});
  }

  lemma BlockedSignals(s: Sys, s': Sys)
    requires Peers(s, 2, Blocked, Blocked, {(0, 15)}, App) && Sems(s, [1, 2], 0) && AllAwake(s.k, 0) && !s.pending
    requires Step(s, SignalSem(1, false), s') && Typed(s')
    ensures Peers(s', 2, Blocked, Blocked, {(0, 15)}, Signalled) && Sems(s', [1, 2], 1) && AllAwake(s'.k, 0)
    ensures !s'.pending
  {
    assert s.queues[SemQ(1) := s.queues[SemQ(1)]] == s.queues;
    SameBits(s.k, s'.k, {(0, 15)});
  }

  lemma BlockedWrites(s: Sys, s': Sys)
    requires Peers(s, 2, Blocked, Blocked, {(0, 15)}, Signalled) && AllAwake(s.k, 0)
    requires Step(s, ReadySelf, s') && Typed(s')
    ensures Peers(s', 2, Blocked, Ready, {(0, 15)}, StateWritten) && AllAwake(s'.k, 0)
    ensures s' == s.(k := s'.k, pcs := s'.pcs)
  {
    SameBits(s.k, s'.k, {(0, 15)});
  }

  /** An interrupt wakes task 1; task 2 is still queued. */
  lemma FirstWokenThen(s: Sys, s': Sys)
    requires Peers(s, 2, Blocked, Ready, {(0, 15)}, StateWritten) && Sems(s, [1, 2], 1) && AllAwake(s.k, 0)
    requires Step(s, SignalSem(0, true), s') && Typed(s')
    ensures Peers(s', 2, Ready, Ready, {(0, 15), (1, 1)}, StateWritten) && Sems(s', [2], 1) && AllAwake(s'.k, 0)
    ensures s'.pending == s.pending
  {
    ReadyBits(s.k, 1, 1, {(0, 15)});
    assert {(0, 15)} + {(1, 1)} == {(0, 15), (1, 1)};
    assert [1, 2][1..] == [2];
    QueueOf([1, 2], [2]);
  }

  /** Task 2 loads a ready word that has the bit of task 1. */
  lemma LoadsBit(s: Sys, s': Sys)
    requires Peers(s, 2, Ready, Ready, {(0, 15), (1, 1)}, StateWritten) && Step(s, ReadySelf, s') && Typed(s')
    ensures Peers(s', 2, Ready, Ready, {(0, 15), (1, 1)}, WordLoaded(1, {1})) && s' == s.(pcs := s'.pcs)
  {
    forall t: nat
      ensures t in s.k.ready[1] <==> t == 1
    {
      assert ReadyAt(s.k, t, 1) <==> (t, 1) in {(0, 15), (1, 1)};
    }
    assert s.k.ready[1] == {1};
  }

  lemma FirstTakesOver(s: Sys, s': Sys)
    requires Peers(s, 2, Ready, Ready, {(0, 15), (1, 1)}, WordLoaded(1, {1})) && Step(s, SelectTask, s') && Typed(s')
    ensures Peers(s', 1, Running, Ready, {(0, 15)}, WordLoaded(1, {1})) && s' == s.(k := s'.k, pending := false)
    ensures s'.k.sleeping == s.k.sleeping && s'.k.ticks == s.k.ticks && s'.k.wake == s.k.wake
  {
    SelectBits(s.k, 1, 1, {(0, 15), (1, 1)});
    assert {(0, 15), (1, 1)} - {(1, 1)} == {(0, 15)};
  }

  /** Task 1 sleeps 9 ticks. */
  lemma FirstSleepsNine(s: Sys, s': Sys)
    requires Peers(s, 1, Running, Ready, {(0, 15)}, WordLoaded(1, {1})) && AllAwake(s.k, 1)
    requires Step(s, Sleep(9), s') && Typed(s')
    ensures Peers(s', 1, Sleeping, Ready, {(0, 15)}, WordLoaded(1, {1})) && s' == s.(k := s'.k, pending := true)
    ensures OneSleeps(s'.k, 1)
  {
    SameBits(s.k, s'.k, {(0, 15)});
  }

  /** Task 1 alone sleeps, until tick 10, at tick count n. */
  ghost predicate OneSleeps(k: KState, n: nat) {
    k.sleeping == {1} && k.ticks == n && |k.wake| == MAX_TASKS && k.wake[1] == 10
  }

  /** Task 2 is woken out of the queue it has been in all the time. */
  lemma SecondWoken(s: Sys, s': Sys)
    requires Peers(s, 1, Sleeping, Ready, {(0, 15)}, WordLoaded(1, {1})) && Sems(s, [2], 1) && OneSleeps(s.k, 1)
    requires Step(s, SignalSem(0, true), s') && Typed(s')
    ensures Peers(s', 1, Sleeping, Ready, {(0, 15), (2, 1)}, WordLoaded(1, {1})) && OneSleeps(s'.k, 1)
  {
    ReadyBits(s.k, 2, 1, {(0, 15)});
    assert {(0, 15)} + {(2, 1)} == {(0, 15), (2, 1)};
  }

  lemma SecondTakesOver(s: Sys, s': Sys)
    requires Peers(s, 1, Sleeping, Ready, {(0, 15), (2, 1)}, WordLoaded(1, {1})) && OneSleeps(s.k, 1)
    requires Step(s, SelectTask, s') && Typed(s')
    ensures Peers(s', 2, Sleeping, Running, {(0, 15)}, WordLoaded(1, {1})) && OneSleeps(s'.k, 1) && !s'.pending
  {
    SelectBits(s.k, 1, 2, {(0, 15), (2, 1)});
    assert {(0, 15), (2, 1)} - {(2, 1)} == {(0, 15)};
  }

  /** Task 2 stores the word with the bit of task 1, which sleeps. */
  lemma StoresBit(s: Sys, s': Sys)
    requires Peers(s, 2, Sleeping, Running, {(0, 15)}, WordLoaded(1, {1})) && OneSleeps(s.k, 1)
    requires Step(s, ReadySelf, s') && Typed(s')
    ensures Peers(s', 2, Sleeping, Running, {(0, 15), (1, 1), (2, 1)}, WordStored(1)) && OneSleeps(s'.k, 1)
  {
    forall t: nat, l: nat
      ensures ReadyAt(s'.k, t, l) <==> (t, l) in {(0, 15), (1, 1), (2, 1)}
    {
      assert l != 1 ==> (ReadyAt(s'.k, t, l) <==> ReadyAt(s.k, t, l));
    }
  }

  lemma TickOnly(s: Sys, s': Sys)
    requires Peers(s, 2, Sleeping, Running, {(0, 15), (1, 1), (2, 1)}, WordStored(1)) && OneSleeps(s.k, 1)
    requires Step(s, SysTick, s') && Typed(s')
    ensures Peers(s', 2, Sleeping, Running, {(0, 15), (1, 1), (2, 1)}, WordStored(1)) && OneSleeps(s'.k, 2)
  {
    TickCounts(s.k);
    SameBits(s.k, s'.k, {(0, 15), (1, 1), (2, 1)});
  }

  lemma SleeperPicked(s: Sys, s': Sys)
    requires Peers(s, 2, Sleeping, Running, {(0, 15), (1, 1), (2, 1)}, WordStored(1)) && OneSleeps(s.k, 2)
    requires Step(s, SelectTask, s') && Typed(s')
    ensures s'.k.current == 1 && TaskIs(s'.k, 1, Running, 1) && s'.k.ticks == 2
  {
    SwitchBits(s.k, 1, 1, 1, {(0, 15), (1, 1), (2, 1)});
  }

  /** Task 2, blocked and alone, has signalled and written its state. */
  lemma BlockedMidway() returns (s: Sys)
    ensures Reached(s, false) && Peers(s, 2, Blocked, Ready, {(0, 15)}, StateWritten) && Sems(s, [1, 2], 1)
    ensures AllAwake(s.k, 0) && !s.pending
  {
    var s0 := FirstIsWaiting();
    ReachedFacts(s0, true);
    var s1 := GoesOn(s0, WaitSem(0, WAIT_FOREVER, 0));
    SecondWaitsToo(s0, s1);
    NobodyElse(s1);
    var s2 := GoesOn(s1, SelectTask);
    s := SignalsMidway(s2);
  }

  lemma SignalsMidway(s2: Sys) returns (s: Sys)
    requires Reached(s2, false) && Peers(s2, 2, Blocked, Blocked, {(0, 15)}, App) && Sems(s2, [1, 2], 0)
    requires AllAwake(s2.k, 0) && !s2.pending
    ensures Reached(s, false) && Peers(s, 2, Blocked, Ready, {(0, 15)}, StateWritten) && Sems(s, [1, 2], 1)
    ensures AllAwake(s.k, 0) && !s.pending
  {
    var s3 := GoesOn(s2, SignalSem(1, false));
    BlockedSignals(s2, s3);
    s := GoesOn(s3, ReadySelf);
    BlockedWrites(s3, s);
  }

  lemma LoadsLate() returns (s: Sys)
    ensures Reached(s, false) && Peers(s, 2, Ready, Ready, {(0, 15), (1, 1)}, WordLoaded(1, {1}))
    ensures Sems(s, [2], 1) && AllAwake(s.k, 0)
  {
    var s0 := BlockedMidway();
    var s1 := GoesOn(s0, SignalSem(0, true));
    FirstWokenThen(s0, s1);
    s := GoesOn(s1, ReadySelf);
    LoadsBit(s1, s);
  }

  lemma TickMidway(s: Sys, s': Sys)
    requires Peers(s, 2, Ready, Ready, {(0, 15), (1, 1)}, WordLoaded(1, {1})) && AllAwake(s.k, 0)
    requires Step(s, SysTick, s') && Typed(s')
    ensures Peers(s', 2, Ready, Ready, {(0, 15), (1, 1)}, WordLoaded(1, {1})) && AllAwake(s'.k, 1)
    ensures s' == s.(k := s'.k, pending := true)
  {
    TickCounts(s.k);
    SameBits(s.k, s'.k, {(0, 15), (1, 1)});
  }

  /** Task 2 holds a word with the bit of task 1, and is switched away. */
  lemma HoldsBit() returns (s: Sys)
    ensures Reached(s, false) && Peers(s, 1, Running, Ready, {(0, 15)}, WordLoaded(1, {1})) && Sems(s, [2], 1)
    ensures AllAwake(s.k, 1) && !s.pending
  {
    var s2 := LoadsLate();
    var s3 := GoesOn(s2, SysTick);
    TickMidway(s2, s3);
    s := GoesOn(s3, SelectTask);
    FirstTakesOver(s3, s);
  }

  /** Task 1 sleeps and task 2, woken, is about to store the word. */
  lemma AboutToStore() returns (s: Sys)
    ensures Reached(s, false) && Peers(s, 2, Sleeping, Running, {(0, 15)}, WordLoaded(1, {1}))
    ensures OneSleeps(s.k, 1) && !s.pending
  {
    var s0 := HoldsBit();
    var s1 := GoesOn(s0, Sleep(9));
    FirstSleepsNine(s0, s1);
    var s2 := GoesOn(s1, SignalSem(0, true));
    SecondWoken(s1, s2);
    s := GoesOn(s2, SelectTask);
    SecondTakesOver(s2, s);
  }

  /** A sleeper that is run before its time: its ready bit, loaded before it fell asleep by
      a task that was blocked and went on executing, is stored while it sleeps. */
  lemma SleeperIsSelected() returns (s: Sys, s1: Sys)
    ensures Reached(s, false) && Step(s, SelectTask, s1) && Reached(s1, false)
    ensures Asleep(s.k, 1, 10) && s.k.ticks == s1.k.ticks == 2
    ensures s1.k.current == 1 && IsRunning(s1.k, 1)
  {
    var s0 := AboutToStore();
    var s2 := GoesOn(s0, ReadySelf);
    StoresBit(s0, s2);
    s := GoesOn(s2, SysTick);
    TickOnly(s2, s);
    s1 := GoesOn(s, SelectTask);
    SleeperPicked(s, s1);
  }
}
