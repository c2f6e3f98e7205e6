/** Runs in which the places of tasks do go wrong: a signaller that is lost, a level marked
    although it is empty, and a blocked caller that returns out of its queue. */
module Breakdowns {
  import opened Tasks
  import opened Words
  import opened Scheduling
  import opened SchedulingProofs
  import opened Blocking
  import opened Places
  import opened Systems
  import opened BaseProofs
  import opened OrderlyProofs
  import opened Windows

  // ---------------------------------------------------------------- reaching a state

  /** Some run ends in s; an orderly one, if that is asked for. */
  ghost predicate Reached(s: Sys, orderly: bool) {
    exists ss, ls :: Run(ss, ls) && ss[|ls|] == s && (orderly ==> OrderlyUpTo(ss, ls, |ls|))
  }

  lemma ReachedFacts(s: Sys, orderly: bool)
    requires Reached(s, orderly)
    ensures Base(s) && Reached(s, false) && (orderly ==> Sound(s))
  {
    var ss, ls :| Run(ss, ls) && ss[|ls|] == s && (orderly ==> OrderlyUpTo(ss, ls, |ls|));
    BaseInRun(ss, ls, |ls|);
    if orderly { SoundInRun(ss, ls, |ls|); }
  }

  lemma ReachedStart(s: Sys)
    requires Init(s)
    ensures Reached(s, true)
  {
    var ss: seq<Sys>, ls: seq<Label> := [s], [];
    assert Run(ss, ls) && ss[|ls|] == s && OrderlyUpTo(ss, ls, |ls|);
  }

  lemma RunSnoc(ss: seq<Sys>, ls: seq<Label>, l: Label)
    requires Run(ss, ls) && Typed(ss[|ls|]) && Enabled(ss[|ls|], l)
    ensures Run(ss + [After(ss[|ls|], l)], ls + [l])
  {
    RunExtends(ss, ls, |ls|, l);
    assert ss[..|ls| + 1] == ss && ls[..|ls|] == ls;
  }

  lemma ReachedSnoc(s: Sys, l: Label, orderly: bool)
    requires Reached(s, orderly) && Typed(s) && Enabled(s, l) && (orderly ==> Orderly(s, l))
    ensures Reached(After(s, l), orderly)
  {
    var ss, ls :| Run(ss, ls) && ss[|ls|] == s && (orderly ==> OrderlyUpTo(ss, ls, |ls|));
    RunSnoc(ss, ls, l);
    var ss', ls' := ss + [After(s, l)], ls + [l];
    assert ss'[|ls'|] == After(s, l);
    if orderly { OrderlySnoc(ss, ls, After(s, l), l); }
  }

  /** One more step. */
  lemma ReachedStep(s: Sys, l: Label, orderly: bool)
    requires Reached(s, orderly) && Enabled(s, l) && (orderly ==> Orderly(s, l))
    ensures Typed(s) && Reached(After(s, l), orderly) && Base(After(s, l))
  {
    ReachedFacts(s, orderly);
    BaseStep(s, l, After(s, l));
    ReachedSnoc(s, l, orderly);
  }

  lemma OrderlySnoc(ss: seq<Sys>, ls: seq<Label>, s': Sys, l: Label)
    requires |ss| == |ls| + 1 && OrderlyUpTo(ss, ls, |ls|) && Orderly(ss[|ls|], l)
    ensures OrderlyUpTo(ss + [s'], ls + [l], |ls| + 1)
  {
    forall i | 0 <= i < |ls| + 1
      ensures Orderly((ss + [s'])[i], (ls + [l])[i])
    {
      if i < |ls| { assert (ss + [s'])[i] == ss[i] && (ls + [l])[i] == ls[i]; }
    }
  }

  // ------------------------------------------------------------- describing a state

  /** The ready bits set, as pairs of task and level. */
  ghost predicate BitsAre(k: KState, bits: set<(nat, nat)>) {
    && |k.ready| == LEVELS
    && forall t: nat, l: nat :: ReadyAt(k, t, l) <==> (t, l) in bits
  }

  ghost predicate TaskIs(k: KState, t: nat, state: TaskState, priority: nat) {
    t < |k.tasks| && k.tasks[t].state == state && k.tasks[t].priority == priority
  }

  /** Three tasks: idle, task 1 at priority 1 and task 2 at priority 2, with the given
      states and ready bits, and with the given current one and places in calls. */
  ghost predicate At(s: Sys, current: nat, a: TaskState, b: TaskState, bits: set<(nat, nat)>, pa: Pc, pb: Pc) {
    && Typed(s) && |s.k.tasks| == 3 && s.k.current == current && s.k.tasks[0].state == Ready
    && TaskIs(s.k, 1, a, 1) && TaskIs(s.k, 2, b, 2) && BitsAre(s.k, bits) && s.pcs == [App, pa, pb]
  }

  /** One mutex, one semaphore without tokens, one event group without flags, and the
      contents of their queues. */
  ghost predicate Objects(s: Sys, m: MutexCore, qm: seq<nat>, qs: seq<nat>, qg: seq<nat>) {
    s.mutexes == [m] && s.sems == [SemCore(0, 1)] && s.groups == [0] && s.queues == Three(qm, qs, qg)
  }

  ghost function Three(qm: seq<nat>, qs: seq<nat>, qg: seq<nat>): Queues {
    map[MutexQ(0) := qm, SemQ(0) := qs, GroupQ(0) := qg]
  }

  lemma OneOfThree(qm: seq<nat>, qs: seq<nat>, qg: seq<nat>, q: seq<nat>)
    ensures Three(qm, qs, qg)[MutexQ(0) := q] == Three(q, qs, qg)
    ensures Three(qm, qs, qg)[SemQ(0) := q] == Three(qm, q, qg)
    ensures Three(qm, qs, qg)[GroupQ(0) := q] == Three(qm, qs, q)
  {}

  // --------------------------------------------------- what the operations do to the bits

  lemma BootBits()
    ensures BitsAre(Boot(), {(0, 15)})
  {}

  lemma SameBits(k: KState, k': KState, bits: set<(nat, nat)>)
    requires BitsAre(k, bits) && k'.ready == k.ready
    ensures BitsAre(k', bits)
  {
    ReadyBitsKept(k, k');
  }

  lemma AddBits(k: KState, r: TaskRec, bits: set<(nat, nat)>)
    requires Shape(k) && BitsAre(k, bits) && r.priority <= PRIORITY_IDLE && |k.tasks| < MAX_TASKS
    ensures BitsAre(AddTask(k, r), bits + {(|k.tasks|, r.priority)})
  {}

  lemma ReadyBits(k: KState, t: nat, p: nat, bits: set<(nat, nat)>)
    requires Shape(k) && BitsAre(k, bits) && t < |k.tasks| && k.tasks[t].priority == p
    ensures BitsAre(SetReady(k, t), bits + {(t, p)})
  {
    assert GoodPriority(k.tasks[t], k.highest);
  }

  lemma DispatchBits(k: KState, l: nat, i: nat, bits: set<(nat, nat)>)
    requires Shape(k) && BitsAre(k, bits) && i < |k.tasks| && l < LEVELS
    ensures BitsAre(Dispatch(k, l, i), bits - {(i, l)})
  {}

  /** (i, l) is the least pair below idle. */
  ghost predicate LeastBit(bits: set<(nat, nat)>, l: nat, i: nat) {
    && (i, l) in bits && l < PRIORITY_IDLE
    && forall t: nat, m: nat | (t, m) in bits && m < PRIORITY_IDLE :: l < m || (l == m && i <= t)
  }

  lemma SelectBits(k: KState, l: nat, i: nat, bits: set<(nat, nat)>)
    requires Shape(k) && BitsAre(k, bits) && LeastBit(bits, l, i) && !k.tasks[k.current].state.Running?
    ensures i < |k.tasks| && l < LEVELS && Select(k) == Dispatch(k, l, i) && BitsAre(Select(k), bits - {(i, l)})
    ensures AnyReady(k)
  {
    assert ReadyAt(k, i, l);
    SelectIs(k, l, i);
    DispatchBits(k, l, i, bits);
  }

  /** The current task still runs and is put back at its priority. */
  lemma SwitchBits(k: KState, l: nat, i: nat, p: nat, bits: set<(nat, nat)>)
    requires Shape(k) && BitsAre(k, bits) && LeastBit(bits, l, i)
    requires TaskIs(k, k.current, Running, p)
    ensures i < |k.tasks| && l < LEVELS && Select(k) == Dispatch(SetReady(k, k.current), l, i)
    ensures BitsAre(Select(k), bits + {(k.current, p)} - {(i, l)})
  {
    assert ReadyAt(k, i, l);
    SelectIs(k, l, i);
    ReadyBits(k, k.current, p, bits);
    SetReadyShape(k, k.current);
    DispatchBits(SetReady(k, k.current), l, i, bits + {(k.current, p)});
  }

  lemma NobodyBits(k: KState, bits: set<(nat, nat)>)
    requires Shape(k) && BitsAre(k, bits) && forall t: nat, m: nat | (t, m) in bits :: m >= PRIORITY_IDLE
    ensures Select(k) == k && !AnyReady(k)
  {
    forall t: nat, l: nat | l < PRIORITY_IDLE
      ensures !ReadyAt(k, t, l)
    {}
    SelectStalls(k);
  }

  /** A tick that wakes nobody only counts. */
  lemma TickCounts(k: KState)
    requires Shape(k) && forall t | t in k.sleeping :: k.wake[t] > k.ticks + 1
    ensures PortTick(k) == k.(ticks := k.ticks + 1)
  {
    var k1 := k.(ticks := k.ticks + 1);
    assert Due(k1) == {};
    WakeNone(k1);
  }

  /** A tick that wakes the only sleeper. */
  lemma TickWakes(k: KState, t: nat)
    requires Shape(k) && k.sleeping == {t} && k.wake[t] <= k.ticks + 1
    ensures PortTick(k) == SetReady(k, t).(ticks := k.ticks + 1, sleeping := {})
  {
    var k1 := k.(ticks := k.ticks + 1);
    assert Due(k1) == {t} && {} + {t} == {t};
    WakeOne(k1, {}, t);
    WakeNone(k1);
  }

  // ------------------------------------------------------------------ two tasks

  lemma RegisterIs(s: Sys, r: TaskRec)
    requires Typed(s) && Enabled(s, Register(r)) && |s.k.tasks| < MAX_TASKS
    ensures After(s, Register(r)) == s.(k := AddTask(s.k, r), pcs := s.pcs + [App])
  {}

  /** Two tasks of the given priorities are registered. */
  lemma Registers(s0: Sys, p: nat, q: nat) returns (s: Sys)
    requires Init(s0) && p < PRIORITY_IDLE && q < PRIORITY_IDLE
    ensures Reached(s, true) && s == s0.(k := s.k, pcs := [App, App, App])
    ensures |s.k.tasks| == 3 && s.k.tasks[0].state == Ready && s.k.current == 0
    ensures TaskIs(s.k, 1, Ready, p) && TaskIs(s.k, 2, Ready, q)
    ensures BitsAre(s.k, {(0, 15), (1, p), (2, q)}) && AtTickZero(s.k)
  {
    ReachedStart(s0);
    BootBits();
    var s1 := RegistersOne(s0, p, {(0, 15)});
    s := RegistersOne(s1, q, {(0, 15)} + {(1, p)});
    assert {(0, 15)} + {(1, p)} + {(2, q)} == {(0, 15), (1, p), (2, q)};
    assert [App] + [App] + [App] == [App, App, App];
  }

  ghost predicate AtTickZero(k: KState) {
    k.sleeping == {} && k.ticks == 0 && |k.wake| == MAX_TASKS
  }

  lemma RegistersOne(s: Sys, p: nat, bits: set<(nat, nat)>) returns (s': Sys)
    requires Reached(s, true) && p < PRIORITY_IDLE && s.k.current == 0 && |s.k.tasks| < MAX_TASKS
    requires BitsAre(s.k, bits) && AtTickZero(s.k)
    ensures Reached(s', true) && s' == s.(k := s'.k, pcs := s.pcs + [App]) && s'.k.current == 0
    ensures s'.k.tasks == s.k.tasks + [TaskRec(p, p, 0, Ready)] && AtTickZero(s'.k)
    ensures BitsAre(s'.k, bits + {(|s.k.tasks|, p)})
  {
    var r := TaskRec(p, p, 0, Ready);
    ReachedFacts(s, true);
    RegisterIs(s, r);
    AddBits(s.k, r, bits);
    ReachedStep(s, Register(r), true);
    s' := After(s, Register(r));
  }

  ghost predicate Fresh(s: Sys) {
    !s.pending && AtTickZero(s.k)
  }

  ghost function Boots(): Sys {
    Sys(Boot(), [MutexCore(0, None)], [SemCore(0, 1)], [0], Three([], [], []), [App], false)
  }

  lemma FirstRuns(s: Sys, s': Sys)
    requires At(s, 0, Ready, Ready, {(0, 15), (1, 1), (2, 2)}, App, App) && AtTickZero(s.k)
    requires Step(s, SelectTask, s') && Typed(s')
    ensures At(s', 1, Running, Ready, {(0, 15), (2, 2)}, App, App) && Fresh(s')
  {
    SelectBits(s.k, 1, 1, {(0, 15), (1, 1), (2, 2)});
    assert {(0, 15), (1, 1), (2, 2)} - {(1, 1)} == {(0, 15), (2, 2)};
  }

  /** Two tasks are registered and the first one runs. */
  lemma TwoTasks() returns (s: Sys)
    ensures Reached(s, true) && At(s, 1, Running, Ready, {(0, 15), (2, 2)}, App, App)
    ensures Objects(s, MutexCore(0, None), [], [], []) && Fresh(s)
  {
    var s0 := Registers(Boots(), 1, 2);
    ReachedStep(s0, SelectTask, true);
    s := After(s0, SelectTask);
    FirstRuns(s0, s);
  }

  // ----------------------------------------------------------- a signaller that is lost

  lemma SignalKeepsReady(s: Sys, x: nat)
    requires Sound(s) && Typed(s) && x < |s.sems| && AnyReady(s.k)
    requires InApp(s)
    ensures var s1 := After(s, SignalSem(x, false));
      && AnyReady(s1.k) && s1.k.current == s.k.current && Executes(s1) && s1.pcs[s1.k.current].Signalled?
  {
    var t: nat, l: nat :| l < PRIORITY_IDLE && ReadyAt(s.k, t, l);
    assert ReadyAt(AfterSignal(s, x).k, t, l);
  }

  lemma WriteKeepsReady(s1: Sys)
    requires Typed(s1) && AnyReady(s1.k) && Executes(s1) && s1.pcs[s1.k.current].Signalled?
    ensures var s2 := After(s1, ReadySelf);
      AnyReady(s2.k) && Midway(s2) && s2.k.current == s1.k.current
  {
    var t: nat, l: nat :| l < PRIORITY_IDLE && ReadyAt(s1.k, t, l);
    assert ReadyAt(After(s1, ReadySelf).k, t, l);
  }

  lemma TickKeepsReady(s2: Sys)
    requires Sound(s2) && Typed(s2) && AnyReady(s2.k) && Midway(s2)
    ensures var s3 := After(s2, SysTick);
      AnyReady(s3.k) && Midway(s3) && s3.k.current == s2.k.current
  {
    InterruptEffect(s2, SysTick);
    ReadyStays(s2.k, After(s2, SysTick).k);
  }

  lemma LosingWrite(s1: Sys) returns (s2: Sys, s3: Sys, s4: Sys)
    requires Sound(s1) && Base(s1) && Executes(s1) && s1.pcs[s1.k.current].Signalled? && AnyReady(s1.k)
    ensures Step(s1, ReadySelf, s2) && Step(s2, SysTick, s3) && Step(s3, SelectTask, s4)
    ensures Lost(s4, s1.k.current) && !Fine(s4)
  {
    s2 := After(s1, ReadySelf);
    SoundStep(s1, ReadySelf);
    BaseStep(s1, ReadySelf, s2);
    s3 := After(s2, SysTick);
    SoundStep(s2, SysTick);
    BaseStep(s2, SysTick, s3);
    WriteKeepsReady(s1);
    TickKeepsReady(s2);
    SwitchLosesForGood(s3);
    SwitchLoses(s3);
    s4 := After(s3, SelectTask);
  }

  lemma LosingSteps(s: Sys, x: nat) returns (s1: Sys, s2: Sys, s3: Sys, s4: Sys)
    requires Sound(s) && Base(s) && InApp(s) && x < |s.sems| && AnyReady(s.k)
    ensures Step(s, SignalSem(x, false), s1) && Step(s1, ReadySelf, s2)
    ensures Step(s2, SysTick, s3) && Step(s3, SelectTask, s4)
    ensures Lost(s4, s.k.current) && !Fine(s4)
  {
    s1 := After(s, SignalSem(x, false));
    SoundStep(s, SignalSem(x, false));
    BaseStep(s, SignalSem(x, false), s1);
    SignalKeepsReady(s, x);
    s2, s3, s4 := LosingWrite(s1);
  }

  lemma ReachedBy(s: Sys, l: Label, s': Sys)
    requires Reached(s, false) && Step(s, l, s')
    ensures Reached(s', false)
  {
    ReachedStep(s, l, false);
  }

  /** From any state that an orderly run reaches, in which task code runs and another task
      is ready: a task that signals, is interrupted by a tick right after the write of its
      own state, and loses the processor in it, is in none of the four places, for good. */
  lemma SignallerIsLost(s: Sys, x: nat) returns (s1: Sys, s2: Sys, s3: Sys, s4: Sys)
    requires Reached(s, true) && InApp(s) && x < |s.sems| && AnyReady(s.k)
    ensures Step(s, SignalSem(x, false), s1) && Step(s1, ReadySelf, s2)
    ensures Step(s2, SysTick, s3) && Step(s3, SelectTask, s4)
    ensures Reached(s4, false) && Lost(s4, s.k.current) && !Fine(s4)
  {
    ReachedFacts(s, true);
    s1, s2, s3, s4 := LosingSteps(s, x);
    ReachedBy(s, SignalSem(x, false), s1);
    ReachedBy(s1, ReadySelf, s2);
    ReachedBy(s2, SysTick, s3);
    ReachedBy(s3, SelectTask, s4);
  }

  /** Such a run exists. */
  lemma SomeSignallerIsLost() returns (s: Sys, t: nat)
    ensures Reached(s, false) && Lost(s, t) && !Fine(s)
  {
    var s0 := TwoTasks();
    t := s0.k.current;
    assert ReadyAt(s0.k, 2, 2);
    var s1, s2, s3;
    s1, s2, s3, s := SignallerIsLost(s0, 0);
  }

  // ---------------------------------------------------- a level marked although empty

  lemma StoresOwnBit(s: Sys)
    requires At(s, 1, Running, Ready, {(0, 15), (2, 2)}, Signalled, App) && !s.pending
    ensures var s1 := After(s, ReadySelf);
      Typed(s1) ==>
        && At(s1, 1, Ready, Ready, {(0, 15), (2, 2)}, StateWritten, App)
        && !s1.pending && s1.k.sleeping == s.k.sleeping
  {
    forall t: nat, l: nat
      ensures ReadyAt(After(s, ReadySelf).k, t, l) <==> ReadyAt(s.k, t, l)
    {}
  }

  lemma LoadsOwnWord(s: Sys)
    requires At(s, 1, Ready, Ready, {(0, 15), (2, 2)}, StateWritten, App) && !s.pending
    ensures var s1 := After(s, ReadySelf);
      Typed(s1) ==>
        && At(s1, 1, Ready, Ready, {(0, 15), (2, 2)}, WordLoaded(1, {}), App)
        && !s1.pending && s1.k.sleeping == s.k.sleeping
  {
    forall t: nat
      ensures t !in s.k.ready[1]
    {
      assert !ReadyAt(s.k, t, 1);
    }
    assert s.k.ready[1] == {};
    forall t: nat, l: nat
      ensures ReadyAt(After(s, ReadySelf).k, t, l) <==> ReadyAt(s.k, t, l)
    {}
  }

  lemma StoresOwnWord(s: Sys)
    requires At(s, 1, Ready, Ready, {(0, 15), (2, 2)}, WordLoaded(1, {}), App) && !s.pending
    ensures Orderly(s, ReadySelf)
    ensures var s1 := After(s, ReadySelf);
      Typed(s1) ==>
        && At(s1, 1, Ready, Ready, {(0, 15), (2, 2), (1, 1)}, WordStored(1), App)
        && !s1.pending && s1.k.sleeping == s.k.sleeping
  {
    forall t: nat
      ensures t !in s.k.ready[1]
    {
      assert !ReadyAt(s.k, t, 1);
    }
    assert s.k.ready[1] == {};
    forall t: nat, l: nat
      ensures ReadyAt(After(s, ReadySelf).k, t, l) <==> (t, l) in {(0, 15), (2, 2), (1, 1)}
    {
      assert l != 1 ==> (ReadyAt(After(s, ReadySelf).k, t, l) <==> ReadyAt(s.k, t, l));
    }
  }

  lemma SwitchesToSelf(s: Sys)
    requires At(s, 1, Ready, Ready, {(0, 15), (2, 2), (1, 1)}, WordStored(1), App)
    ensures Orderly(s, SelectTask)
    ensures var s1 := After(s, SelectTask);
      Typed(s1) ==> At(s1, 1, Running, Ready, {(0, 15), (2, 2)}, WordStored(1), App) && !s1.pending
  {
    assert ReadyAt(s.k, 1, 1);
    SelectBits(s.k, 1, 1, {(0, 15), (2, 2), (1, 1)});
    assert {(0, 15), (2, 2), (1, 1)} - {(1, 1)} == {(0, 15), (2, 2)};
  }

  lemma MarksNobody(s: Sys)
    requires At(s, 1, Running, Ready, {(0, 15), (2, 2)}, WordStored(1), App) && !s.pending
    ensures var s1 := After(s, ReadySelf);
      Typed(s1) ==> Enabled(s1, ReadySelf) && Orderly(s1, ReadySelf) && !Marked(After(s1, ReadySelf).k)
  {
    var s1 := After(s, ReadySelf);
    if Typed(s1) {
      var s2 := After(s1, ReadySelf);
      assert 1 in s2.k.levels;
      forall t: nat
        ensures t !in s2.k.ready[1]
      {
        assert !ReadyAt(s.k, t, 1);
      }
      assert s2.k.ready[1] == {};
    }
  }

  lemma OwnWordStored() returns (s: Sys)
    ensures Reached(s, true) && s.k.sleeping == {}
    ensures At(s, 1, Ready, Ready, {(0, 15), (2, 2), (1, 1)}, WordStored(1), App)
  {
    s := TwoTasks();
    ReachedStep(s, SignalSem(0, false), true);
    SignalsNobody(s);
    s := After(s, SignalSem(0, false));
    StoresOwnBit(s);
    s := ReachedSelf(s);
    LoadsOwnWord(s);
    s := ReachedSelf(s);
    StoresOwnWord(s);
    s := ReachedSelf(s);
  }

  /** A tick between a task's store of its ready word and its store of the bitmap, after
      which selection picks the same task: the level it then marks is empty, although
      every task is where it should be. */
  lemma MarkedButEmpty() returns (s: Sys)
    ensures Reached(s, true) && !Marked(s.k)
  {
    s := OwnWordStored();
    TickOnly(s);
    ReachedStep(s, SysTick, true);
    s := After(s, SysTick);
    SwitchesToSelf(s);
    ReachedStep(s, SelectTask, true);
    s := After(s, SelectTask);
    MarksNobody(s);
    s := ReachedSelf(s);
    s := ReachedSelf(s);
  }

  lemma ReachedSelf(s: Sys) returns (s': Sys)
    requires Reached(s, true) && Enabled(s, ReadySelf) && Orderly(s, ReadySelf)
    ensures Typed(s) && s' == After(s, ReadySelf) && Reached(s', true) && Typed(s')
  {
    ReachedStep(s, ReadySelf, true);
    s' := After(s, ReadySelf);
  }

  lemma SignalsNobody(s: Sys)
    requires At(s, 1, Running, Ready, {(0, 15), (2, 2)}, App, App) && Fresh(s)
    requires Objects(s, MutexCore(0, None), [], [], [])
    ensures var s1 := After(s, SignalSem(0, false));
      Typed(s1) ==>
        At(s1, 1, Running, Ready, {(0, 15), (2, 2)}, Signalled, App) && !s1.pending && s1.k.sleeping == {}
  {
    forall t: nat, l: nat
      ensures ReadyAt(After(s, SignalSem(0, false)).k, t, l) <==> ReadyAt(s.k, t, l)
    {}
  }

  lemma TickOnly(s: Sys)
    requires At(s, 1, Ready, Ready, {(0, 15), (2, 2), (1, 1)}, WordStored(1), App) && s.k.sleeping == {}
    ensures var s1 := After(s, SysTick);
      Typed(s1) ==> At(s1, 1, Ready, Ready, {(0, 15), (2, 2), (1, 1)}, WordStored(1), App)
  {
    forall t: nat, l: nat
      ensures ReadyAt(After(s, SysTick).k, t, l) <==> ReadyAt(s.k, t, l)
    {}
  }

  // ------------------------------------------------------------ a task that is alone

  /** Task 1 falls asleep. */
  lemma FirstSleeps(s: Sys, m: MutexCore, n: nat)
    requires At(s, 1, Running, Ready, {(0, 15), (2, 2)}, App, App) && Objects(s, m, [], [], []) && Fresh(s)
    ensures Enabled(s, Sleep(n))
    ensures var s1 := After(s, Sleep(n));
      Typed(s1) ==>
        && At(s1, 1, Sleeping, Ready, {(0, 15), (2, 2)}, App, App) && Objects(s1, m, [], [], [])
        && s1.k.ticks == 0 && s1.k.sleeping == {1} && |s1.k.wake| == MAX_TASKS && s1.k.wake[1] == n
  {
    SameBits(s.k, After(s, Sleep(n)).k, {(0, 15), (2, 2)});
  }

  /** Task 2 alone runs, while task 1 sleeps n ticks. */
  ghost predicate SecondAlone(s: Sys, m: MutexCore, n: nat) {
    && At(s, 2, Sleeping, Running, {(0, 15)}, App, App) && Objects(s, m, [], [], []) && !s.pending
    && s.k.ticks == 0 && s.k.sleeping == {1} && |s.k.wake| == MAX_TASKS && s.k.wake[1] == n
  }

  lemma SecondPicked(s: Sys, m: MutexCore, n: nat)
    requires At(s, 1, Sleeping, Ready, {(0, 15), (2, 2)}, App, App) && Objects(s, m, [], [], [])
    requires s.k.ticks == 0 && s.k.sleeping == {1} && |s.k.wake| == MAX_TASKS && s.k.wake[1] == n
    ensures Orderly(s, SelectTask)
    ensures var s1 := After(s, SelectTask); Typed(s1) ==> SecondAlone(s1, m, n)
  {
    assert ReadyAt(s.k, 2, 2);
    SelectBits(s.k, 2, 2, {(0, 15), (2, 2)});
    assert {(0, 15), (2, 2)} - {(2, 2)} == {(0, 15)};
  }

  lemma SecondTakesOver(s0: Sys, m: MutexCore, n: nat) returns (s: Sys)
    requires Reached(s0, true) && At(s0, 1, Running, Ready, {(0, 15), (2, 2)}, App, App)
    requires Objects(s0, m, [], [], []) && Fresh(s0)
    ensures Reached(s, true) && SecondAlone(s, m, n)
  {
    FirstSleeps(s0, m, n);
    ReachedStep(s0, Sleep(n), true);
    s := After(s0, Sleep(n));
    SecondPicked(s, m, n);
    ReachedStep(s, SelectTask, true);
    s := After(s, SelectTask);
  }

  // ---------------------------------------------- an event wait that returns while queued

  /** Task 2 is current and blocked inside its event wait, whose deadline is tick 1. */
  ghost predicate BlockedInWait(s: Sys, ticks: nat) {
    && At(s, 2, Sleeping, Blocked, {(0, 15)}, App, Waiting(0, 1, 1)) && Objects(s, MutexCore(0, None), [], [], [2])
    && s.k.ticks == ticks && s.k.sleeping == {1} && |s.k.wake| == MAX_TASKS && s.k.wake[1] == 9
  }

  lemma SecondWaits(s: Sys)
    requires SecondAlone(s, MutexCore(0, None), 9)
    ensures Enabled(s, WaitEvents(0, 1, 1))
    ensures After(s, WaitEvents(0, 1, 1)) ==
            s.(k := SetFlags(Scheduling.SetState(s.k, 2, Blocked), 2, 1), queues := Three([], [], [2]),
               pcs := [App, App, Waiting(0, 1, 1)], pending := true)
  {
    OneOfThree([], [], [], [2]);
    assert Enqueued([], 2) == [2];
    MaskOne();
  }

  lemma MaskOne()
    ensures Fits(1, WIDTH32) && And(0, 1) == 0
  {
    Pow2Monotone(1, WIDTH32);
  }

  lemma NobodyToRun(s: Sys, ticks: nat)
    requires BlockedInWait(s, ticks)
    ensures var s1 := After(s, SelectTask); Typed(s1) && BlockedInWait(s1, ticks) && !s1.pending
  {
    NobodyBits(s.k, {(0, 15)});
    assert After(s, SelectTask) == s.(pending := false);
  }

  lemma NobodyDue(s: Sys)
    requires BlockedInWait(s, 0)
    ensures var s1 := After(s, SysTick); Typed(s1) ==> BlockedInWait(s1, 1)
  {
    forall t: nat, l: nat
      ensures ReadyAt(After(s, SysTick).k, t, l) <==> ReadyAt(s.k, t, l)
    {}
  }

  /** The wait returns false at its deadline and takes the caller out of the queue, but
      leaves it blocked. */
  lemma ReturnsBlocked(s: Sys)
    requires BlockedInWait(s, 1) && !s.pending
    ensures Enabled(s, RecheckEvents) && RecheckResult(s).NotGot?
    ensures var s1 := After(s, RecheckEvents);
      && s1.pcs == [App, App, App] && |s1.k.tasks| == 3 && s1.k.tasks[2].state.Blocked? && s1.k.current == 2
      && forall r | r in s1.queues :: 2 !in s1.queues[r]
  {
    MaskOne();
    var s1 := After(s, RecheckEvents);
    assert Removed([2], 2) == [];
    forall r | r in s1.queues
      ensures 2 !in s1.queues[r]
    {}
  }

  /** Such a run exists: its last state has a task executing that is blocked and in no
      queue. */
  lemma EventWaitReturnsBlocked() returns (s: Sys)
    ensures Reached(s, false) && s.k.current == 2 && Executes(s) && s.pcs[2].App?
    ensures 2 < |s.k.tasks| && s.k.tasks[2].state.Blocked? && forall r | r in s.queues :: 2 !in s.queues[r]
    ensures !Fine(s)
  {
    s := TwoTasks();
    s := SecondTakesOver(s, MutexCore(0, None), 9);
    SecondWaits(s);
    ReachedStep(s, WaitEvents(0, 1, 1), true);
    SameBits(s.k, After(s, WaitEvents(0, 1, 1)).k, {(0, 15)});
    s := After(s, WaitEvents(0, 1, 1));
    ReachedFacts(s, true);
    s := WaitsAlone(s);
    NotInPlace(s);
  }

  lemma NotInPlace(s: Sys)
    requires s.k.current == 2 && Executes(s) && s.pcs[2].App? && 2 < |s.k.tasks| && s.k.tasks[2].state.Blocked?
    ensures !Fine(s)
  {}

  lemma WaitsAlone(s0: Sys) returns (s: Sys)
    requires Reached(s0, false) && BlockedInWait(s0, 0)
    ensures Reached(s, false) && s.k.current == 2 && Executes(s) && s.pcs[2].App?
    ensures 2 < |s.k.tasks| && s.k.tasks[2].state.Blocked? && forall r | r in s.queues :: 2 !in s.queues[r]
  {
    NobodyToRun(s0, 0);
    ReachedStep(s0, SelectTask, false);
    s := After(s0, SelectTask);
    NobodyDue(s);
    ReachedStep(s, SysTick, false);
    s := After(s, SysTick);
    NobodyToRun(s, 1);
    ReachedStep(s, SelectTask, false);
    s := After(s, SelectTask);
    ReturnsBlocked(s);
    ReachedStep(s, RecheckEvents, false);
    s := After(s, RecheckEvents);
  }

  // --------------------------------------------- nobody ready, and yet nothing goes wrong

  /** Task 2 goes to sleep although nobody is ready; the next tick wakes task 1. */
  lemma SleepsAlone(s: Sys) returns (s1: Sys, s2: Sys)
    requires SecondAlone(s, MutexCore(0, None), 1)
    ensures Enabled(s, Sleep(9)) && Stops(s, Sleep(9)) && !AnyReady(s.k) && s1 == After(s, Sleep(9))
    ensures Typed(s1) ==> s2 == After(s1, SysTick) && AnyReady(s2.k) && Orderly(s2, SelectTask)
  {
    NobodyBits(s.k, {(0, 15)});
    s1 := After(s, Sleep(9));
    if Typed(s1) {
      s2 := After(s1, SysTick);
      assert 1 in Due(s1.k.(ticks := s1.k.ticks + 1));
      assert ReadyAt(s2.k, 1, 1);
    } else {
      s2 := s1;
    }
  }

  /** A call that stops its task while nobody is ready need not stall: an interrupt before
      the selection may still ready somebody.  All states of such a run can be fine. */
  lemma StallNeedNotFollow() returns (s: Sys, s1: Sys, s2: Sys, s3: Sys)
    ensures Reached(s, true) && Step(s, Sleep(9), s1) && Stops(s, Sleep(9)) && !AnyReady(s.k)
    ensures Step(s1, SysTick, s2) && Step(s2, SelectTask, s3)
    ensures Fine(s) && Fine(s1) && Fine(s2) && Fine(s3)
  {
    s := TwoTasks();
    s := SecondTakesOver(s, MutexCore(0, None), 1);
    s1, s2 := SleepsAlone(s);
    ReachedFine(s);
    ReachedStep(s, Sleep(9), true);
    ReachedFine(s1);
    ReachedStep(s1, SysTick, true);
    ReachedFine(s2);
    ReachedStep(s2, SelectTask, true);
    s3 := After(s2, SelectTask);
    ReachedFine(s3);
  }

  lemma ReachedFine(s: Sys)
    requires Reached(s, true)
    ensures Fine(s) && Typed(s)
  {
    ReachedFacts(s, true);
    SoundIsFine(s);
  }
}
