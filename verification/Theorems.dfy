/** What holds over whole runs of the system.  Results about locks, priorities and the idle
    task hold in every run; results about the places and wake-ups of tasks hold in orderly
    runs, and Windows says exactly which runs those are. */
module Theorems {
  import opened Tasks
  import opened Words
  import opened Scheduling
  import opened SchedulingProofs
  import opened Blocking
  import opened Places
  import opened Systems
  import opened BaseProofs
  import opened OrderlyProofs

  // ------------------------------------------------------------------ where tasks are

  /** In every state of an orderly run each registered task is in exactly one of the four
      places, as its state field says, and the current task alone may be running; a task
      between the writes of its own state and bit still counts as running. */
  lemma OnePlaceInRun(ss: seq<Sys>, ls: seq<Label>, i: nat, t: nat)
    requires Run(ss, ls) && i < |ss| && OrderlyUpTo(ss, ls, i) && t < |ss[i].k.tasks|
    ensures ss[i].k.current < |ss[i].k.tasks|
    ensures var k, qs := Seen(ss[i]).k, ss[i].queues;
      && t < |k.tasks|
      && (k.tasks[t].state.Running? <==> OnCpu(k, t))
      && (k.tasks[t].state.Ready? <==> ReadyOnce(k, t))
      && (k.tasks[t].state.Sleeping? <==> SleepBit(k, t))
      && (k.tasks[t].state.Blocked? <==> QueuedOnce(qs, t))
      && (OnCpu(k, t) || ReadyOnce(k, t) || SleepBit(k, t) || QueuedOnce(qs, t))
      && (OnCpu(k, t) ==> t == k.current)
  {
    SoundInRun(ss, ls, i);
    OnePlace(Seen(ss[i]).k, ss[i].queues, t);
  }

  /** Without anything in between, the single accesses by which a task readies itself
      make it ready like a wake-up does. */
  lemma ReadySelfUninterrupted(s: Sys) returns (s1: Sys, s2: Sys, s3: Sys, s4: Sys, s5: Sys)
    requires Base(s) && Executes(s) && s.pcs[s.k.current].Signalled?
    ensures Step(s, ReadySelf, s1) && Step(s1, ReadySelf, s2) && Step(s2, ReadySelf, s3)
    ensures Step(s3, ReadySelf, s4) && Step(s4, ReadySelf, s5)
    ensures s5 == s.(k := SetReady(s.k, s.k.current), pcs := s.pcs[s.k.current := App], pending := true)
  {
    s1, s2, s3 := WritesBit(s);
    s4, s5 := WritesMark(s3);
  }

  lemma WritesState(s: Sys) returns (s1: Sys)
    requires Base(s) && Executes(s) && s.pcs[s.k.current].Signalled?
    ensures Step(s, ReadySelf, s1) && Base(s1) && Executes(s1)
    ensures s1 == s.(k := Scheduling.SetState(s.k, s.k.current, Ready), pcs := s.pcs[s.k.current := StateWritten])
  {
    s1 := After(s, ReadySelf);
    BaseStep(s, ReadySelf, s1);
  }

  lemma WritesWord(s1: Sys) returns (s2: Sys, s3: Sys)
    requires Base(s1) && Executes(s1) && s1.pcs[s1.k.current].StateWritten?
    ensures Step(s1, ReadySelf, s2) && Step(s2, ReadySelf, s3) && Base(s3) && Executes(s3)
    ensures var c, p := s1.k.current, s1.k.tasks[s1.k.current].priority;
      && p < |s1.k.ready|
      && s3 == s1.(k := s1.k.(ready := s1.k.ready[p := s1.k.ready[p] + {c}]), pcs := s1.pcs[c := WordStored(p)])
  {
    assert GoodPriority(s1.k.tasks[s1.k.current], s1.k.highest);
    s2 := After(s1, ReadySelf);
    BaseStep(s1, ReadySelf, s2);
    s3 := After(s2, ReadySelf);
    BaseStep(s2, ReadySelf, s3);
  }

  lemma WritesBit(s: Sys) returns (s1: Sys, s2: Sys, s3: Sys)
    requires Base(s) && Executes(s) && s.pcs[s.k.current].Signalled?
    ensures Step(s, ReadySelf, s1) && Step(s1, ReadySelf, s2) && Step(s2, ReadySelf, s3)
    ensures Base(s3) && Executes(s3) && s.k.tasks[s.k.current].priority < LEVELS
    ensures var c, p := s.k.current, s.k.tasks[s.k.current].priority;
      s3 == s.(k := SetReady(s.k, c).(levels := s.k.levels), pcs := s.pcs[c := WordStored(p)])
  {
    s1 := WritesState(s);
    s2, s3 := WritesWord(s1);
  }

  lemma WritesMark(s3: Sys) returns (s4: Sys, s5: Sys)
    requires Base(s3) && Executes(s3) && s3.pcs[s3.k.current].WordStored?
    ensures Step(s3, ReadySelf, s4) && Step(s4, ReadySelf, s5)
    ensures var c, l := s3.k.current, s3.pcs[s3.k.current].level;
      s5 == s3.(k := s3.k.(levels := s3.k.levels + {l}), pcs := s3.pcs[c := App], pending := true)
  {
    s4 := After(s3, ReadySelf);
    BaseStep(s3, ReadySelf, s4);
    s5 := After(s4, ReadySelf);
  }

  /** A level may have a ready task without being marked: registering does not mark it. */
  lemma UnmarkedLevel() returns (ss: seq<Sys>)
    ensures Run(ss, []) && |ss[0].k.ready| == LEVELS
    ensures ss[0].k.ready[PRIORITY_IDLE] == {0} && PRIORITY_IDLE !in ss[0].k.levels
  {
    ss := [Sys(Boot(), [], [], [], map[], [App], false)];
    assert Init(ss[0]);
  }

  /** In an orderly run whoever makes a call is in no queue, and no queue is full then, so
      whoever blocks really joins the queue. */
  lemma NeverDropped(ss: seq<Sys>, ls: seq<Label>, i: nat, r: QRef)
    requires Run(ss, ls) && i < |ss| && OrderlyUpTo(ss, ls, i) && AtWorkOrLoop(ss[i]) && r in ss[i].queues
    ensures Enqueued(ss[i].queues[r], ss[i].k.current) == ss[i].queues[r] + [ss[i].k.current]
    ensures ss[i].k.current !in ss[i].queues[r]
  {
    SoundInRun(ss, ls, i);
    WorkingRuns(ss[i]);
    RoomToBlock(ss[i].k, ss[i].queues, r);
  }

  /** In all runs an entry is dropped only by a queue that holds some task twice, or the
      current task already. */
  lemma DropNeedsTwice(ss: seq<Sys>, ls: seq<Label>, i: nat, r: QRef)
    requires Run(ss, ls) && i < |ss| && r in ss[i].queues
    requires Enqueued(ss[i].queues[r], ss[i].k.current) == ss[i].queues[r]
    ensures !Distinct(ss[i].queues[r]) || ss[i].k.current in ss[i].queues[r]
  {
    BaseInRun(ss, ls, i);
    var q, c := ss[i].queues[r], ss[i].k.current;
    assert |q| >= MAX_TASKS by { assert |q + [c]| > |q|; }
    if Distinct(q) && c !in q {
      var s := Below(|ss[i].k.tasks|);
      Pigeonhole(q, s - {c});
      assert false;
    }
  }

  // ------------------------------------------------- what a step does to a priority

  ghost predicate OwnsSome(s: Sys, t: nat) {
    exists m :: 0 <= m < |s.mutexes| && s.mutexes[m].owner == Some(t)
  }

  /** What any step may do to the priority of a task: it never gets lower, and it gets
      higher only if the task owns a mutex. */
  ghost predicate PriorityKept(s: Sys, k': KState, t: nat) {
    && t < |s.k.tasks| <= |k'.tasks|
    && k'.tasks[t].priority <= s.k.tasks[t].priority
    && (k'.tasks[t].priority == s.k.tasks[t].priority || OwnsSome(s, t))
  }

  lemma PassPriority(s: Sys, t: nat)
    requires Base(s) && Enabled(s, AcquirePass) && t < |s.k.tasks|
    ensures PriorityKept(s, AfterAcquirePass(s).k, t)
  {
    var m := s.pcs[s.k.current].m;
    assert GoodCore(s.k, s.mutexes[m]);
    assert s.mutexes[m].owner == Some(t) ==> OwnsSome(s, t);
  }

  lemma SelectPriority(s: Sys, t: nat)
    requires Base(s) && t < |s.k.tasks|
    ensures PriorityKept(s, Select(s.k), t)
  {
    if AnyReady(s.k) {
      var l, i := SelectPicks(s.k);
    } else {
      SelectStalls(s.k);
    }
  }

  lemma RaisePriority(s: Sys, g: nat, bits: nat, t: nat)
    requires Base(s) && g < |s.groups| && t < |s.k.tasks|
    ensures PriorityKept(s, AfterRaise(s, g, bits).k, t)
  {
    WakeEachEventIs(s.k, Matching(s.k, Or(s.groups[g], bits), s.queues[GroupQ(g)]), t);
  }

  lemma WakerPriority(s: Sys, l: Label, t: nat)
    requires Base(s) && Enabled(s, l) && t < |s.k.tasks| && (l.ReleaseMutex? || l.SignalSem? || l.FlushSem?)
    ensures PriorityKept(s, After(s, l).k, t)
  {
    if l.FlushSem? { WakeEachIs(s.k, s.queues[SemQ(l.x)], t); }
  }

  lemma OtherPriority(s: Sys, l: Label, t: nat)
    requires Base(s) && Enabled(s, l) && t < |s.k.tasks|
    requires l.Register? || l.SysTick? || l.Sleep? || l.StartAcquire? || l.RecheckEvents? || l.LowerEvents?
    ensures PriorityKept(s, After(s, l).k, t)
  {}

  lemma WaiterPriority(s: Sys, l: Label, t: nat)
    requires Base(s) && Enabled(s, l) && t < |s.k.tasks| && (l.WaitSem? || l.WaitEvents?)
    ensures PriorityKept(s, After(s, l).k, t)
  {}

  lemma SelfPriority(s: Sys, t: nat)
    requires Base(s) && Enabled(s, ReadySelf) && t < |s.k.tasks|
    ensures PriorityKept(s, After(s, ReadySelf).k, t)
  {}

  lemma PriorityStep(s: Sys, l: Label, t: nat)
    requires Base(s) && Enabled(s, l) && t < |s.k.tasks|
    ensures PriorityKept(s, After(s, l).k, t)
  {
    match l
    case SelectTask => SelectPriority(s, t);
    case AcquirePass => PassPriority(s, t);
    case ReleaseMutex(_) => WakerPriority(s, l, t);
    case SignalSem(_, _) => WakerPriority(s, l, t);
    case FlushSem(_, _) => WakerPriority(s, l, t);
    case WaitSem(_, _, _) => WaiterPriority(s, l, t);
    case WaitEvents(_, _, _) => WaiterPriority(s, l, t);
    case ReadySelf => SelfPriority(s, t);
    case RaiseEvents(g, bits) => RaisePriority(s, g, bits, t);
    case _ => OtherPriority(s, l, t);
  }

  lemma PriorityKeptInRun(ss: seq<Sys>, ls: seq<Label>, i: nat, t: nat)
    requires Run(ss, ls) && i < |ls| && t < |ss[i].k.tasks|
    ensures PriorityKept(ss[i], ss[i + 1].k, t)
  {
    BaseInRun(ss, ls, i);
    assert Step(ss[i], ls[i], ss[i + 1]);
    PriorityStep(ss[i], ls[i], t);
  }

  // ---------------------------------------------------------------- mutual exclusion

  /** Step l takes mutex m for the current task. */
  ghost predicate Acquires(s: Sys, l: Label, m: nat) {
    && l.AcquirePass? && Typed(s) && Enabled(s, l)
    && s.pcs[s.k.current].m == m && s.mutexes[m].count <= 0
  }

  /** Step l lets go of mutex m, which the current task owns. */
  ghost predicate Releases(s: Sys, l: Label, m: nat) {
    l == ReleaseMutex(m) && m < |s.mutexes| && s.mutexes[m].owner == Some(s.k.current)
  }

  /** The owner of a mutex changes by these two kinds of steps only. */
  ghost predicate OwnerMoves(s: Sys, l: Label, s': Sys, m: nat) {
    && m < |s.mutexes| == |s'.mutexes|
    && var o, o' := s.mutexes[m].owner, s'.mutexes[m].owner;
       if Acquires(s, l, m) then o.None? && o' == Some(s.k.current)
       else if Releases(s, l, m) then o == Some(s.k.current) && o'.None?
       else o' == o
  }

  lemma PassOwner(s: Sys, m: nat)
    requires Base(s) && Enabled(s, AcquirePass) && m < |s.mutexes|
    ensures OwnerMoves(s, AcquirePass, After(s, AcquirePass), m)
  {
    assert GoodCore(s.k, s.mutexes[m]);
  }

  lemma ReleaseOwner(s: Sys, n: nat, m: nat)
    requires Base(s) && Enabled(s, ReleaseMutex(n)) && m < |s.mutexes|
    ensures OwnerMoves(s, ReleaseMutex(n), After(s, ReleaseMutex(n)), m)
  {}

  /** All other steps leave the mutexes alone. */
  lemma MutexesAlone(s: Sys, l: Label)
    requires Typed(s) && Enabled(s, l) && !l.AcquirePass? && !l.ReleaseMutex?
    ensures After(s, l).mutexes == s.mutexes
  {}

  lemma OwnerStep(s: Sys, l: Label, s': Sys, m: nat)
    requires Base(s) && Step(s, l, s') && m < |s.mutexes|
    ensures OwnerMoves(s, l, s', m)
  {
    match l
    case AcquirePass => PassOwner(s, m);
    case ReleaseMutex(n) => ReleaseOwner(s, n, m);
    case _ => MutexesAlone(s, l);
  }

  lemma OwnerStepInRun(ss: seq<Sys>, ls: seq<Label>, j: nat, m: nat)
    requires Run(ss, ls) && j < |ls| && m < |ss[j].mutexes|
    ensures OwnerMoves(ss[j], ls[j], ss[j + 1], m)
  {
    BaseInRun(ss, ls, j);
    OwnerStep(ss[j], ls[j], ss[j + 1], m);
  }

  datatype LockEvent = Took(t: nat) | LetGo(t: nat)

  /** What happened to mutex m in the first i steps. */
  ghost function LockEvents(ss: seq<Sys>, ls: seq<Label>, m: nat, i: nat): seq<LockEvent>
    requires i <= |ls| < |ss|
  {
    if i == 0 then [] else
      var s, l, h := ss[i - 1], ls[i - 1], LockEvents(ss, ls, m, i - 1);
      if Acquires(s, l, m) then h + [LockEvent.Took(s.k.current)]
      else if Releases(s, l, m) then h + [LetGo(s.k.current)] else h
  }

  /** Takings and lettings-go alternate, each pair by the same task, and the owner is
      the task whose last taking is still open. */
  ghost predicate Exclusive(h: seq<LockEvent>, owner: Option<nat>) {
    && (forall j | 0 <= j < |h| && j % 2 == 0 :: h[j].Took?)
    && (forall j | 0 <= j < |h| && j % 2 == 1 :: h[j] == LetGo(h[j - 1].t))
    && owner == if |h| % 2 == 1 then Some(h[|h| - 1].t) else None
  }

  lemma ExclusiveGrows(h: seq<LockEvent>, o: Option<nat>, t: nat)
    requires Exclusive(h, o)
    ensures o.None? ==> Exclusive(h + [LockEvent.Took(t)], Some(t))
    ensures o == Some(t) ==> Exclusive(h + [LetGo(t)], None)
  {}

  /** Over any run, between a task's successful acquire of m and its own release no
      acquire of m succeeds, and nobody else's release has any effect. */
  lemma {:induction false} MutualExclusion(ss: seq<Sys>, ls: seq<Label>, m: nat, i: nat)
    requires Run(ss, ls) && i <= |ls| && m < |ss[0].mutexes|
    ensures |ss[i].mutexes| == |ss[0].mutexes|
    ensures Exclusive(LockEvents(ss, ls, m, i), ss[i].mutexes[m].owner)
  {
    if i > 0 {
      var j := i - 1;
      MutualExclusion(ss, ls, m, j);
      OwnerStepInRun(ss, ls, j, m);
      ExclusiveGrows(LockEvents(ss, ls, m, j), ss[j].mutexes[m].owner, ss[j].k.current);
    }
  }

  /** count is 1 exactly while there is an owner, so reading the owner of a held mutex
      is safe. */
  lemma CountIsOwner(ss: seq<Sys>, ls: seq<Label>, m: nat, i: nat)
    requires Run(ss, ls) && i < |ss| && m < |ss[i].mutexes|
    ensures ss[i].mutexes[m].count == if ss[i].mutexes[m].owner.Some? then 1 else 0
    ensures ss[i].mutexes[m].owner.Some? ==> ss[i].mutexes[m].owner.value < |ss[i].k.tasks|
  {
    BaseInRun(ss, ls, i);
    assert GoodCore(ss[i].k, ss[i].mutexes[m]);
  }

  // ----------------------------------------------------------------- priority boosts

  lemma NotLowered(k: KState, s: Sys, k': KState, t: nat)
    requires t < |k.tasks| && t < |s.k.tasks| && !Lower(s.k.tasks[t].priority, k.tasks[t].priority)
    requires PriorityKept(s, k', t)
    ensures t < |k'.tasks| && !Lower(k'.tasks[t].priority, k.tasks[t].priority)
  {}

  /** No run ever lowers a priority. */
  lemma {:induction false} PriorityNeverLowered(ss: seq<Sys>, ls: seq<Label>, i: nat, j: nat, t: nat)
    requires Run(ss, ls) && i <= j < |ss| && t < |ss[i].k.tasks|
    ensures t < |ss[j].k.tasks| && !Lower(ss[j].k.tasks[t].priority, ss[i].k.tasks[t].priority)
    decreases j
  {
    if i < j {
      var h := j - 1;
      PriorityNeverLowered(ss, ls, i, h, t);
      PriorityKeptInRun(ss, ls, h, t);
      NotLowered(ss[i].k, ss[h], ss[h + 1].k, t);
    }
  }

  /** Step l makes the current task wait for mutex m, held by o. */
  ghost predicate WaitsFor(s: Sys, l: Label, m: nat, o: nat) {
    && l.AcquirePass? && Typed(s) && Enabled(s, l)
    && s.pcs[s.k.current].m == m && s.mutexes[m].owner == Some(o)
    && s.mutexes[m].count > 0
    && (s.pcs[s.k.current].forever || s.k.ticks <= s.pcs[s.k.current].end)
  }

  lemma BoostCovers(s: Sys, l: Label, s': Sys, m: nat, o: nat)
    requires Base(s) && Step(s, l, s') && WaitsFor(s, l, m, o)
    ensures o < |s'.k.tasks| && s'.k.tasks[o].priority <= s.k.tasks[s.k.current].priority
  {}

  /** From the moment a task waits for a mutex, the task that owned it then never again
      has a lower priority than the waiter had: the boost covers every waiter, and no
      release ever takes it back. */
  lemma BoostCoversForever(ss: seq<Sys>, ls: seq<Label>, m: nat, o: nat, i: nat, j: nat)
    requires Run(ss, ls) && i < j < |ss| && WaitsFor(ss[i], ls[i], m, o)
    ensures o < |ss[j].k.tasks| && ss[i].k.current < |ss[i].k.tasks|
    ensures !Lower(ss[j].k.tasks[o].priority, ss[i].k.tasks[ss[i].k.current].priority)
  {
    BaseInRun(ss, ls, i);
    BoostCovers(ss[i], ls[i], ss[i + 1], m, o);
    PriorityNeverLowered(ss, ls, i + 1, j, o);
  }

  // ------------------------------------------------------------------------ idle level

  /** Task t has no ready bit below idle. */
  ghost predicate NoBitBelowIdle(k: KState, t: nat) {
    forall l: nat | ReadyAt(k, t, l) :: l >= PRIORITY_IDLE
  }

  /** No ready word about to be stored at a level below idle has the bit of task t. */
  ghost predicate NoWordBelowIdle(pcs: seq<Pc>, t: nat) {
    forall u | 0 <= u < |pcs| && pcs[u].WordLoaded? && pcs[u].level < PRIORITY_IDLE :: t !in pcs[u].word
  }

  /** Task t has the idle priority, owns no mutex, is not the current task unless it is the
      idle task, and has no ready bit below idle, neither set nor about to be stored. */
  ghost predicate Dormant(s: Sys, t: nat) {
    && t < |s.k.tasks| && s.k.tasks[t].priority == PRIORITY_IDLE && !OwnsSome(s, t)
    && (t == 0 || t != s.k.current)
    && NoBitBelowIdle(s.k, t) && NoWordBelowIdle(s.pcs, t)
  }

  ghost predicate AllOwnersMove(s: Sys, l: Label, s': Sys) {
    |s'.mutexes| == |s.mutexes| && forall m | 0 <= m < |s.mutexes| :: OwnerMoves(s, l, s', m)
  }

  lemma MutexesStay(s: Sys, l: Label, s': Sys)
    requires Base(s) && Step(s, l, s')
    ensures AllOwnersMove(s, l, s')
  {
    forall m | 0 <= m < |s.mutexes|
      ensures OwnerMoves(s, l, s', m)
    {
      OwnerStep(s, l, s', m);
    }
  }

  lemma ReadyBelowIdle(k: KState, u: nat, t: nat)
    requires Shape(k) && u < |k.tasks| && t < |k.tasks| && k.tasks[t].priority == PRIORITY_IDLE && NoBitBelowIdle(k, t)
    ensures NoBitBelowIdle(SetReady(k, u), t)
  {
    forall l: nat | ReadyAt(SetReady(k, u), t, l)
      ensures l >= PRIORITY_IDLE
    {
      assert ReadyAt(k, t, l) || (u == t && l == PRIORITY_IDLE);
    }
  }

  lemma {:induction false} WakeEachBelowIdle(k: KState, q: seq<nat>, t: nat)
    requires Shape(k) && Registered(k, q) && t < |k.tasks| && k.tasks[t].priority == PRIORITY_IDLE
    requires NoBitBelowIdle(k, t)
    ensures NoBitBelowIdle(WakeEach(k, q), t)
  {
    if q != [] {
      WakeEachBelowIdle(k, q[..|q| - 1], t);
      WakeEachIs(k, q[..|q| - 1], t);
      ReadyBelowIdle(WakeEach(k, q[..|q| - 1]), q[|q| - 1], t);
    }
  }

  lemma {:induction false} WakeEachEventBelowIdle(k: KState, q: seq<nat>, t: nat)
    requires Shape(k) && Registered(k, q) && t < |k.tasks| && k.tasks[t].priority == PRIORITY_IDLE
    requires NoBitBelowIdle(k, t)
    ensures NoBitBelowIdle(WakeEachEvent(k, q), t)
  {
    if q != [] {
      var k1, u := WakeEachEvent(k, q[..|q| - 1]), q[|q| - 1];
      WakeEachEventBelowIdle(k, q[..|q| - 1], t);
      WakeEachEventIs(k, q[..|q| - 1], t);
      ReadyBelowIdle(k1, u, t);
      FewerBelowIdle(SetReady(k1, u), WakeEachEvent(k, q), t);
    }
  }

  lemma FewerBelowIdle(k: KState, k': KState, t: nat)
    requires NoBitBelowIdle(k, t) && forall l: nat | ReadyAt(k', t, l) :: ReadyAt(k, t, l) || l >= PRIORITY_IDLE
    ensures NoBitBelowIdle(k', t)
  {}

  lemma SelectBelowIdle(k: KState, t: nat)
    requires Shape(k) && t < |k.tasks| && k.tasks[t].priority == PRIORITY_IDLE && NoBitBelowIdle(k, t)
    ensures NoBitBelowIdle(Select(k), t)
    ensures AnyReady(k) ==> Select(k).current != t
    ensures !AnyReady(k) ==> Select(k).current == k.current
  {
    if AnyReady(k) {
      var l, i := SelectPicks(k);
      assert ReadyAt(k, i, l);
      if k.tasks[k.current].state.Running? { ReadyBelowIdle(k, k.current, t); }
      FewerBelowIdle(PutBack(k), Select(k), t);
    } else {
      SelectStalls(k);
    }
  }

  lemma WakerBelowIdle(s: Sys, l: Label, t: nat)
    requires Base(s) && Enabled(s, l) && Dormant(s, t)
    requires l.ReleaseMutex? || l.SignalSem? || l.FlushSem? || l.RaiseEvents?
    ensures NoBitBelowIdle(After(s, l).k, t) && After(s, l).k.current == s.k.current
  {
    match l
    case ReleaseMutex(m) => if s.queues[MutexQ(m)] != [] { ReadyBelowIdle(s.k, s.queues[MutexQ(m)][0], t); }
    case SignalSem(x, _) => if s.queues[SemQ(x)] != [] { ReadyBelowIdle(s.k, s.queues[SemQ(x)][0], t); }
    case FlushSem(x, _) =>
      WakeEachBelowIdle(s.k, s.queues[SemQ(x)], t);
      WakeEachIs(s.k, s.queues[SemQ(x)], t);
    case RaiseEvents(g, bits) =>
      var m := Matching(s.k, Or(s.groups[g], bits), s.queues[GroupQ(g)]);
      WakeEachEventBelowIdle(s.k, m, t);
      WakeEachEventIs(s.k, m, t);
  }

  lemma TaskBelowIdle(s: Sys, l: Label, t: nat)
    requires Base(s) && Enabled(s, l) && Dormant(s, t)
    requires l.Register? || l.SysTick? || l.Sleep? || l.StartAcquire? || l.RecheckEvents? || l.LowerEvents?
    ensures NoBitBelowIdle(Effect(s, l).k, t) && Effect(s, l).k.current == s.k.current
  {
    FewerBelowIdle(s.k, Effect(s, l).k, t);
  }

  lemma WaiterBelowIdle(s: Sys, l: Label, t: nat)
    requires Base(s) && Enabled(s, l) && Dormant(s, t) && (l.AcquirePass? || l.WaitSem? || l.WaitEvents?)
    ensures NoBitBelowIdle(Effect(s, l).k, t) && Effect(s, l).k.current == s.k.current
  {
    FewerBelowIdle(s.k, Effect(s, l).k, t);
  }

  lemma SelfBelowIdle(s: Sys, t: nat)
    requires Base(s) && Enabled(s, ReadySelf) && Dormant(s, t)
    ensures NoBitBelowIdle(AfterReadySelf(s).k, t) && AfterReadySelf(s).k.current == s.k.current
  {
    FewerBelowIdle(s.k, AfterReadySelf(s).k, t);
  }

  lemma BitsBelowIdle(s: Sys, l: Label, t: nat)
    requires Base(s) && Enabled(s, l) && Dormant(s, t)
    ensures NoBitBelowIdle(After(s, l).k, t)
    ensures After(s, l).k.current == s.k.current || (l.SelectTask? && AnyReady(s.k) && After(s, l).k.current != t)
    ensures l.SelectTask? && AnyReady(s.k) ==> After(s, l).k.current != t
  {
    if l.SelectTask? {
      SelectBelowIdle(s.k, t);
    } else if l.ReleaseMutex? || l.SignalSem? || l.FlushSem? || l.RaiseEvents? {
      WakerBelowIdle(s, l, t);
    } else if l.ReadySelf? {
      SelfBelowIdle(s, t);
    } else if l.AcquirePass? || l.WaitSem? || l.WaitEvents? {
      WaiterBelowIdle(s, l, t);
    } else {
      TaskBelowIdle(s, l, t);
    }
  }

  /** Only a task readying itself loads a word. */
  lemma LoadsBelowIdle(s: Sys, t: nat)
    requires Base(s) && Enabled(s, ReadySelf) && NoBitBelowIdle(s.k, t) && NoWordBelowIdle(s.pcs, t)
    ensures NoWordBelowIdle(After(s, ReadySelf).pcs, t)
  {
    forall m: nat | m < PRIORITY_IDLE
      ensures t !in s.k.ready[m]
    {
      assert !ReadyAt(s.k, t, m);
    }
  }

  lemma WakerWords(s: Sys, l: Label, t: nat)
    requires Base(s) && Enabled(s, l) && (l.SignalSem? || l.FlushSem?) && NoWordBelowIdle(s.pcs, t)
    ensures NoWordBelowIdle(After(s, l).pcs, t)
  {
    if l.FlushSem? { WakeEachIs(s.k, s.queues[SemQ(l.x)], 0); }
  }

  lemma LoopWords(s: Sys, l: Label, t: nat)
    requires Base(s) && Enabled(s, l) && NoWordBelowIdle(s.pcs, t)
    requires l.AcquirePass? || l.StartAcquire? || l.WaitEvents? || l.RecheckEvents?
    ensures NoWordBelowIdle(After(s, l).pcs, t)
  {}

  lemma OtherWords(s: Sys, l: Label, t: nat)
    requires Base(s) && Enabled(s, l) && NoWordBelowIdle(s.pcs, t)
    requires l.Register? || l.SelectTask? || l.SysTick? || l.Sleep? || l.ReleaseMutex? || l.WaitSem? ||
             l.RaiseEvents? || l.LowerEvents?
    ensures NoWordBelowIdle(After(s, l).pcs, t)
  {}

  lemma WordsBelowIdle(s: Sys, l: Label, t: nat)
    requires Base(s) && Enabled(s, l) && NoBitBelowIdle(s.k, t) && NoWordBelowIdle(s.pcs, t)
    ensures NoWordBelowIdle(After(s, l).pcs, t)
  {
    if l.ReadySelf? {
      LoadsBelowIdle(s, t);
    } else if l.SignalSem? || l.FlushSem? {
      WakerWords(s, l, t);
    } else if l.AcquirePass? || l.StartAcquire? || l.WaitEvents? || l.RecheckEvents? {
      LoopWords(s, l, t);
    } else {
      OtherWords(s, l, t);
    }
  }

  lemma DormantStep(s: Sys, l: Label, s': Sys, t: nat)
    requires Base(s) && Step(s, l, s') && Dormant(s, t)
    ensures Dormant(s', t) && (s'.k.current == t ==> s.k.current == t && (l.SelectTask? ==> !AnyReady(s.k)))
  {
    PriorityStep(s, l, t);
    MutexesStay(s, l, s');
    BitsBelowIdle(s, l, t);
    WordsBelowIdle(s, l, t);
    DormantOwnsNone(s, l, s', t);
  }

  lemma DormantOwnsNone(s: Sys, l: Label, s': Sys, t: nat)
    requires AllOwnersMove(s, l, s') && !OwnsSome(s, t) && (t == 0 || t != s.k.current)
    ensures !OwnsSome(s', t)
  {
    forall m | 0 <= m < |s'.mutexes|
      ensures s'.mutexes[m].owner != Some(t)
    {
      assert OwnerMoves(s, l, s', m);
    }
  }

  /** Registering at the idle priority makes a dormant task. */
  lemma RegisteredDormant(s: Sys, r: TaskRec, s': Sys)
    requires Base(s) && Step(s, Register(r), s') && r.priority == PRIORITY_IDLE && |s.k.tasks| < MAX_TASKS
    ensures Dormant(s', |s.k.tasks|)
  {
    var t := |s.k.tasks|;
    forall m | 0 <= m < |s'.mutexes|
      ensures s'.mutexes[m].owner != Some(t)
    {
      assert GoodCore(s.k, s.mutexes[m]);
    }
    forall l: nat
      ensures !ReadyAt(s.k, t, l)
    {}
    forall u | 0 <= u < |s'.pcs| && s'.pcs[u].WordLoaded?
      ensures t !in s'.pcs[u].word
    {
      if u < |s.pcs| { assert PcInRange(s, s.pcs[u]); }
    }
  }

  /** A dormant task is never selected, whatever else is ready. */
  lemma {:induction false} DormantForever(ss: seq<Sys>, ls: seq<Label>, i: nat, j: nat, t: nat)
    requires Run(ss, ls) && i <= j < |ss| && Dormant(ss[i], t)
    ensures Dormant(ss[j], t) && (t != 0 ==> ss[j].k.current != t)
    decreases j
  {
    if i < j {
      var h := j - 1;
      DormantForever(ss, ls, i, h, t);
      BaseInRun(ss, ls, h);
      assert Step(ss[h], ls[h], ss[h + 1]);
      DormantStep(ss[h], ls[h], ss[h + 1], t);
    }
  }

  /** A task registered at the idle priority, under the next free id, is never current and
      keeps that priority, whatever else happens. */
  lemma IdleNeverSelected(ss: seq<Sys>, ls: seq<Label>, i: nat, j: nat)
    requires Run(ss, ls) && i < j < |ss| && ls[i].Register? && ls[i].r.priority == PRIORITY_IDLE
    requires |ss[i].k.tasks| < MAX_TASKS
    ensures var t := |ss[i].k.tasks|;
      ss[j].k.current != t && t < |ss[j].k.tasks| && ss[j].k.tasks[t].priority == PRIORITY_IDLE
  {
    BaseInRun(ss, ls, i);
    assert Step(ss[i], ls[i], ss[i + 1]);
    RegisteredDormant(ss[i], ls[i].r, ss[i + 1]);
    DormantForever(ss, ls, i + 1, j, |ss[i].k.tasks|);
  }

  /** No selection before state i finds a task ready below idle. */
  ghost predicate NobodyFound(ss: seq<Sys>, ls: seq<Label>, i: nat) {
    forall j | 0 <= j < i && j < |ss| && j < |ls| && ls[j].SelectTask? :: !AnyReady(ss[j].k)
  }

  /** The kernel's own idle task, current from the start, executes up to the first
      selection that finds a task ready below idle, and never after it. */
  lemma {:induction false} IdleUntilFirstSwitch(ss: seq<Sys>, ls: seq<Label>, i: nat)
    requires Run(ss, ls) && i < |ss|
    ensures Dormant(ss[i], 0)
    ensures ss[i].k.current == 0 <==> NobodyFound(ss, ls, i)
  {
    if i == 0 {
      assert forall l: nat :: ReadyAt(ss[0].k, 0, l) ==> l == PRIORITY_IDLE;
    } else {
      var h := i - 1;
      IdleUntilFirstSwitch(ss, ls, h);
      BaseInRun(ss, ls, h);
      assert Step(ss[h], ls[h], ss[h + 1]);
      DormantStep(ss[h], ls[h], ss[h + 1], 0);
      BitsBelowIdle(ss[h], ls[h], 0);
      assert NobodyFound(ss, ls, i) <==> NobodyFound(ss, ls, h) && (ls[h].SelectTask? ==> !AnyReady(ss[h].k));
    }
  }
}
