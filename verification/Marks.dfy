/** The bitmap of levels and the ready words, where a task that readies itself updates
    them by a load and a store with interrupts enabled in between. */
module Marks {
  import opened Tasks
  import opened Words
  import opened Scheduling
  import opened SchedulingProofs
  import opened Blocking
  import opened Places
  import opened Systems
  import opened BaseProofs
  import opened SystemProofs
  import opened OrderlyProofs
  import opened Windows

  // ------------------------------------------------ kernel operations and the bitmap

  lemma ReadyMarks(k: KState, t: nat)
    requires Shape(k) && Marked(k) && t < |k.tasks|
    ensures Marked(SetReady(k, t))
  {
    assert GoodPriority(k.tasks[t], k.highest);
    assert t in SetReady(k, t).ready[k.tasks[t].priority];
  }

  lemma ResetMarks(k: KState, t: nat, s: TaskState)
    requires Shape(k) && Marked(k) && t < |k.tasks|
    ensures Marked(ResetReady(k, t, s))
  {
    assert GoodPriority(k.tasks[t], k.highest);
  }

  lemma SelectMarks(k: KState)
    requires Shape(k) && Marked(k)
    ensures Marked(Select(k))
  {
    if AnyReady(k) {
      var l, i := SelectPicks(k);
      if k.tasks[k.current].state.Running? { ReadyMarks(k, k.current); }
      assert Marked(PutBack(k));
    } else {
      SelectStalls(k);
    }
  }

  lemma TickMarks(k: KState)
    requires Shape(k) && Marked(k)
    ensures Marked(PortTick(k))
  {
    var k' := PortTick(k);
    forall l: nat | l in k'.levels
      ensures l < LEVELS && k'.ready[l] != {}
    {
      if l in k.levels {
        var u :| u in k.ready[l];
        assert u in k'.ready[l];
      } else {
        var d := Due(k.(ticks := k.ticks + 1));
        var u :| u in d && u < |k.tasks| && k.tasks[u].priority == l;
        assert GoodPriority(k.tasks[u], k.highest);
        assert u in k'.ready[l];
      }
    }
  }

  lemma {:induction false} WakeEachMarks(k: KState, q: seq<nat>)
    requires Shape(k) && Marked(k) && Registered(k, q)
    ensures Marked(WakeEach(k, q))
  {
    if q != [] {
      WakeEachMarks(k, q[..|q| - 1]);
      ReadyMarks(WakeEach(k, q[..|q| - 1]), q[|q| - 1]);
    }
  }

  lemma {:induction false} WakeEachEventMarks(k: KState, q: seq<nat>)
    requires Shape(k) && Marked(k) && Registered(k, q)
    ensures Marked(WakeEachEvent(k, q))
  {
    if q != [] {
      WakeEachEventMarks(k, q[..|q| - 1]);
      ReadyMarks(WakeEachEvent(k, q[..|q| - 1]), q[|q| - 1]);
    }
  }

  lemma AddMarks(k: KState, r: TaskRec)
    requires Shape(k) && Marked(k) && r.priority <= PRIORITY_IDLE
    ensures Marked(AddTask(k, r))
  {
    forall l: nat | l in k.levels
      ensures l < |k.ready| && AddTask(k, r).ready[l] != {}
    {
      var u :| u in k.ready[l];
      assert u in AddTask(k, r).ready[l];
    }
  }

  lemma PassMarks(s: Sys)
    requires Base(s) && Marked(s.k) && Enabled(s, AcquirePass)
    ensures Marked(AfterAcquirePass(s).k)
  {
    var core := s.mutexes[s.pcs[s.k.current].m];
    if core.count > 0 {
      var k1 := Boost(s.k, core.owner.value, s.k.current);
      assert Marked(k1);
      ResetMarks(k1, s.k.current, Blocked);
    }
  }

  // ------------------------------------------------------------------ in whole runs

  /** The step is the store of the bitmap of levels by a task readying itself. */
  ghost predicate StoresMap(s: Sys, l: Label) {
    l.ReadySelf? && s.k.current < |s.pcs| && s.pcs[s.k.current].MapLoaded?
  }

  /** Every level about to be marked by such a store has a ready task. */
  ghost predicate MapGuard(s: Sys, l: Label) {
    StoresMap(s, l) ==>
      forall q: nat | q in s.pcs[s.k.current].marks || q == s.pcs[s.k.current].level ::
        q < |s.k.ready| && s.k.ready[q] != {}
  }

  lemma SelfMarks(s: Sys)
    requires Base(s) && Marked(s.k) && Enabled(s, ReadySelf)
    ensures Marked(After(s, ReadySelf).k) <==> MapGuard(s, ReadySelf)
  {
    var c, pc, k' := s.k.current, s.pcs[s.k.current], AfterReadySelf(s).k;
    if pc.WordLoaded? {
      assert c in k'.ready[pc.level];
    } else if pc.MapLoaded? {
      assert k'.ready == s.k.ready && k'.levels == pc.marks + {pc.level};
    }
  }

  lemma WakerMarks(s: Sys, l: Label)
    requires Base(s) && Marked(s.k) && Enabled(s, l) && (l.ReleaseMutex? || l.SignalSem? || l.FlushSem?)
    ensures Marked(After(s, l).k)
  {
    match l
    case ReleaseMutex(m) => if s.queues[MutexQ(m)] != [] { ReadyMarks(s.k, s.queues[MutexQ(m)][0]); }
    case SignalSem(x, isr) => if s.queues[SemQ(x)] != [] { ReadyMarks(s.k, s.queues[SemQ(x)][0]); }
    case FlushSem(x, isr) => WakeEachMarks(s.k, s.queues[SemQ(x)]);
  }

  lemma WaiterMarks(s: Sys, l: Label)
    requires Base(s) && Marked(s.k) && Enabled(s, l) && (l.WaitSem? || l.WaitEvents? || l.RecheckEvents?)
    ensures Marked(After(s, l).k)
  {
    if l.WaitSem? { ResetMarks(s.k, s.k.current, Blocked); }
  }

  lemma MarksStep(s: Sys, l: Label)
    requires Base(s) && Marked(s.k) && Enabled(s, l)
    ensures Marked(After(s, l).k) <==> MapGuard(s, l)
  {
    match l
    case Register(r) => AddMarks(s.k, r);
    case SelectTask => SelectMarks(s.k);
    case SysTick => TickMarks(s.k);
    case AcquirePass => PassMarks(s);
    case ReadySelf => SelfMarks(s);
    case RaiseEvents(g, bits) =>
      WakeEachEventMarks(s.k, Matching(s.k, Or(s.groups[g], bits), s.queues[GroupQ(g)]));
    case WaitSem(_, _, _) => WaiterMarks(s, l);
    case WaitEvents(_, _, _) => WaiterMarks(s, l);
    case RecheckEvents => WaiterMarks(s, l);
    case ReleaseMutex(_) => WakerMarks(s, l);
    case SignalSem(_, _) => WakerMarks(s, l);
    case FlushSem(_, _) => WakerMarks(s, l);
    case _ =>
  }

  lemma {:induction false} GuardedMarks(ss: seq<Sys>, ls: seq<Label>, n: nat)
    requires Run(ss, ls) && n <= |ls| && forall i | 0 <= i < n :: MapGuard(ss[i], ls[i])
    ensures Marked(ss[n].k)
  {
    if n > 0 {
      GuardedMarks(ss, ls, n - 1);
      BaseInRun(ss, ls, n - 1);
      assert Step(ss[n - 1], ls[n - 1], ss[n - 1 + 1]);
      MarksStep(ss[n - 1], ls[n - 1]);
    }
  }

  /** A marked level is never empty, in all states of any run, if and only if no task that
      readies itself ever stores a bitmap that marks an empty level. */
  lemma MarksExactly(ss: seq<Sys>, ls: seq<Label>, n: nat)
    requires Run(ss, ls) && n <= |ls|
    ensures (forall i | 0 <= i <= n :: Marked(ss[i].k)) <==> (forall i | 0 <= i < n :: MapGuard(ss[i], ls[i]))
  {
    if forall i | 0 <= i < n :: MapGuard(ss[i], ls[i]) {
      forall i | 0 <= i <= n
        ensures Marked(ss[i].k)
      {
        GuardedMarks(ss, ls, i);
      }
    }
    if forall i | 0 <= i <= n :: Marked(ss[i].k) {
      forall i | 0 <= i < n
        ensures MapGuard(ss[i], ls[i])
      {
        BaseInRun(ss, ls, i);
        assert Step(ss[i], ls[i], ss[i + 1]);
        assert Marked(ss[i].k) && Marked(ss[i + 1].k);
        MarksStep(ss[i], ls[i]);
      }
    }
  }

  // --------------------------------------------------- which selection makes it go wrong

  /** The own place in a call changes only by the task's own steps. */
  lemma PcStays(s: Sys, l: Label, t: nat)
    requires Base(s) && Enabled(s, l) && t < |After(s, l).pcs|
    requires SelfReadying(After(s, l).pcs[t])
    ensures t < |s.pcs|
    ensures After(s, l).pcs[t] == s.pcs[t] ||
            (t == s.k.current && (l.ReadySelf? || l.SignalSem? || l.FlushSem?))
  {
    if l.SignalSem? || l.FlushSem? || l.ReadySelf? {
      OwnPc(s, l, t);
    } else if l.AcquirePass? || l.RecheckEvents? || l.StartAcquire? || l.WaitEvents? {
      LoopPc(s, l, t);
    } else {
      OtherPc(s, l);
    }
  }

  lemma OwnPc(s: Sys, l: Label, t: nat)
    requires Base(s) && Enabled(s, l) && (l.SignalSem? || l.FlushSem? || l.ReadySelf?)
    ensures |After(s, l).pcs| == |s.pcs|
    ensures t < |s.pcs| && t != s.k.current ==> After(s, l).pcs[t] == s.pcs[t]
  {
    if l.FlushSem? { WakeEachIs(s.k, s.queues[SemQ(l.x)], 0); }
  }

  lemma LoopPc(s: Sys, l: Label, t: nat)
    requires Base(s) && Enabled(s, l) && (l.AcquirePass? || l.RecheckEvents? || l.StartAcquire? || l.WaitEvents?)
    ensures |After(s, l).pcs| == |s.pcs|
    ensures t < |s.pcs| ==> After(s, l).pcs[t] == s.pcs[t] || !SelfReadying(After(s, l).pcs[t])
  {}

  lemma OtherPc(s: Sys, l: Label)
    requires Base(s) && Enabled(s, l) && !(l.SignalSem? || l.FlushSem? || l.ReadySelf?)
    requires !(l.AcquirePass? || l.RecheckEvents? || l.StartAcquire? || l.WaitEvents?)
    ensures After(s, l).pcs == s.pcs || (l.Register? && After(s, l).pcs == s.pcs + [App])
  {}

  /** Step i is the store of the ready word of task t at the given level. */
  ghost predicate StoredWord(ss: seq<Sys>, ls: seq<Label>, i: nat, t: nat, level: nat) {
    && i < |ls| && i + 1 < |ss| && ls[i].ReadySelf? && ss[i].k.current == t && t < |ss[i].pcs|
    && ss[i].pcs[t].WordLoaded? && ss[i].pcs[t].level == level
  }

  /** Step i is the load of the bitmap by task t, about to mark the given level. */
  ghost predicate LoadedMap(ss: seq<Sys>, ls: seq<Label>, i: nat, t: nat, level: nat, marks: set<nat>) {
    && i < |ls| && i + 1 < |ss| && ls[i].ReadySelf? && ss[i].k.current == t && t < |ss[i].pcs|
    && ss[i].pcs[t] == WordStored(level) && ss[i].k.levels == marks
  }

  lemma {:induction false} WordStoredSince(ss: seq<Sys>, ls: seq<Label>, j: nat, t: nat) returns (i: nat)
    requires Run(ss, ls) && j < |ss| && t < |ss[j].pcs| && ss[j].pcs[t].WordStored?
    ensures i < j && StoredWord(ss, ls, i, t, ss[j].pcs[t].level)
  {
    var h := j - 1;
    BaseInRun(ss, ls, h);
    assert Step(ss[h], ls[h], ss[h + 1]);
    PcStays(ss[h], ls[h], t);
    if ss[h].pcs[t] == ss[j].pcs[t] {
      i := WordStoredSince(ss, ls, h, t);
    } else {
      i := h;
    }
  }

  lemma {:induction false} MapLoadedSince(ss: seq<Sys>, ls: seq<Label>, j: nat, t: nat) returns (i: nat)
    requires Run(ss, ls) && j < |ss| && t < |ss[j].pcs| && ss[j].pcs[t].MapLoaded?
    ensures i < j && LoadedMap(ss, ls, i, t, ss[j].pcs[t].level, ss[j].pcs[t].marks)
  {
    var h := j - 1;
    BaseInRun(ss, ls, h);
    assert Step(ss[h], ls[h], ss[h + 1]);
    PcStays(ss[h], ls[h], t);
    if ss[h].pcs[t] == ss[j].pcs[t] {
      i := MapLoadedSince(ss, ls, h, t);
    } else {
      i := h;
    }
  }

  /** Step i is a selection that takes the last ready bit of level q, and nobody is ready
      at that level from then on up to state j. */
  ghost predicate TookLast(ss: seq<Sys>, ls: seq<Label>, i: nat, j: nat, q: nat) {
    && i < j < |ss| && i < |ls| && ls[i].SelectTask? && q < |ss[i].k.ready| && ss[i].k.ready[q] != {}
    && forall h | i < h <= j :: EmptyAt(ss[h].k, q)
  }

  ghost predicate EmptyAt(k: KState, q: nat) {
    q < |k.ready| && k.ready[q] == {}
  }

  /** Only a selection takes a level's last ready bit. */
  lemma OnlySelectionEmpties(s: Sys, l: Label, q: nat)
    requires Sound(s) && Typed(s) && Enabled(s, l) && q < LEVELS && s.k.ready[q] != {} && !l.SelectTask?
    ensures q < |After(s, l).k.ready| && After(s, l).k.ready[q] != {}
  {
    var t :| t in s.k.ready[q];
    assert ReadyAt(s.k, t, q);
    if IsInterrupt(l) {
      InterruptEffect(s, l);
      assert ReadyAt(After(s, l).k, t, q);
    } else if l.ReadySelf? {
      var pc := s.pcs[s.k.current];
      if pc.WordLoaded? { assert s.k.current in After(s, l).k.ready[pc.level]; }
    } else if l.Register? {
      assert ReadyAt(After(s, l).k, t, q);
    } else {
      WorkingRuns(s);
      TaskStepBits(s, l, t, q);
    }
  }

  lemma TaskStepBits(s: Sys, l: Label, t: nat, q: nat)
    requires SysInv(s) && InTask(s) && Enabled(s, l) && AtWorkOrLoop(s) && ReadyAt(s.k, t, q)
    requires !IsInterrupt(l) && !l.SelectTask? && !l.Register? && !l.ReadySelf?
    ensures ReadyAt(After(s, l).k, t, q)
  {
    match l
    case AcquirePass => AcquirePassRunner(s);
    case FlushSem(x, isr) => WakeEachGrows(s.k, s.queues[SemQ(x)], t, q);
    case _ =>
  }

  lemma {:induction false} WakeEachGrows(k: KState, w: seq<nat>, t: nat, q: nat)
    requires Shape(k) && Registered(k, w) && ReadyAt(k, t, q)
    ensures ReadyAt(WakeEach(k, w), t, q)
  {
    if w != [] { WakeEachGrows(k, w[..|w| - 1], t, q); }
  }

  lemma {:induction false} EmptiedBy(ss: seq<Sys>, ls: seq<Label>, a: nat, b: nat, q: nat) returns (i: nat)
    requires Run(ss, ls) && a <= b < |ss| && OrderlyUpTo(ss, ls, b) && q < LEVELS
    requires q < |ss[a].k.ready| && ss[a].k.ready[q] != {} && EmptyAt(ss[b].k, q)
    ensures a <= i && TookLast(ss, ls, i, b, q)
    decreases b
  {
    var h := b - 1;
    SoundInRun(ss, ls, h);
    assert Step(ss[h], ls[h], ss[h + 1]);
    if EmptyAt(ss[h].k, q) {
      i := EmptiedBy(ss, ls, a, h, q);
    } else {
      i := h;
      if !ls[h].SelectTask? { OnlySelectionEmpties(ss[h], ls[h], q); }
    }
  }

  /** Some selection fell after step g, which stored the ready word, or after step h,
      which loaded the bitmap, and took the last ready bit of the level to be marked, or of
      a level loaded as marked. */
  ghost predicate Emptied(ss: seq<Sys>, ls: seq<Label>, g: nat, h: nat, j: nat, level: nat, marks: set<nat>) {
    || (exists i :: g < i && TookLast(ss, ls, i, j, level))
    || (exists i, q :: h < i && q in marks && TookLast(ss, ls, i, j, q))
  }

  /** In an orderly run the store of the bitmap by a task readying itself, step j, marks an
      empty level if and only if a selection after the task's store of its ready word took
      the last bit of its level, or one after the task's load of the bitmap took the last
      bit of a level marked in it, and nobody became ready there since. */
  lemma MarkFailsExactly(ss: seq<Sys>, ls: seq<Label>, j: nat) returns (g: nat, h: nat)
    requires Run(ss, ls) && j < |ls| && OrderlyUpTo(ss, ls, j) && StoresMap(ss[j], ls[j])
    requires forall i | 0 <= i < j :: Marked(ss[i].k)
    ensures ss[j].k.current < |ss[j].pcs| && ss[j].pcs[ss[j].k.current].MapLoaded?
    ensures var t, pc := ss[j].k.current, ss[j].pcs[ss[j].k.current];
      && g < h < j && StoredWord(ss, ls, g, t, pc.level) && LoadedMap(ss, ls, h, t, pc.level, pc.marks)
      && (!MapGuard(ss[j], ls[j]) <==> Emptied(ss, ls, g, h, j, pc.level, pc.marks))
  {
    var s := ss[j];
    var t, pc := s.k.current, s.pcs[s.k.current];
    BaseInRun(ss, ls, j);
    h := MapLoadedSince(ss, ls, j, t);
    g := WordStoredSince(ss, ls, h, t);
    BaseInRun(ss, ls, g);
    BaseInRun(ss, ls, h);
    assert Step(ss[g], ls[g], ss[g + 1]) && Step(ss[h], ls[h], ss[h + 1]);
    assert t in ss[g + 1].k.ready[pc.level];
    if !MapGuard(s, ls[j]) {
      var q: nat :| (q in pc.marks || q == pc.level) && !(q < |s.k.ready| && s.k.ready[q] != {});
      assert Marked(ss[h].k);
      if q == pc.level {
        var i := EmptiedBy(ss, ls, g + 1, j, q);
      } else {
        assert ss[h + 1].k.ready == ss[h].k.ready;
        var i := EmptiedBy(ss, ls, h + 1, j, q);
      }
    }
  }

  // ------------------------------------------------ which wake-up a word store destroys

  /** Step i is the load of its ready word by task t. */
  ghost predicate LoadedWord(ss: seq<Sys>, ls: seq<Label>, i: nat, t: nat, level: nat, word: set<nat>) {
    && i < |ls| && i + 1 < |ss| && ls[i].ReadySelf? && ss[i].k.current == t && t < |ss[i].pcs|
    && ss[i].pcs[t].StateWritten? && level < |ss[i].k.ready| && ss[i].k.ready[level] == word
  }

  /** Task t is between the load and the store of its ready word in all states after i, up
      to j. */
  ghost predicate WordHeld(ss: seq<Sys>, i: nat, j: nat, t: nat, pc: Pc) {
    j < |ss| && forall n | i < n <= j :: ss[n].k.current == t && t < |ss[n].pcs| && ss[n].pcs[t] == pc
  }

  lemma {:induction false} WordLoadedSince(ss: seq<Sys>, ls: seq<Label>, j: nat) returns (i: nat)
    requires Run(ss, ls) && j < |ss| && OrderlyUpTo(ss, ls, j)
    requires ss[j].k.current < |ss[j].pcs| && ss[j].pcs[ss[j].k.current].WordLoaded?
    ensures var t, pc := ss[j].k.current, ss[j].pcs[ss[j].k.current];
      i < j && LoadedWord(ss, ls, i, t, pc.level, pc.word) && WordHeld(ss, i, j, t, pc)
  {
    var t, h := ss[j].k.current, j - 1;
    SoundInRun(ss, ls, h);
    BaseInRun(ss, ls, h);
    assert Step(ss[h], ls[h], ss[h + 1]);
    PcStays(ss[h], ls[h], t);
    if ss[h].pcs[t] == ss[j].pcs[t] {
      i := WordLoadedSince(ss, ls, h);
    } else {
      i := h;
    }
  }

  /** While the word is held, its level only gains bits. */
  lemma HeldGrows(s: Sys, l: Label, level: nat)
    requires Sound(s) && Typed(s) && Enabled(s, l) && Orderly(s, l) && Midway(s) && !l.ReadySelf? && level < LEVELS
    ensures level < |After(s, l).k.ready| && s.k.ready[level] <= After(s, l).k.ready[level]
  {
    if l.SelectTask? {
      SelectStalls(s.k);
    } else {
      InterruptEffect(s, l);
      forall t | t in s.k.ready[level]
        ensures t in After(s, l).k.ready[level]
      {
        assert ReadyAt(s.k, t, level);
      }
    }
  }

  /** Step n makes no task ready at the level. */
  ghost predicate NobodyWokenBy(ss: seq<Sys>, n: nat, level: nat) {
    && n + 1 < |ss| && level < |ss[n].k.ready| && level < |ss[n + 1].k.ready|
    && ss[n + 1].k.ready[level] == ss[n].k.ready[level]
  }

  /** No step after i does, up to state j. */
  ghost predicate NobodyWoken(ss: seq<Sys>, i: nat, j: nat, level: nat) {
    forall n: nat | i < n < j :: NobodyWokenBy(ss, n, level)
  }

  lemma GrownTwice(w: set<nat>, a: set<nat>, b: set<nat>)
    requires w <= a <= b
    ensures b == w <==> a == w && b == a
  {}

  lemma WokenSnoc(ss: seq<Sys>, i: nat, h: nat, level: nat)
    requires i < h
    ensures NobodyWoken(ss, i, h + 1, level) <==> NobodyWoken(ss, i, h, level) && NobodyWokenBy(ss, h, level)
  {}

  lemma {:induction false} HeldExactly(ss: seq<Sys>, ls: seq<Label>, i: nat, j: nat, t: nat, pc: Pc)
    requires Run(ss, ls) && OrderlyUpTo(ss, ls, j) && i < j < |ss| && pc.WordLoaded? && pc.level < LEVELS
    requires WordHeld(ss, i, j, t, pc) && LoadedWord(ss, ls, i, t, pc.level, pc.word)
    ensures pc.level < |ss[j].k.ready| && pc.word <= ss[j].k.ready[pc.level]
    ensures ss[j].k.ready[pc.level] == pc.word <==> NobodyWoken(ss, i, j, pc.level)
    decreases j
  {
    var h := j - 1;
    SoundInRun(ss, ls, j);
    if h > i {
      HeldExactly(ss, ls, i, h, t, pc);
      HeldOne(ss, ls, h, t, pc);
      GrownTwice(pc.word, ss[h].k.ready[pc.level], ss[h + 1].k.ready[pc.level]);
      WokenSnoc(ss, i, h, pc.level);
    } else {
      assert Step(ss[i], ls[i], ss[i + 1]);
    }
  }

  lemma HeldOne(ss: seq<Sys>, ls: seq<Label>, h: nat, t: nat, pc: Pc)
    requires Run(ss, ls) && h < |ls| && OrderlyUpTo(ss, ls, h + 1) && pc.WordLoaded? && pc.level < LEVELS
    requires ss[h].k.current == ss[h + 1].k.current == t
    requires t < |ss[h].pcs| && t < |ss[h + 1].pcs| && ss[h].pcs[t] == ss[h + 1].pcs[t] == pc
    ensures pc.level < |ss[h].k.ready| && pc.level < |ss[h + 1].k.ready|
    ensures ss[h].k.ready[pc.level] <= ss[h + 1].k.ready[pc.level]
  {
    SoundInRun(ss, ls, h);
    assert Step(ss[h], ls[h], ss[h + 1]) && Orderly(ss[h], ls[h]);
    HeldGrows(ss[h], ls[h], pc.level);
  }

  /** In an orderly run the ready word a task readying itself stores at step j is still the
      one it loaded if and only if no interrupt made a task of that level ready since. */
  lemma WordUnchangedExactly(ss: seq<Sys>, ls: seq<Label>, j: nat) returns (i: nat)
    requires Run(ss, ls) && j < |ss| && OrderlyUpTo(ss, ls, j)
    requires ss[j].k.current < |ss[j].pcs| && ss[j].pcs[ss[j].k.current].WordLoaded?
    ensures var t, pc := ss[j].k.current, ss[j].pcs[ss[j].k.current];
      && i < j && LoadedWord(ss, ls, i, t, pc.level, pc.word)
      && (WordUnchanged(ss[j].k, pc) <==> NobodyWoken(ss, i, j, pc.level))
  {
    SoundInRun(ss, ls, j);
    i := WordLoadedSince(ss, ls, j);
    HeldExactly(ss, ls, i, j, ss[j].k.current, ss[j].pcs[ss[j].k.current]);
  }
}
