/** When the places of tasks can go wrong, exactly.  Two things can: a selection or a
    wake-up can fall between the writes of a task that readies itself outside a critical
    section, and a task that blocks while nobody else is ready goes on executing. */
module Windows {
  import opened Tasks
  import opened Words
  import opened Scheduling
  import opened SchedulingProofs
  import opened Blocking
  import opened Places
  import opened Systems
  import opened BaseProofs
  import opened SystemProofs
  import opened OrderlyProofs

  // ------------------------------------------------------- one place, if and only if

  lemma SoundIsFine(s: Sys)
    requires Sound(s)
    ensures Fine(s)
  {}

  /** A selection that finds somebody before the bit of the current task is written takes
      the processor from a task it does not put back. */
  lemma SwitchLoses(s: Sys)
    requires Sound(s) && Typed(s) && Midway(s) && AnyReady(s.k)
    ensures !Fine(After(s, SelectTask)) && Nowhere(After(s, SelectTask), s.k.current)
  {
    var c, s' := s.k.current, After(s, SelectTask);
    var l, i := SelectPicks(s.k);
    assert ReadyAt(s.k, i, l);
    assert i != c && !Midway(s') && s'.k.tasks[c].state.Ready?;
    forall m: nat
      ensures !ReadyAt(s'.k, c, m)
    {
      assert !ReadyAt(s.k, c, m);
    }
    forall r | r in s.queues
      ensures c !in s.queues[r]
    {
      QueueFacts(s, r);
    }
    assert !KInv(s'.k);
  }

  /** Task t is not current, has no ready bit, does not sleep and waits in no queue. */
  ghost predicate Nowhere(s: Sys, t: nat) {
    && t < |s.k.tasks| && t != s.k.current && !HasReadyBit(s.k, t) && t !in s.k.sleeping
    && forall r | r in s.queues :: t !in s.queues[r]
  }

  /** Task t is nowhere, and no ready word about to be stored has its bit. */
  ghost predicate Lost(s: Sys, t: nat) {
    && Nowhere(s, t)
    && forall u | 0 <= u < |s.pcs| && s.pcs[u].WordLoaded? :: t !in s.pcs[u].word
  }

  /** A selection that finds nobody leaves a task executing that has stopped running. */
  lemma StallGoesOn(s: Sys)
    requires Sound(s) && Typed(s) && !Midway(s) && s.k.current != 0 && !IsRunning(s.k, s.k.current)
    requires !AnyReady(s.k)
    ensures !Awake(After(s, SelectTask)) && After(s, SelectTask) == s.(pending := false)
  {
    var c := s.k.current;
    SelectStalls(s.k);
    NotReadyThen(s);
    if s.k.tasks[c].state.Blocked? {
      var r: QRef, p: nat :| Queued(s.queues, r, p, c);
      assert PcFits(s.k, s.pcs, r, c);
    }
  }

  lemma NotReadyThen(s: Sys)
    requires Sound(s) && !Midway(s) && s.k.current != 0 && !AnyReady(s.k)
    ensures !s.k.tasks[s.k.current].state.Ready?
  {
    forall l: nat
      ensures !ReadyAt(s.k, s.k.current, l)
    {}
  }

  /** A task of the level whose bit was set after the current task loaded the word. */
  lemma WokenSince(s: Sys) returns (u: nat)
    requires Sound(s) && Typed(s) && Executes(s) && s.pcs[s.k.current].WordLoaded?
    requires !WordUnchanged(s.k, s.pcs[s.k.current])
    ensures u != s.k.current && u < |s.k.tasks| && u !in s.pcs[s.k.current].word
    ensures ReadyAt(s.k, u, s.pcs[s.k.current].level) && ReadyAt(Seen(s).k, u, s.pcs[s.k.current].level)
    ensures s.k.tasks[u].state.Ready?
  {
    var pc := s.pcs[s.k.current];
    u :| u in s.k.ready[pc.level] && u !in pc.word;
    assert ReadyAt(s.k, u, pc.level) && ReadyAt(Seen(s).k, u, pc.level);
  }

  lemma StoreTakesBit(s: Sys, u: nat)
    requires Sound(s) && Typed(s) && Executes(s) && s.pcs[s.k.current].WordLoaded?
    requires u != s.k.current && u < |s.k.tasks| && u !in s.pcs[s.k.current].word
    requires ReadyAt(Seen(s).k, u, s.pcs[s.k.current].level)
    ensures !HasReadyBit(AfterReadySelf(s).k, u)
  {
    var pc, s' := s.pcs[s.k.current], AfterReadySelf(s);
    forall m: nat
      ensures !ReadyAt(s'.k, u, m)
    {
      assert m != pc.level ==> !ReadyAt(Seen(s).k, u, m);
    }
  }

  /** A store of a ready word that has changed since it was loaded takes the bit of a task
      woken meanwhile, and that task is lost. */
  lemma StoreLoses(s: Sys) returns (u: nat)
    requires Sound(s) && Typed(s) && Executes(s) && s.pcs[s.k.current].WordLoaded?
    requires !WordUnchanged(s.k, s.pcs[s.k.current])
    ensures Lost(After(s, ReadySelf), u) && ReadyAt(s.k, u, s.pcs[s.k.current].level)
    ensures !Fine(After(s, ReadySelf))
  {
    u := WokenSince(s);
    StoreTakesBit(s, u);
    var s' := After(s, ReadySelf);
    assert Seen(s').k == s'.k && s'.k.tasks[u].state.Ready?;
    assert !KInv(s'.k);
    forall r | r in s.queues
      ensures u !in s.queues[r]
    {
      ReadyNotQueued(s, r, u);
    }
  }

  lemma ReadyNotQueued(s: Sys, r: QRef, u: nat)
    requires Sound(s) && r in s.queues && u < |s.k.tasks| && s.k.tasks[u].state.Ready?
    ensures u !in s.queues[r]
  {
    QueueFacts(s, r);
  }

  lemma DisorderShows(s: Sys, l: Label)
    requires Sound(s) && Typed(s) && Enabled(s, l) && !Orderly(s, l)
    ensures !Fine(After(s, l))
  {
    match l
    case SelectTask => if Midway(s) { SwitchLoses(s); } else { StallGoesOn(s); }
    case ReadySelf => var u := StoreLoses(s);
  }

  lemma FineStepOrderly(s: Sys, l: Label, s': Sys)
    requires Sound(s) && Step(s, l, s') && Fine(s')
    ensures Orderly(s, l)
  {
    if !Orderly(s, l) { DisorderShows(s, l); }
  }

  lemma OrderlyGrows(ss: seq<Sys>, ls: seq<Label>, j: nat, n: nat)
    requires OrderlyUpTo(ss, ls, j) && n == j + 1 && n <= |ls| && n <= |ss| && Orderly(ss[j], ls[j])
    ensures OrderlyUpTo(ss, ls, n)
  {}

  lemma {:induction false} FineMeansOrderly(ss: seq<Sys>, ls: seq<Label>, n: nat)
    requires Run(ss, ls) && n <= |ls| && forall i | 0 <= i <= n :: Fine(ss[i])
    ensures OrderlyUpTo(ss, ls, n)
  {
    if n > 0 {
      var j := n - 1;
      FineMeansOrderly(ss, ls, j);
      SoundInRun(ss, ls, j);
      assert Orderly(ss[j], ls[j]) by { FineStepOrderly(ss[j], ls[j], ss[j + 1]); }
      OrderlyGrows(ss, ls, j, n);
    }
  }

  /** In all states of a run every task is in exactly one place and none executes that
      does not run, if and only if every step is orderly. */
  lemma OnePlaceExactly(ss: seq<Sys>, ls: seq<Label>, n: nat)
    requires Run(ss, ls) && n <= |ls|
    ensures (forall i | 0 <= i <= n :: Fine(ss[i])) <==> OrderlyUpTo(ss, ls, n)
  {
    if OrderlyUpTo(ss, ls, n) {
      forall i | 0 <= i <= n
        ensures Fine(ss[i])
      {
        SoundInRun(ss, ls, i);
      }
    }
    if forall i | 0 <= i <= n :: Fine(ss[i]) { FineMeansOrderly(ss, ls, n); }
  }

  // ------------------------------------------------------------ a lost task stays lost

  lemma SwitchLosesForGood(s: Sys)
    requires Sound(s) && Typed(s) && Midway(s) && AnyReady(s.k)
    ensures Lost(After(s, SelectTask), s.k.current)
  {
    SwitchLoses(s);
    var c := s.k.current;
    if s.pcs[c].WordLoaded? { assert !ReadyAt(s.k, c, s.pcs[c].level); }
  }

  lemma {:induction false} WakeEachPasses(k: KState, q: seq<nat>, t: nat)
    requires Shape(k) && Registered(k, q) && t !in q && !HasReadyBit(k, t)
    ensures !HasReadyBit(WakeEach(k, q), t)
    ensures WakeEach(k, q).sleeping == k.sleeping && WakeEach(k, q).current == k.current
  {
    if q != [] {
      WakeEachPasses(k, q[..|q| - 1], t);
      ReadyPasses(WakeEach(k, q[..|q| - 1]), q[|q| - 1], t);
    }
  }

  lemma ReadyPasses(k: KState, w: nat, t: nat)
    requires Shape(k) && w < |k.tasks| && t != w && !HasReadyBit(k, t)
    ensures !HasReadyBit(SetReady(k, w), t)
  {
    forall l: nat
      ensures !ReadyAt(SetReady(k, w), t, l)
    {
      assert !ReadyAt(k, t, l);
    }
  }

  lemma FewerBits(k: KState, k': KState, t: nat)
    requires !HasReadyBit(k, t) && forall l: nat | ReadyAt(k', t, l) :: ReadyAt(k, t, l)
    ensures !HasReadyBit(k', t)
  {}

  lemma {:induction false} WakeEachEventPasses(k: KState, q: seq<nat>, t: nat)
    requires Shape(k) && Registered(k, q) && t !in q && !HasReadyBit(k, t)
    ensures !HasReadyBit(WakeEachEvent(k, q), t)
    ensures WakeEachEvent(k, q).sleeping == k.sleeping && WakeEachEvent(k, q).current == k.current
  {
    if q != [] {
      var k1, w := WakeEachEvent(k, q[..|q| - 1]), q[|q| - 1];
      WakeEachEventPasses(k, q[..|q| - 1], t);
      ReadyPasses(k1, w, t);
      FewerBits(SetReady(k1, w), WakeEachEvent(k, q), t);
    }
  }

  lemma SelectPasses(k: KState, t: nat)
    requires Shape(k) && t < |k.tasks| && t != k.current && !HasReadyBit(k, t)
    ensures !HasReadyBit(Select(k), t) && Select(k).current != t && Select(k).sleeping == k.sleeping
  {
    if AnyReady(k) {
      var l, i := SelectPicks(k);
      assert ReadyAt(k, i, l);
      if k.tasks[k.current].state.Running? { ReadyPasses(k, k.current, t); }
      FewerBits(PutBack(k), Select(k), t);
    } else {
      SelectStalls(k);
    }
  }

  lemma TickPasses(k: KState, t: nat)
    requires Shape(k) && t !in k.sleeping && !HasReadyBit(k, t)
    ensures !HasReadyBit(PortTick(k), t) && t !in PortTick(k).sleeping
  {
    FewerBits(k, PortTick(k), t);
  }

  lemma RaisePasses(s: Sys, g: nat, bits: nat, t: nat)
    requires Base(s) && Enabled(s, RaiseEvents(g, bits)) && Lost(s, t)
    ensures Lost(AfterRaise(s, g, bits), t)
  {
    var f, q := Or(s.groups[g], bits), s.queues[GroupQ(g)];
    MatchingOrDisjoint(s.k, f, q, t);
    WakeEachEventPasses(s.k, Matching(s.k, f, q), t);
  }

  lemma RecheckPasses(s: Sys, t: nat)
    requires Base(s) && Enabled(s, RecheckEvents) && Lost(s, t)
    ensures Lost(AfterRecheck(s), t)
  {
    var q := s.queues[GroupQ(s.pcs[s.k.current].g)];
    RemovedOnce(q, s.k.current);
  }

  lemma AcquirePassPasses(s: Sys, t: nat)
    requires Base(s) && Enabled(s, AcquirePass) && Lost(s, t)
    ensures Lost(AfterAcquirePass(s), t)
  {
    FewerBits(s.k, AfterAcquirePass(s).k, t);
  }

  lemma FirstPasses(s: Sys, r: QRef, t: nat)
    requires Base(s) && r in s.queues && s.queues[r] != [] && Lost(s, t)
    ensures s.queues[r][0] < |s.k.tasks| && !HasReadyBit(SetReady(s.k, s.queues[r][0]), t)
  {
    ReadyPasses(s.k, s.queues[r][0], t);
  }

  lemma ReadySelfPasses(s: Sys, t: nat)
    requires Base(s) && Enabled(s, ReadySelf) && Lost(s, t)
    ensures Lost(AfterReadySelf(s), t)
  {
    var s' := AfterReadySelf(s);
    FewerBits(s.k, s'.k, t);
    forall l: nat | l < LEVELS
      ensures t !in s.k.ready[l]
    {
      assert !ReadyAt(s.k, t, l);
    }
  }

  lemma SimplePasses(s: Sys, l: Label, t: nat)
    requires Base(s) && Enabled(s, l) && Lost(s, t)
    requires l.Register? || l.Sleep? || l.StartAcquire? || l.LowerEvents?
    ensures Lost(Effect(s, l), t)
  {
    FewerBits(s.k, Effect(s, l).k, t);
  }

  lemma WaitSemPasses(s: Sys, l: Label, t: nat)
    requires Base(s) && Enabled(s, l) && Lost(s, t) && l.WaitSem?
    ensures Lost(Effect(s, l), t)
  {
    FewerBits(s.k, Effect(s, l).k, t);
  }

  lemma WaitEventsPasses(s: Sys, l: Label, t: nat)
    requires Base(s) && Enabled(s, l) && Lost(s, t) && l.WaitEvents?
    ensures Lost(Effect(s, l), t)
  {
    FewerBits(s.k, Effect(s, l).k, t);
  }

  lemma WakePasses(s: Sys, l: Label, t: nat)
    requires Base(s) && Enabled(s, l) && Lost(s, t) && (l.ReleaseMutex? || l.SignalSem? || l.FlushSem?)
    ensures Lost(Effect(s, l), t)
  {
    match l
    case ReleaseMutex(m) => if s.queues[MutexQ(m)] != [] { FirstPasses(s, MutexQ(m), t); }
    case SignalSem(x, isr) => if s.queues[SemQ(x)] != [] { FirstPasses(s, SemQ(x), t); }
    case FlushSem(x, isr) => WakeEachPasses(s.k, s.queues[SemQ(x)], t);
  }

  lemma KernelPasses(s: Sys, l: Label, t: nat)
    requires Base(s) && Enabled(s, l) && Lost(s, t) && (l.SelectTask? || l.SysTick?)
    ensures Lost(Effect(s, l), t)
  {
    match l
    case SelectTask => SelectPasses(s.k, t); SelectBase(s);
    case SysTick => TickPasses(s.k, t);
  }

  lemma LostEffect(s: Sys, l: Label, t: nat)
    requires Base(s) && Enabled(s, l) && Lost(s, t)
    ensures Lost(Effect(s, l), t)
  {
    match l
    case SelectTask => KernelPasses(s, l, t);
    case SysTick => KernelPasses(s, l, t);
    case AcquirePass => AcquirePassPasses(s, t);
    case ReleaseMutex(_) => WakePasses(s, l, t);
    case WaitSem(_, _, _) => WaitSemPasses(s, l, t);
    case SignalSem(_, _) => WakePasses(s, l, t);
    case FlushSem(_, _) => WakePasses(s, l, t);
    case ReadySelf => ReadySelfPasses(s, t);
    case WaitEvents(_, _, _) => WaitEventsPasses(s, l, t);
    case RecheckEvents => RecheckPasses(s, t);
    case RaiseEvents(g, bits) => RaisePasses(s, g, bits, t);
    case _ => SimplePasses(s, l, t);
  }

  lemma LostPending(s: Sys, b: bool, t: nat)
    requires Lost(s, t)
    ensures Lost(s.(pending := b), t)
  {}

  lemma LostStep(s: Sys, l: Label, t: nat)
    requires Base(s) && Enabled(s, l) && Lost(s, t)
    ensures Lost(After(s, l), t)
  {
    LostEffect(s, l, t);
    LostPending(Effect(s, l), Pends(s, l), t);
  }

  /** Nothing that happens later brings a lost task back: it is never run again. */
  lemma {:induction false} LostForever(ss: seq<Sys>, ls: seq<Label>, i: nat, j: nat, t: nat)
    requires Run(ss, ls) && i <= j < |ss| && Lost(ss[i], t)
    ensures Lost(ss[j], t) && ss[j].k.current != t
    decreases j
  {
    if i < j {
      var h := j - 1;
      LostForever(ss, ls, i, h, t);
      BaseInRun(ss, ls, h);
      assert Step(ss[h], ls[h], ss[h + 1]);
      LostStep(ss[h], ls[h], t);
    }
  }

  // ------------------------------------------- blocking while somebody else is ready

  /** Step l is a call by which the current task stops running: a sleep, or a wait that
      has to block. */
  ghost predicate Stops(s: Sys, l: Label)
    requires Typed(s) && Enabled(s, l)
  {
    match l
    case Sleep(_) => true
    case AcquirePass => PassResult(s).MustWait?
    case WaitSem(x, timeout, start) => WaitResult(s, x, timeout, start).Joined?
    case WaitEvents(g, mask, timeout) => EventsResult(s, g, mask, timeout).Again?
    case _ => false
  }

  lemma StopLeaves(s: Sys, l: Label)
    requires Sound(s) && Typed(s) && Enabled(s, l) && Stops(s, l)
    ensures var s' := After(s, l);
      && s'.k.ready == s.k.ready && s'.k.current == s.k.current != 0 && s'.pending && !Midway(s')
      && !IsRunning(s'.k, s'.k.current) && !SelfReadying(s'.pcs[s'.k.current])
  {
    WorkingRuns(s);
    if l.AcquirePass? { AcquirePassRunner(s); }
  }

  ghost predicate IsInterrupt(l: Label) {
    || l.SysTick? || (l.SignalSem? && l.isr) || (l.FlushSem? && l.isr) || l.RaiseEvents? || l.LowerEvents?
  }

  /** While a switch is pending only interrupts happen, and the switch itself. */
  lemma OnlyInterrupts(s: Sys, l: Label)
    requires Enabled(s, l) && s.pending && s.k.current != 0 && !l.SelectTask?
    ensures IsInterrupt(l) && Orderly(s, l)
  {}

  lemma InterruptEffect(s: Sys, l: Label)
    requires Sound(s) && Typed(s) && Enabled(s, l) && IsInterrupt(l)
    ensures Interrupted(s.k, After(s, l).k) && After(s, l).pcs == s.pcs && (s.pending ==> After(s, l).pending)
  {
    match l
    case SysTick => TickInterrupts(s.k);
    case SignalSem(x, isr) =>
      QueueFacts(s, SemQ(x));
      if s.queues[SemQ(x)] != [] { ReadyInterrupts(s.k, s.queues[SemQ(x)][0]); }
    case FlushSem(x, isr) => QueueFacts(s, SemQ(x)); WakeEachInterrupts(s.k, s.queues[SemQ(x)]);
    case RaiseEvents(g, bits) =>
      MatchingFacts(s, g, Or(s.groups[g], bits));
      WakeEachEventInterrupts(s.k, Matching(s.k, Or(s.groups[g], bits), s.queues[GroupQ(g)]));
    case LowerEvents(g, bits) =>
  }

  lemma ReadyStays(k: KState, k': KState)
    requires Interrupted(k, k') && AnyReady(k)
    ensures AnyReady(k')
  {
    var t: nat, l: nat :| l < PRIORITY_IDLE && ReadyAt(k, t, l);
    assert ReadyAt(k', t, l);
  }

  /** From a call that stops the current task up to the next selection. */
  ghost predicate Stopped(s: Sys) {
    && Sound(s) && Typed(s) && s.pending && s.k.current != 0 && !Midway(s) && !SelfReadying(s.pcs[s.k.current])
  }

  lemma StoppedStays(s: Sys, l: Label)
    requires Stopped(s) && Enabled(s, l) && !l.SelectTask?
    ensures var s' := After(s, l);
      Sound(s') && s'.pending && s'.k.current == s.k.current && s'.pcs == s.pcs && (AnyReady(s.k) ==> AnyReady(s'.k))
  {
    OnlyInterrupts(s, l);
    SoundStep(s, l);
    InterruptEffect(s, l);
    if AnyReady(s.k) { ReadyStays(s.k, After(s, l).k); }
  }

  /** The run ss2, ls2 goes on from step i of ss, ls with nothing but interrupts and ends
      with the first selection. */
  ghost predicate FirstSelection(ss: seq<Sys>, ls: seq<Label>, i: nat, ss2: seq<Sys>, ls2: seq<Label>) {
    && Run(ss2, ls2) && i + 1 < |ls2| && i < |ls| && i + 1 < |ss|
    && ss2[..i + 2] == ss[..i + 2] && ls2[..i + 1] == ls[..i + 1]
    && ls2[|ls2| - 1].SelectTask? && forall j | i < j < |ls2| - 1 :: !ls2[j].SelectTask?
  }

  lemma StopStarts(s: Sys, l: Label, s': Sys)
    requires Sound(s) && Step(s, l, s') && Stops(s, l) && Sound(s') && Typed(s')
    ensures Stopped(s') && (AnyReady(s.k) ==> AnyReady(s'.k))
  {
    StopLeaves(s, l);
    if AnyReady(s.k) {
      var t: nat, m: nat :| m < PRIORITY_IDLE && ReadyAt(s.k, t, m);
      assert ReadyAt(s'.k, t, m);
    }
  }

  lemma StillStopped(s: Sys, l: Label, s': Sys)
    requires Stopped(s) && Step(s, l, s') && !l.SelectTask? && Typed(s')
    ensures Stopped(s') && (AnyReady(s.k) ==> AnyReady(s'.k))
  {
    StoppedStays(s, l);
  }

  lemma {:induction false} StoppedUpTo(ss: seq<Sys>, ls: seq<Label>, i: nat, j: nat)
    requires Run(ss, ls) && i < j < |ss| && OrderlyUpTo(ss, ls, i + 1)
    requires Typed(ss[i]) && Enabled(ss[i], ls[i]) && Stops(ss[i], ls[i])
    requires forall h | i < h < j :: !ls[h].SelectTask?
    ensures Stopped(ss[j])
    decreases j
  {
    BaseInRun(ss, ls, j);
    if j == i + 1 {
      SoundInRun(ss, ls, i);
      SoundInRun(ss, ls, j);
      StopStarts(ss[i], ls[i], ss[j]);
    } else {
      var h := j - 1;
      StoppedUpTo(ss, ls, i, h);
      StillStopped(ss[h], ls[h], ss[h + 1]);
    }
  }

  lemma {:induction false} ReadyUpTo(ss: seq<Sys>, ls: seq<Label>, i: nat, j: nat)
    requires Run(ss, ls) && i < j < |ss| && OrderlyUpTo(ss, ls, i + 1)
    requires Typed(ss[i]) && Enabled(ss[i], ls[i]) && Stops(ss[i], ls[i]) && AnyReady(ss[i].k)
    requires forall h | i < h < j :: !ls[h].SelectTask?
    ensures AnyReady(ss[j].k)
    decreases j
  {
    BaseInRun(ss, ls, j);
    if j == i + 1 {
      SoundInRun(ss, ls, i);
      SoundInRun(ss, ls, j);
      StopStarts(ss[i], ls[i], ss[j]);
    } else {
      var h := j - 1;
      StoppedUpTo(ss, ls, i, h);
      ReadyUpTo(ss, ls, i, h);
      StillStopped(ss[h], ls[h], ss[h + 1]);
    }
  }

  lemma SelectionWakes(s: Sys)
    requires Base(s) && AnyReady(s.k)
    ensures Awake(After(s, SelectTask))
  {
    var l, i := SelectPicks(s.k);
  }

  /** The first selection after a stopping call made while somebody is ready. */
  lemma FirstSelectionWakes(ss: seq<Sys>, ls: seq<Label>, i: nat, n: nat)
    requires Run(ss, ls) && i < n < |ls| && OrderlyUpTo(ss, ls, i + 1) && ls[n].SelectTask?
    requires Typed(ss[i]) && Enabled(ss[i], ls[i]) && Stops(ss[i], ls[i]) && AnyReady(ss[i].k)
    requires forall h | i < h < n :: !ls[h].SelectTask?
    ensures Awake(ss[n + 1])
  {
    ReadyUpTo(ss, ls, i, n);
    BaseInRun(ss, ls, n);
    assert Step(ss[n], ls[n], ss[n + 1]);
    SelectionWakes(ss[n]);
  }

  lemma StopIsOrderly(s: Sys, l: Label)
    requires Typed(s) && Enabled(s, l) && Stops(s, l)
    ensures Orderly(s, l)
  {}

  /** A run with the same first states and steps is as orderly up to there. */
  lemma SamePrefix(ss: seq<Sys>, ls: seq<Label>, i: nat, ss2: seq<Sys>, ls2: seq<Label>)
    requires FirstSelection(ss, ls, i, ss2, ls2) && OrderlyUpTo(ss, ls, i) && Orderly(ss[i], ls[i])
    ensures i < |ss2| && i < |ls2| && ss2[i] == ss[i] && ls2[i] == ls[i] && OrderlyUpTo(ss2, ls2, i + 1)
  {
    forall h | 0 <= h <= i
      ensures ss2[h] == ss[h] && ls2[h] == ls[h]
    {
      assert ss2[..i + 2][h] == ss[..i + 2][h] && ls2[..i + 1][h] == ls[..i + 1][h];
    }
  }

  lemma ReadyIsEnough(ss: seq<Sys>, ls: seq<Label>, i: nat, ss2: seq<Sys>, ls2: seq<Label>)
    requires i < |ls| && i < |ss| && OrderlyUpTo(ss, ls, i)
    requires Typed(ss[i]) && Enabled(ss[i], ls[i]) && Stops(ss[i], ls[i]) && AnyReady(ss[i].k)
    requires FirstSelection(ss, ls, i, ss2, ls2)
    ensures Awake(ss2[|ls2|])
  {
    StopIsOrderly(ss[i], ls[i]);
    SamePrefix(ss, ls, i, ss2, ls2);
    FirstSelectionWakes(ss2, ls2, i, |ls2| - 1);
  }

  /** Without anybody ready, the selection that follows at once stalls. */
  lemma NobodyReadyStalls(ss: seq<Sys>, ls: seq<Label>, i: nat) returns (ss2: seq<Sys>, ls2: seq<Label>)
    requires Run(ss, ls) && i < |ls| && OrderlyUpTo(ss, ls, i)
    requires Typed(ss[i]) && Enabled(ss[i], ls[i]) && Stops(ss[i], ls[i]) && !AnyReady(ss[i].k)
    ensures FirstSelection(ss, ls, i, ss2, ls2) && !Awake(ss2[|ls2|])
  {
    var s, s1 := ss[i], ss[i + 1];
    assert Step(s, ls[i], s1);
    SoundInRun(ss, ls, i);
    StopLeaves(s, ls[i]);
    SoundInRun(ss, ls, i + 1);
    forall t: nat, l: nat
      ensures ReadyAt(s1.k, t, l) <==> ReadyAt(s.k, t, l)
    {}
    StallGoesOn(s1);
    ls2 := ls[..i + 1] + [SelectTask];
    ss2 := ss[..i + 2] + [After(s1, SelectTask)];
    RunExtends(ss, ls, i + 1, SelectTask);
  }

  lemma RunExtends(ss: seq<Sys>, ls: seq<Label>, n: nat, l: Label)
    requires Run(ss, ls) && n <= |ls| && Typed(ss[n]) && Enabled(ss[n], l)
    ensures Run(ss[..n + 1] + [After(ss[n], l)], ls[..n] + [l])
  {
    var ss2, ls2 := ss[..n + 1] + [After(ss[n], l)], ls[..n] + [l];
    forall j | 0 <= j < |ls2|
      ensures Step(ss2[j], ls2[j], ss2[j + 1])
    {
      if j < n { assert Step(ss[j], ls[j], ss[j + 1]); }
    }
  }

  /** A call that stops the current task is sure to be followed by the run of another one
      if and only if some task below idle is ready when the call is made: then, whatever
      interrupts come before the selection, nobody executes who does not run. */
  lemma StopsSafelyExactly(ss: seq<Sys>, ls: seq<Label>, i: nat)
    requires Run(ss, ls) && i < |ls| && OrderlyUpTo(ss, ls, i)
    requires Typed(ss[i]) && Enabled(ss[i], ls[i]) && Stops(ss[i], ls[i])
    ensures AnyReady(ss[i].k) <==>
            forall ss2, ls2 | FirstSelection(ss, ls, i, ss2, ls2) :: Awake(ss2[|ls2|])
  {
    if AnyReady(ss[i].k) {
      forall ss2, ls2 | FirstSelection(ss, ls, i, ss2, ls2)
        ensures Awake(ss2[|ls2|])
      {
        ReadyIsEnough(ss, ls, i, ss2, ls2);
      }
    } else {
      var ss2, ls2 := NobodyReadyStalls(ss, ls, i);
    }
  }

  // -------------------------------------------------------- what a caller can check

  /** The same three conditions as those of an orderly step, with the second one moved to
      the call that stops the current task. */
  ghost predicate Prudent(s: Sys, l: Label)
    requires Typed(s) && Enabled(s, l)
  {
    && (Stops(s, l) ==> AnyReady(s.k))
    && (l.SelectTask? && Midway(s) ==> !AnyReady(s.k))
    && (l.ReadySelf? && s.pcs[s.k.current].WordLoaded? ==> WordUnchanged(s.k, s.pcs[s.k.current]))
  }

  /** Whoever has stopped running leaves somebody ready. */
  ghost predicate Relieved(s: Sys) {
    s.k.current != 0 && !IsRunning(s.k, s.k.current) && !Midway(s) ==> AnyReady(s.k)
  }

  lemma PrudentIsOrderly(s: Sys, l: Label)
    requires Typed(s) && Enabled(s, l) && Prudent(s, l) && Relieved(s)
    ensures Orderly(s, l)
  {}

  lemma RelievedTask(s: Sys, l: Label)
    requires Sound(s) && Typed(s) && Enabled(s, l) && Prudent(s, l) && AtWorkOrLoop(s)
    requires !IsInterrupt(l) && !l.SelectTask?
    ensures Relieved(After(s, l))
  {
    WorkingRuns(s);
    var s' := After(s, l);
    if Stops(s, l) {
      StopLeaves(s, l);
      var t: nat, m: nat :| m < PRIORITY_IDLE && ReadyAt(s.k, t, m);
      assert ReadyAt(s'.k, t, m);
    } else {
      GoesOnRunning(s, l);
    }
  }

  /** Any other call leaves the task running. */
  lemma GoesOnRunning(s: Sys, l: Label)
    requires SysInv(s) && InTask(s) && Enabled(s, l) && AtWorkOrLoop(s)
    requires !Stops(s, l) && !IsInterrupt(l) && !l.SelectTask?
    ensures IsRunning(After(s, l).k, s.k.current)
  {
    match l
    case AcquirePass => AcquirePassRunner(s);
    case ReleaseMutex(m) => RunnerNotQueued(s, MutexQ(m));
    case SignalSem(x, isr) => RunnerNotQueued(s, SemQ(x));
    case FlushSem(x, isr) => RunnerNotQueued(s, SemQ(x)); WakeEachIs(s.k, s.queues[SemQ(x)], s.k.current);
    case _ =>
  }

  lemma RelievedInterrupt(s: Sys, l: Label)
    requires Sound(s) && Typed(s) && Enabled(s, l) && IsInterrupt(l) && Relieved(s)
    ensures Relieved(After(s, l))
  {
    InterruptEffect(s, l);
    if AnyReady(s.k) { ReadyStays(s.k, After(s, l).k); }
  }

  /** A task that is done with its bit is ready itself. */
  lemma RelievedReadySelf(s: Sys)
    requires Sound(s) && Typed(s) && Enabled(s, ReadySelf) && Orderly(s, ReadySelf)
    ensures Relieved(After(s, ReadySelf))
  {
    SoundStep(s, ReadySelf);
    var s', c := After(s, ReadySelf), s.k.current;
    if !IsRunning(s'.k, c) && !Midway(s') {
      if s.pcs[c].WordLoaded? {
        assert ReadyAt(s'.k, c, s.pcs[c].level);
      } else {
        var l: nat :| ReadyAt(s.k, c, l);
        assert ReadyAt(s'.k, c, l);
      }
    }
  }

  lemma RelievedSelect(s: Sys)
    requires Base(s) && Sound(s) && Relieved(s) && Orderly(s, SelectTask)
    ensures Relieved(After(s, SelectTask))
  {
    if AnyReady(s.k) { SelectionWakes(s); } else { SelectStalls(s.k); }
  }

  lemma RelievedRegister(s: Sys, r: TaskRec)
    requires Sound(s) && Typed(s) && Enabled(s, Register(r)) && s.k.current == 0
    ensures Relieved(After(s, Register(r)))
  {}

  lemma PrudentStep(s: Sys, l: Label)
    requires Base(s) && Sound(s) && Enabled(s, l) && Prudent(s, l) && Relieved(s)
    ensures Sound(After(s, l)) && Relieved(After(s, l))
  {
    PrudentIsOrderly(s, l);
    SoundStep(s, l);
    if IsInterrupt(l) {
      RelievedInterrupt(s, l);
    } else if l.SelectTask? {
      RelievedSelect(s);
    } else if l.ReadySelf? {
      RelievedReadySelf(s);
    } else if l.Register? && s.k.current == 0 {
      RelievedRegister(s, l.r);
    } else {
      RelievedTask(s, l);
    }
  }

  ghost predicate PrudentUpTo(ss: seq<Sys>, ls: seq<Label>, n: nat) {
    && n <= |ls| && n <= |ss|
    && forall i | 0 <= i < n :: Typed(ss[i]) && Enabled(ss[i], ls[i]) && Prudent(ss[i], ls[i])
  }

  lemma {:induction false} PrudentRunSound(ss: seq<Sys>, ls: seq<Label>, n: nat)
    requires Run(ss, ls) && n < |ss| && PrudentUpTo(ss, ls, n)
    ensures OrderlyUpTo(ss, ls, n) && Sound(ss[n]) && Relieved(ss[n])
  {
    if n == 0 {
      InitSound(ss[0]);
    } else {
      var j := n - 1;
      PrudentRunSound(ss, ls, j);
      BaseInRun(ss, ls, j);
      assert Step(ss[j], ls[j], ss[j + 1]);
      PrudentIsOrderly(ss[j], ls[j]);
      PrudentStep(ss[j], ls[j]);
    }
  }

  /** The switch that a stopping call requests is the very next step: no interrupt readies
      anybody in between. */
  ghost predicate Prompt(ss: seq<Sys>, ls: seq<Label>) {
    forall i | 0 <= i < |ls| && i < |ss| && Typed(ss[i]) && Enabled(ss[i], ls[i]) && Stops(ss[i], ls[i]) ::
      i + 1 < |ls| && ls[i + 1].SelectTask?
  }

  lemma OrderlyIsPrudent(ss: seq<Sys>, ls: seq<Label>, i: nat)
    requires Run(ss, ls) && Prompt(ss, ls) && i < |ls| && OrderlyUpTo(ss, ls, |ls|)
    ensures Typed(ss[i]) && Enabled(ss[i], ls[i]) && Prudent(ss[i], ls[i])
  {
    assert Step(ss[i], ls[i], ss[i + 1]);
    if Stops(ss[i], ls[i]) {
      SoundInRun(ss, ls, i);
      StopLeaves(ss[i], ls[i]);
      assert Orderly(ss[i + 1], ls[i + 1]);
      var t: nat, l: nat :| l < PRIORITY_IDLE && ReadyAt(ss[i + 1].k, t, l);
      assert ReadyAt(ss[i].k, t, l);
    }
  }

  /** When switches are prompt, every task is in exactly one place and nobody executes who
      does not run, in all states, if and only if every call that sleeps or blocks is made
      while another task is ready, no selection finds anybody between the writes of a
      task's state and bit, and no task of the same priority is woken between its load and
      its store of the ready word. */
  lemma OnePlaceWhenPrompt(ss: seq<Sys>, ls: seq<Label>)
    requires Run(ss, ls) && Prompt(ss, ls)
    ensures (forall i | 0 <= i < |ss| :: Fine(ss[i])) <==> PrudentUpTo(ss, ls, |ls|)
  {
    OnePlaceExactly(ss, ls, |ls|);
    if PrudentUpTo(ss, ls, |ls|) {
      PrudentRunSound(ss, ls, |ls|);
    }
    if OrderlyUpTo(ss, ls, |ls|) {
      forall i | 0 <= i < |ls|
        ensures Typed(ss[i]) && Enabled(ss[i], ls[i]) && Prudent(ss[i], ls[i])
      {
        OrderlyIsPrudent(ss, ls, i);
      }
    }
  }
}
