/** The whole system: the kernel, any number of mutexes, semaphores and event groups,
    and where each task stands in a call.  Each critical section, each tick and each
    selection is one atomic step.  A signalling task readies itself outside any critical
    section, so there each single write of the kernel is a step of its own.  The code of
    a task is executed while the task is current and no context switch is pending,
    whatever the task's state says. */
module Systems {
  import opened Tasks
  import opened Words
  import opened Scheduling
  import opened SchedulingProofs
  import opened Blocking
  import opened Places

  /** Outside a blocking loop, inside the acquire loop of mutex m, inside the wait loop of
      event group g, or in the course of readying itself after a signal or a flush:
      before the write of its state, before the load of its ready word, before the store
      of that word, before the load and before the store of the bitmap of levels.  A wait
      on a semaphore has no loop to be inside of. */
  datatype Pc =
    | App
    | Acquiring(m: nat, forever: bool, end: nat)
    | Waiting(g: nat, mask: nat, end: nat)
    | Signalled
    | StateWritten
    | WordLoaded(level: nat, word: set<nat>)
    | WordStored(level: nat)
    | MapLoaded(level: nat, marks: set<nat>)

  datatype Sys = Sys(
    k: KState,
    mutexes: seq<MutexCore>,
    sems: seq<SemCore>,
    groups: seq<nat>,
    queues: Queues,
    pcs: seq<Pc>,
    pending: bool)                                  // a context switch has been requested

  datatype Label =
    | Register(r: TaskRec)
    | SelectTask                                    // a context switch
    | SysTick                                       // the tick interrupt
    | Sleep(n: nat)
    | StartAcquire(m: nat, timeout: nat)            // acquire, up to its loop
    | AcquirePass                                   // one critical section of that loop
    | ReleaseMutex(m: nat)
    | WaitSem(x: nat, timeout: nat, start: nat)     // start: the tick count read on entry
    | SignalSem(x: nat, isr: bool)                  // from an interrupt or from a task
    | FlushSem(x: nat, isr: bool)
    | ReadySelf                                     // the next write or read of a task readying itself
    | WaitEvents(g: nat, mask: nat, timeout: nat)
    | RecheckEvents
    | RaiseEvents(g: nat, bits: nat)                // from a task or an interrupt
    | LowerEvents(g: nat, bits: nat)

  // ------------------------------------------------------------------------- steps

  /** Sizes, ranges and references fit together. */
  ghost predicate Typed(s: Sys) {
    && Shape(s.k) && |s.pcs| == |s.k.tasks|
    && (forall m | 0 <= m < |s.mutexes| :: MutexQ(m) in s.queues && GoodCore(s.k, s.mutexes[m]))
    && (forall x | 0 <= x < |s.sems| :: SemQ(x) in s.queues)
    && (forall g | 0 <= g < |s.groups| :: GroupQ(g) in s.queues && Fits(s.groups[g], WIDTH32))
    && (forall r | r in s.queues :: Registered(s.k, s.queues[r]))
    && (forall t | 0 <= t < |s.pcs| :: PcInRange(s, s.pcs[t]))
  }

  predicate PcInRange(s: Sys, pc: Pc) {
    match pc
    case App => true
    case Acquiring(m, _, _) => m < |s.mutexes|
    case Waiting(g, mask, _) => g < |s.groups| && Fits(mask, WIDTH32)
    case WordLoaded(l, w) => l < LEVELS && s.k.highest <= l && forall t | t in w :: t < |s.k.tasks|
    case WordStored(l) => l < LEVELS
    case MapLoaded(l, _) => l < LEVELS
    case _ => true
  }

  /** The code of the current task is executed.  That of the idle task, task 0, is an
      empty loop and takes no step. */
  predicate Executes(s: Sys) {
    0 < s.k.current < |s.pcs| && !s.pending
  }

  predicate InApp(s: Sys) {
    Executes(s) && s.pcs[s.k.current].App?
  }

  predicate SelfReadying(pc: Pc) {
    pc.Signalled? || pc.StateWritten? || pc.WordLoaded? || pc.WordStored? || pc.MapLoaded?
  }

  /** Tasks are registered before the first of them runs, or by task code. */
  ghost predicate Enabled(s: Sys, l: Label) {
    match l
    case Register(r) =>
      && (s.k.current == 0 || InApp(s))
      && r.priority <= PRIORITY_IDLE && r.basePriority == r.priority && r.state.Ready?
    case SelectTask => true
    case SysTick => true
    case Sleep(_) => InApp(s)
    case StartAcquire(m, _) => InApp(s) && m < |s.mutexes|
    case AcquirePass => Executes(s) && s.pcs[s.k.current].Acquiring?
    case ReleaseMutex(m) => InApp(s) && m < |s.mutexes|
    case WaitSem(x, _, start) => InApp(s) && x < |s.sems| && start <= s.k.ticks
    case SignalSem(x, isr) => x < |s.sems| && (isr || InApp(s))
    case FlushSem(x, isr) => x < |s.sems| && (isr || InApp(s))
    case ReadySelf => Executes(s) && SelfReadying(s.pcs[s.k.current])
    case WaitEvents(g, mask, _) => InApp(s) && g < |s.groups| && Fits(mask, WIDTH32)
    case RecheckEvents => Executes(s) && s.pcs[s.k.current].Waiting?
    case RaiseEvents(g, bits) => g < |s.groups| && Fits(bits, WIDTH32)
    case LowerEvents(g, bits) => g < |s.groups| && Fits(bits, WIDTH32)
  }

  function SetPc(s: Sys, pc: Pc): Sys
    requires s.k.current < |s.pcs|
  {
    s.(pcs := s.pcs[s.k.current := pc])
  }

  ghost function AfterAcquirePass(s: Sys): Sys
    requires Typed(s) && s.pcs[s.k.current].Acquiring?
  {
    var c := s.k.current;
    var m := s.pcs[c].m;
    var (k', core, q, out) :=
      TryAcquire(s.k, s.mutexes[m], s.queues[MutexQ(m)], s.pcs[c].forever, s.pcs[c].end);
    s.(k := k', mutexes := s.mutexes[m := core], queues := s.queues[MutexQ(m) := q],
       pcs := if out.MustWait? then s.pcs else s.pcs[c := App])
  }

  ghost function AfterRelease(s: Sys, m: nat): Sys
    requires Typed(s) && m < |s.mutexes|
  {
    var (k', core, q, _) := Release(s.k, s.mutexes[m], s.queues[MutexQ(m)]);
    s.(k := k', mutexes := s.mutexes[m := core], queues := s.queues[MutexQ(m) := q])
  }

  ghost function AfterWaitSem(s: Sys, x: nat, timeout: nat, start: nat): Sys
    requires Typed(s) && x < |s.sems|
  {
    var (k', core, q, _) := SemWait(s.k, s.sems[x], s.queues[SemQ(x)], timeout, timeout + start);
    s.(k := k', sems := s.sems[x := core], queues := s.queues[SemQ(x) := q])
  }

  ghost function AfterSignal(s: Sys, x: nat): Sys
    requires Typed(s) && x < |s.sems|
  {
    var (k', core, q) := SemSignal(s.k, s.sems[x], s.queues[SemQ(x)]);
    s.(k := k', sems := s.sems[x := core], queues := s.queues[SemQ(x) := q])
  }

  ghost function AfterFlush(s: Sys, x: nat): Sys
    requires Typed(s) && x < |s.sems|
  {
    s.(k := WakeEach(s.k, s.queues[SemQ(x)]), queues := s.queues[SemQ(x) := []])
  }

  ghost function AfterWaitEvents(s: Sys, g: nat, mask: nat, timeout: nat): Sys
    requires Typed(s) && g < |s.groups|
  {
    var (k', q, out) := GroupWait(s.k, s.groups[g], s.queues[GroupQ(g)], mask, timeout);
    var s' := s.(k := k', queues := s.queues[GroupQ(g) := q]);
    if out.Again? then s'.(pcs := s.pcs[s.k.current := Waiting(g, mask, s.k.ticks + timeout)]) else s'
  }

  ghost function AfterRecheck(s: Sys): Sys
    requires Typed(s) && s.pcs[s.k.current].Waiting?
  {
    var pc := s.pcs[s.k.current];
    var (q, out) := GroupRecheck(s.k, s.groups[pc.g], s.queues[GroupQ(pc.g)], pc.mask, pc.end);
    s.(queues := s.queues[GroupQ(pc.g) := q],
       pcs := if out.Again? then s.pcs else s.pcs[s.k.current := App])
  }

  ghost function AfterRaise(s: Sys, g: nat, bits: nat): Sys
    requires Typed(s) && g < |s.groups|
  {
    var f := Or(s.groups[g], bits);
    var (k', q) := SetEvents(s.k, f, s.queues[GroupQ(g)]);
    s.(k := k', groups := s.groups[g := f], queues := s.queues[GroupQ(g) := q])
  }

  /** The next of the single accesses by which the current task readies itself. */
  function AfterReadySelf(s: Sys): Sys
    requires s.k.current < |s.k.tasks| == |s.pcs| && SelfReadying(s.pcs[s.k.current]) && |s.k.ready| == LEVELS
    requires s.k.tasks[s.k.current].priority < LEVELS
    requires s.pcs[s.k.current].WordLoaded? ==> s.pcs[s.k.current].level < LEVELS
  {
    var c := s.k.current;
    match s.pcs[c]
    case StateWritten =>
      var l := s.k.tasks[c].priority;
      SetPc(s, WordLoaded(l, s.k.ready[l]))
    case WordLoaded(l, w) => SetPc(s.(k := s.k.(ready := s.k.ready[l := w + {c}])), WordStored(l))
    case WordStored(l) => SetPc(s, MapLoaded(l, s.k.levels))
    case MapLoaded(l, m) => SetPc(s.(k := s.k.(levels := m + {l})), App)
    case _ => SetPc(s.(k := Scheduling.SetState(s.k, c, Ready)), StateWritten)
  }

  /** What a step does, apart from context switches requested or done. */
  ghost function Effect(s: Sys, l: Label): Sys
    requires Typed(s) && Enabled(s, l)
  {
    match l
    case Register(r) =>
      if |s.k.tasks| < MAX_TASKS then s.(k := AddTask(s.k, r), pcs := s.pcs + [App]) else s
    case SelectTask => s.(k := Select(s.k))
    case SysTick => s.(k := PortTick(s.k))
    case Sleep(n) => s.(k := AddSleeping(s.k, s.k.current, n))
    case StartAcquire(m, timeout) =>
      if s.mutexes[m].owner == Some(s.k.current) then s     // AlreadyOwned
      else SetPc(s, Acquiring(m, timeout == WAIT_FOREVER, timeout + s.k.ticks))
    case AcquirePass => AfterAcquirePass(s)
    case ReleaseMutex(m) => AfterRelease(s, m)
    case WaitSem(x, timeout, start) => AfterWaitSem(s, x, timeout, start)
    case SignalSem(x, isr) => if isr then AfterSignal(s, x) else SetPc(AfterSignal(s, x), Signalled)
    case FlushSem(x, isr) =>
      if isr || s.queues[SemQ(x)] == [] then AfterFlush(s, x) else SetPc(AfterFlush(s, x), Signalled)
    case ReadySelf => AfterReadySelf(s)
    case WaitEvents(g, mask, timeout) => AfterWaitEvents(s, g, mask, timeout)
    case RecheckEvents => AfterRecheck(s)
    case RaiseEvents(g, bits) => AfterRaise(s, g, bits)
    case LowerEvents(g, bits) => s.(groups := s.groups[g := And(s.groups[g], Not(bits, WIDTH32))])
  }

  /** How the critical section of a step by the current task ends. */
  ghost function PassResult(s: Sys): Attempt
    requires Typed(s) && s.pcs[s.k.current].Acquiring?
  {
    var pc := s.pcs[s.k.current];
    TryAcquire(s.k, s.mutexes[pc.m], s.queues[MutexQ(pc.m)], pc.forever, pc.end).3
  }

  ghost function WaitResult(s: Sys, x: nat, timeout: nat, start: nat): WaitEnd
    requires Typed(s) && x < |s.sems|
  {
    SemWait(s.k, s.sems[x], s.queues[SemQ(x)], timeout, timeout + start).3
  }

  ghost function EventsResult(s: Sys, g: nat, mask: nat, timeout: nat): GroupEnd
    requires Typed(s) && g < |s.groups|
  {
    GroupWait(s.k, s.groups[g], s.queues[GroupQ(g)], mask, timeout).2
  }

  ghost function RecheckResult(s: Sys): GroupEnd
    requires Typed(s) && s.pcs[s.k.current].Waiting?
  {
    var pc := s.pcs[s.k.current];
    GroupRecheck(s.k, s.groups[pc.g], s.queues[GroupQ(pc.g)], pc.mask, pc.end).1
  }

  /** Whether a context switch is pending after a step: the tick and every yield request
      one, and selection does it. */
  ghost predicate Pends(s: Sys, l: Label)
    requires Typed(s) && Enabled(s, l)
  {
    match l
    case SelectTask => false
    case SysTick => true
    case Sleep(_) => true
    case AcquirePass => PassResult(s).MustWait?
    case ReleaseMutex(m) => s.mutexes[m].owner == Some(s.k.current)
    case WaitSem(x, timeout, start) => WaitResult(s, x, timeout, start).Joined?
    case ReadySelf => s.pcs[s.k.current].MapLoaded?
    case WaitEvents(g, mask, timeout) => EventsResult(s, g, mask, timeout).Again?
    case RecheckEvents => RecheckResult(s).Again?
    case RaiseEvents(_, _) => true
    case _ => s.pending
  }

  ghost function After(s: Sys, l: Label): Sys
    requires Typed(s) && Enabled(s, l)
  {
    Effect(s, l).(pending := Pends(s, l))
  }

  // --------------------------------------------------------------------- invariants

  /** What a queued task is doing fits the queue it is in. */
  ghost predicate PcFits(k: KState, pcs: seq<Pc>, r: QRef, t: nat) {
    && t < |pcs| && t < |k.tasks|
    && match r
       case MutexQ(m) => pcs[t].Acquiring? && pcs[t].m == m
       case SemQ(_) => pcs[t].App?
       case GroupQ(g) => pcs[t].Waiting? && pcs[t].g == g && pcs[t].mask == k.tasks[t].flags
  }

  ghost predicate PcInv(k: KState, qs: Queues, pcs: seq<Pc>) {
    && (forall r: QRef, p: nat, t: nat | Queued(qs, r, p, t) :: PcFits(k, pcs, r, t))
    && (forall t | 0 <= t < |k.tasks| && t < |pcs| && k.tasks[t].state.Sleeping? :: pcs[t].App?)
  }

  /** A semaphore with tokens has no waiters. */
  ghost predicate SemQuiet(sems: seq<SemCore>, qs: Queues) {
    forall x | 0 <= x < |sems| && SemQ(x) in qs && sems[x].count > 0 :: qs[SemQ(x)] == []
  }

  /** No queued waiter of a group has one of its flags set. */
  ghost predicate GroupQuiet(k: KState, groups: seq<nat>, qs: Queues) {
    forall g, t | 0 <= g < |groups| && GroupQ(g) in qs && t in qs[GroupQ(g)] && t < |k.tasks| ::
      Fits(k.tasks[t].flags, WIDTH32) && And(groups[g], k.tasks[t].flags) == 0
  }

  /** Whoever is queued in a group is in its wait loop, for the flags its task record
      holds, and is queued there once. */
  ghost predicate GroupsFit(k: KState, qs: Queues, pcs: seq<Pc>) {
    && (forall g: nat, p: nat, t: nat | Queued(qs, GroupQ(g), p, t) :: PcFits(k, pcs, GroupQ(g), t))
    && (forall g: nat | GroupQ(g) in qs :: Distinct(qs[GroupQ(g)]))
  }

  /** What holds in every state of every run. */
  ghost predicate Base(s: Sys) {
    && Typed(s)
    && SemQuiet(s.sems, s.queues)
    && GroupsFit(s.k, s.queues, s.pcs)
    && GroupQuiet(s.k, s.groups, s.queues)
  }

  /** What holds while no task executes that is not running, and no window of a task
      readying itself is hit. */
  ghost predicate SysInv(s: Sys) {
    && Typed(s)
    && Place(s.k, s.queues)
    && PcInv(s.k, s.queues, s.pcs)
    && SemQuiet(s.sems, s.queues)
    && GroupQuiet(s.k, s.groups, s.queues)
  }

  /** The current task is readying itself and has written its state but not yet its bit. */
  ghost predicate Midway(s: Sys) {
    s.k.current < |s.pcs| && (s.pcs[s.k.current].StateWritten? || s.pcs[s.k.current].WordLoaded?)
  }

  /** Until its bit is written, a task readying itself is still counted as running. */
  ghost function Seen(s: Sys): Sys
    requires s.k.current < |s.k.tasks|
  {
    if Midway(s) then s.(k := Scheduling.SetState(s.k, s.k.current, Running)) else s
  }

  /** A task whose code is executed is running, or on its way through readying itself. */
  ghost predicate Awake(s: Sys) {
    Executes(s) ==> IsRunning(s.k, s.k.current) || SelfReadying(s.pcs[s.k.current])
  }

  /** Every task is in exactly one place, and none executes while it is blocked, asleep or
      merely ready. */
  ghost predicate Fine(s: Sys) {
    s.k.current < |s.k.tasks| && Place(Seen(s).k, s.queues) && Awake(s)
  }

  /** The steps that keep it so.  A selection finds nobody while the current task is
      between the writes of its state and of its bit; it finds somebody when the current
      task has stopped running; and the ready word stored by a task readying itself is
      still the one it loaded. */
  ghost predicate Orderly(s: Sys, l: Label) {
    match l
    case SelectTask =>
      if Midway(s) then !AnyReady(s.k) else s.k.current == 0 || IsRunning(s.k, s.k.current) || AnyReady(s.k)
    case ReadySelf =>
      s.k.current < |s.pcs| && s.pcs[s.k.current].WordLoaded? ==> WordUnchanged(s.k, s.pcs[s.k.current])
    case _ => true
  }

  ghost predicate WordUnchanged(k: KState, pc: Pc)
    requires pc.WordLoaded?
  {
    pc.level < |k.ready| && k.ready[pc.level] == pc.word
  }

  /** The state of the current task: midway, its record and the loaded word are as the
      writes so far left them; otherwise it runs, or has a context switch pending, or has
      its ready bit already and is about to mark its level. */
  ghost predicate CurrentFits(s: Sys) {
    var c, k := s.k.current, s.k;
    && c < |k.tasks| == |s.pcs|
    && (forall t | 0 <= t < |s.pcs| && (s.pcs[t].StateWritten? || s.pcs[t].WordLoaded?) :: t == c)
    && (Midway(s) ==> k.tasks[c].state.Ready? && !HasReadyBit(k, c) && c != 0)
    && (s.pcs[c].WordLoaded? ==>
          s.pcs[c].level == k.tasks[c].priority < |k.ready| && s.pcs[c].word <= k.ready[s.pcs[c].level])
    && (c != 0 ==>
          && k.tasks[c].priority < PRIORITY_IDLE
          && (forall l: nat | ReadyAt(k, c, l) :: l < PRIORITY_IDLE)
          && (k.tasks[c].state.Running? || Midway(s) || s.pending ||
              ((s.pcs[c].WordStored? || s.pcs[c].MapLoaded?) && HasReadyBit(k, c))))
  }

  /** What holds in the states of orderly runs. */
  ghost predicate Sound(s: Sys) {
    CurrentFits(s) && SysInv(Seen(s))
  }

  /** Only the idle task, all mutexes free, all queues empty, no flags set. */
  ghost predicate Init(s: Sys) {
    && s.k == Boot() && s.pcs == [App] && !s.pending
    && (forall m | 0 <= m < |s.mutexes| :: s.mutexes[m] == MutexCore(0, None) && MutexQ(m) in s.queues)
    && (forall x | 0 <= x < |s.sems| :: SemQ(x) in s.queues)
    && (forall g | 0 <= g < |s.groups| :: s.groups[g] == 0 && GroupQ(g) in s.queues)
    && (forall r | r in s.queues :: s.queues[r] == [])
  }

  // --------------------------------------------------------------------------- runs

  ghost predicate Step(s: Sys, l: Label, s': Sys) {
    Typed(s) && Enabled(s, l) && s' == After(s, l)
  }

  ghost predicate OrderlyUpTo(ss: seq<Sys>, ls: seq<Label>, n: nat) {
    n <= |ls| && n <= |ss| && forall i | 0 <= i < n :: Orderly(ss[i], ls[i])
  }

  /** ss[i] is the state before step ls[i]. */
  ghost predicate Run(ss: seq<Sys>, ls: seq<Label>) {
    && |ss| == |ls| + 1 && Init(ss[0])
    && forall i | 0 <= i < |ls| :: Step(ss[i], ls[i], ss[i + 1])
  }
}
