/** The kernel state as a value, what each kernel operation does to it, and the
    invariant all of them keep (Source/Kernel.cpp).  The class in Kernel.dfy is
    proved to do exactly this to its arrays and words. */
module Scheduling {
  import opened Tasks

  /** tasks is indexed by task id; ready[l] holds the ids whose bit is set at level l. */
  datatype KState = KState(
    tasks: seq<TaskRec>,
    ready: seq<set<nat>>,
    levels: set<nat>,
    sleeping: set<nat>,
    wake: seq<nat>,
    current: nat,
    highest: nat,
    ticks: nat)

  // ------------------------------------------------------------------ invariants

  /** A registered priority: between the highest ever registered and idle, and equal
      to the base priority (every writer of one writes the other). */
  ghost predicate GoodPriority(r: TaskRec, highest: nat) {
    highest <= r.priority <= PRIORITY_IDLE && r.basePriority == r.priority
  }

  /** Sizes and ranges; every ready bit names a registered task and lies at or below
      the highest registered priority. */
  ghost predicate Shape(k: KState) {
    && 1 <= |k.tasks| <= MAX_TASKS && |k.ready| == LEVELS && |k.wake| == MAX_TASKS
    && k.current < |k.tasks| && k.highest <= PRIORITY_IDLE
    && (forall t | 0 <= t < |k.tasks| :: GoodPriority(k.tasks[t], k.highest))
    && (forall l: nat, t: nat | l < LEVELS && t in k.ready[l] :: t < |k.tasks| && k.highest <= l)
    && (forall t | t in k.sleeping :: t < |k.tasks|)
  }

  ghost predicate ReadyAt(k: KState, t: nat, l: nat) {
    l < |k.ready| && t in k.ready[l]
  }

  ghost predicate HasReadyBit(k: KState, t: nat) {
    exists l: nat :: ReadyAt(k, t, l)
  }

  /** What holds between kernel operations in every reachable state. */
  ghost predicate KInv(k: KState) {
    && Shape(k)
    && (forall t: nat, l: nat, m: nat | ReadyAt(k, t, l) && ReadyAt(k, t, m) :: l == m)
    && (forall t: nat, l: nat | ReadyAt(k, t, l) :: k.tasks[t].state.Ready? && k.tasks[t].priority <= l)
    && (forall t | 0 <= t < |k.tasks| && k.tasks[t].state.Ready? :: HasReadyBit(k, t))
    && (forall t | 0 <= t < |k.tasks| && k.tasks[t].state.Running? ::
          t == k.current && k.tasks[t].priority < PRIORITY_IDLE)
    && (forall t | 0 <= t < |k.tasks| :: k.tasks[t].state.Sleeping? <==> t in k.sleeping)
    && (forall t | 0 <= t < |k.tasks| :: !k.tasks[t].state.Suspended?)
  }

  /** Every level marked in the bitmap has a ready task.  Not part of the invariant: a
      task that readies itself can break it. */
  ghost predicate Marked(k: KState) {
    forall l: nat | l in k.levels :: l < |k.ready| && k.ready[l] != {}
  }

  // ------------------------------------------------------------------ operations

  function NoneReady(): (r: seq<set<nat>>)
    ensures |r| == LEVELS
  {
    seq(LEVELS, l => {})
  }

  /** A new kernel: only the idle task, id 0, ready at the idle level and current. */
  function Boot(): KState {
    KState([TaskRec(PRIORITY_IDLE, PRIORITY_IDLE, 0, Ready)],
           NoneReady()[PRIORITY_IDLE := {0}],
           {}, {}, seq(MAX_TASKS, i => 0), 0, PRIORITY_IDLE, 0)
  }

  function SetState(k: KState, t: nat, s: TaskState): KState
    requires t < |k.tasks|
  {
    k.(tasks := k.tasks[t := k.tasks[t].(state := s)])
  }

  function SetReady(k: KState, t: nat): KState
    requires Shape(k) && t < |k.tasks|
  {
    var p := k.tasks[t].priority;
    SetState(k, t, Ready).(ready := k.ready[p := k.ready[p] + {t}], levels := k.levels + {p})
  }

  /** Takes the bit away only from a task whose state is ready, and only at the level
      of its present priority. */
  function ResetReady(k: KState, t: nat, s: TaskState): KState
    requires Shape(k) && t < |k.tasks|
  {
    var p := k.tasks[t].priority;
    if k.tasks[t].state.Ready? then
      var bits := k.ready[p] - {t};
      SetState(k, t, s).(ready := k.ready[p := bits],
                         levels := if bits == {} then k.levels - {p} else k.levels)
    else
      SetState(k, t, s)
  }

  function SetPriority(k: KState, t: nat, p: nat): KState
    requires t < |k.tasks|
  {
    k.(tasks := k.tasks[t := k.tasks[t].(priority := p, basePriority := p)])
  }

  function AddSleeping(k: KState, t: nat, n: nat): KState
    requires Shape(k) && t < |k.tasks|
  {
    SetState(k, t, Sleeping).(sleeping := k.sleeping + {t}, wake := k.wake[t := k.ticks + n])
  }

  /** Registers a task under the next free id; a full table ignores it.  The bitmap of
      non-empty levels is not updated. */
  function AddTask(k: KState, r: TaskRec): KState
    requires Shape(k) && r.priority <= PRIORITY_IDLE
  {
    if |k.tasks| < MAX_TASKS then
      k.(tasks := k.tasks + [r],
         highest := if Higher(r.priority, k.highest) then r.priority else k.highest,
         ready := k.ready[r.priority := k.ready[r.priority] + {|k.tasks|}])
    else k
  }

  /** (l, i) is the lexicographically least ready pair of a level below idle. */
  ghost predicate IsBest(k: KState, l: nat, i: nat) {
    && l < PRIORITY_IDLE && ReadyAt(k, i, l)
    && (forall m: nat, j: nat | m < PRIORITY_IDLE && ReadyAt(k, j, m) :: l < m || (l == m && i <= j))
  }

  ghost predicate AnyReady(k: KState) {
    exists t: nat, l: nat :: l < PRIORITY_IDLE && ReadyAt(k, t, l)
  }

  /** A current task that is still running goes back to the ready tasks. */
  function PutBack(k: KState): KState
    requires Shape(k)
  {
    if k.tasks[k.current].state.Running? then SetReady(k, k.current) else k
  }

  /** Task i, whose bit is set at level l, starts to run and loses that bit. */
  function Dispatch(k: KState, l: nat, i: nat): KState
    requires Shape(k) && l < LEVELS && i < |k.tasks|
  {
    var bits := k.ready[l] - {i};
    SetState(k, i, Running).(current := i, ready := k.ready[l := bits],
                             levels := if bits == {} then k.levels - {l} else k.levels)
  }

  /** The switch to the picked pair, in the order of the code. */
  function Switch(k: KState, l: nat, i: nat): KState
    requires Shape(k) && l < LEVELS && i < |k.tasks|
  {
    Dispatch(PutBack(k), l, i)
  }

  /** Selection: the least pair if there is one, otherwise nothing changes. */
  ghost function Select(k: KState): KState
    requires Shape(k)
  {
    if exists l: nat, i: nat :: IsBest(k, l, i) then
      var l: nat, i: nat :| IsBest(k, l, i);
      Switch(k, l, i)
    else k
  }

  /** n selections in a row. */
  ghost function SelectN(k: KState, n: nat): KState
  {
    if n == 0 then k else
      var k' := SelectN(k, n - 1);
      if Shape(k') then Select(k') else k'
  }

  /** Ready, or the task that is running now. */
  ghost predicate Runnable(k: KState, t: nat) {
    && t < |k.tasks|
    && (HasReadyBit(k, t) || (t == k.current && k.tasks[t].state.Running?))
  }

  /** The sleeping tasks whose time has come. */
  ghost function Due(k: KState): set<nat>
    requires Shape(k)
  {
    set t | t in k.sleeping && k.wake[t] <= k.ticks
  }

  /** The due tasks with an id below i. */
  ghost function DueBelow(k: KState, i: nat): set<nat>
    requires Shape(k)
  {
    set t | t in Due(k) && t < i
  }

  /** All tasks of d made ready at once, each at the level of its priority. */
  ghost function Wake(k: KState, d: set<nat>): KState
    requires Shape(k)
  {
    k.(tasks := seq(|k.tasks|, t requires 0 <= t < |k.tasks| =>
                      if t in d then k.tasks[t].(state := Ready) else k.tasks[t]),
       ready := seq(LEVELS, l requires 0 <= l < LEVELS =>
                      k.ready[l] + set t | t in d && t < |k.tasks| && k.tasks[t].priority == l),
       levels := k.levels + set t | t in d && t < |k.tasks| :: k.tasks[t].priority,
       sleeping := k.sleeping - d)
  }

  /** The wake-up part of a tick. */
  ghost function Tick(k: KState): KState
    requires Shape(k)
  {
    Wake(k, Due(k))
  }

  /** One round of the wake-up loop of the tick. */
  function WakeIfDue(k: KState, i: nat): (k': KState)
    requires Shape(k)
    ensures Shape(k')
  {
    if i in k.sleeping && k.wake[i] <= k.ticks then
      SetReady(k, i).(sleeping := k.sleeping - {i})
    else k
  }

  /** The wake-up loop after its first i rounds. */
  function WakeBelow(k: KState, i: nat): (k': KState)
    requires Shape(k)
    ensures Shape(k')
  {
    if i == 0 then k else WakeIfDue(WakeBelow(k, i - 1), i - 1)
  }

  /** The system tick: the port counts it, then the kernel wakes whoever is due. */
  ghost function PortTick(k: KState): KState
    requires Shape(k)
  {
    Tick(k.(ticks := k.ticks + 1))
  }
}
