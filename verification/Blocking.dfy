/** What each critical section of the mutex, the semaphore and the event group does to
    the kernel state, to the object's own data and to its wait queue of task ids.  The
    classes are proved to do exactly this, and the steps of the whole system are built
    from it. */
module Blocking {
  import opened Tasks
  import opened Words
  import opened Scheduling
  import opened SchedulingProofs

  const WAIT_FOREVER := 0xFFFF_FFFF

  /** The clock is past a finite timeout that began at the given tick. */
  predicate Late(timeout: nat, began: nat, now: nat) {
    timeout != WAIT_FOREVER && now > began + timeout
  }

  datatype Option<+T> = None | Some(value: T)

  ghost predicate Registered(k: KState, q: seq<nat>) {
    forall i | 0 <= i < |q| :: q[i] < |k.tasks|
  }

  ghost predicate Distinct(q: seq<nat>) {
    forall i, j | 0 <= i < j < |q| :: q[i] != q[j]
  }

  /** A wait queue has room for MAX_TASKS entries and drops what comes after that. */
  function Enqueued(q: seq<nat>, t: nat): seq<nat> {
    if |q| < MAX_TASKS then q + [t] else q
  }

  // ----------------------------------------------------------------------- mutex

  datatype MutexCore = MutexCore(count: int, owner: Option<nat>)
  datatype MutexResult = Success | ErrorCalledFromISR | Timeout | AlreadyOwned | NotOwner

  /** How one pass of the acquire loop ends; after MustWait the caller yields and tries again. */
  datatype Attempt = Acquired | TimedOut | MustWait

  /** count is 0 or 1, and is 1 exactly while there is an owner. */
  ghost predicate GoodCore(k: KState, c: MutexCore) {
    || (c.count == 0 && c.owner.None?)
    || (c.count == 1 && c.owner.Some? && c.owner.value < |k.tasks|)
  }

  /** The owner gets the priority of task t if its own is lower. */
  function Boost(k: KState, o: nat, t: nat): (k': KState)
    requires Shape(k) && o < |k.tasks| && t < |k.tasks|
    ensures Shape(k') && |k'.tasks| == |k.tasks|
  {
    if Lower(k.tasks[o].priority, k.tasks[t].priority) then
      SetPriorityShape(k, o, k.tasks[t].priority);
      SetPriority(k, o, k.tasks[t].priority)
    else k
  }

  /** Unless the queue is full, the current task, if it is running, stops being ready. */
  function BlockRunner(k: KState, q: seq<nat>): (k': KState)
    requires Shape(k)
    ensures |k'.tasks| == |k.tasks| && k'.current == k.current
  {
    if |q| < MAX_TASKS && k.tasks[k.current].state.Running? then ResetReady(k, k.current, Blocked) else k
  }

  /** The critical section of the acquire loop, run by the current task. */
  function TryAcquire(k: KState, c: MutexCore, q: seq<nat>, forever: bool, end: nat)
    : (KState, MutexCore, seq<nat>, Attempt)
    requires Shape(k) && GoodCore(k, c)
  {
    var t := k.current;
    if c.count <= 0 then
      (k, MutexCore(c.count + 1, Some(t)), q, Acquired)
    else if !forever && k.ticks > end then
      (k, c, q, TimedOut)
    else
      (BlockRunner(Boost(k, c.owner.value, t), q), c, Enqueued(q, t), MustWait)
  }

  /** TaskData::resetPriority. */
  function ResetPriority(k: KState, t: nat): KState
    requires t < |k.tasks|
  {
    k.(tasks := k.tasks[t := k.tasks[t].(priority := k.tasks[t].basePriority)])
  }

  /** Every boost overwrote the base priority too, so resetting never undoes one. */
  lemma ResetPriorityIsNoOp(k: KState, t: nat)
    requires Shape(k) && t < |k.tasks|
    ensures ResetPriority(k, t) == k
  {}

  /** release: only the owner lets go, and it makes the first waiter ready without
      handing the mutex over. */
  function Release(k: KState, c: MutexCore, q: seq<nat>): (KState, MutexCore, seq<nat>, MutexResult)
    requires Shape(k) && GoodCore(k, c) && Registered(k, q)
  {
    if c.owner.None? then
      (k, c, q, MutexResult.Success)
    else if c.owner.value == k.current then
      var c' := MutexCore(c.count - 1, None);
      if q != [] then (SetReady(k, q[0]), c', q[1..], MutexResult.Success) else (k, c', q, MutexResult.Success)
    else
      (k, c, q, NotOwner)
  }

  // ------------------------------------------------------------------- semaphore

  datatype SemCore = SemCore(count: nat, max: nat)
  datatype SemResult = Success | ErrorCalledFromISR | Timeout

  /** How the critical section of a wait ends; after Joined the caller yields once and
      then returns Success without looking again. */
  datatype WaitEnd = Took | GaveUp | Joined

  function SemWait(k: KState, c: SemCore, q: seq<nat>, timeout: nat, end: nat)
    : (KState, SemCore, seq<nat>, WaitEnd)
    requires Shape(k)
  {
    if c.count > 0 then
      (k, c.(count := c.count - 1), q, Took)
    else if timeout == 0 || (timeout != WAIT_FOREVER && k.ticks > end) then
      (k, c, q, GaveUp)
    else
      (ResetReady(k, k.current, Blocked), c, Enqueued(q, k.current), Joined)
  }

  /** A signal goes to the first waiter if there is one; otherwise it is counted, up to
      the maximum. */
  function SemSignal(k: KState, c: SemCore, q: seq<nat>): (KState, SemCore, seq<nat>)
    requires Shape(k) && Registered(k, q)
  {
    if q != [] then (SetReady(k, q[0]), c, q[1..])
    else if c.count < c.max then (k, c.(count := c.count + 1), q)
    else (k, c, q)
  }

  /** Makes the tasks of q ready, one after the other. */
  function WakeEach(k: KState, q: seq<nat>): (k': KState)
    requires Shape(k) && Registered(k, q)
    ensures Shape(k') && |k'.tasks| == |k.tasks|
  {
    if q == [] then k else
      var k1 := WakeEach(k, q[..|q| - 1]);
      SetReadyShape(k1, q[|q| - 1]);
      SetReady(k1, q[|q| - 1])
  }

  lemma WakeEachSnoc(k: KState, q: seq<nat>, n: nat)
    requires Shape(k) && n < |q| && Registered(k, q[..n + 1])
    ensures q[n] < |k.tasks| && Registered(k, q[..n])
    ensures WakeEach(k, q[..n + 1]) == SetReady(WakeEach(k, q[..n]), q[n])
  {
    assert q[..n + 1][n] == q[n] && q[..n + 1][..n] == q[..n];
  }

  // ----------------------------------------------------------------- event group

  datatype GroupEnd = Got | NotGot | Again

  function SetFlags(k: KState, t: nat, f: nat): KState
    requires t < |k.tasks|
  {
    k.(tasks := k.tasks[t := k.tasks[t].(flags := f)])
  }

  /** The first critical section of waitForEvents. */
  function GroupWait(k: KState, flags: nat, q: seq<nat>, mask: nat, timeout: nat)
    : (KState, seq<nat>, GroupEnd)
    requires Shape(k)
  {
    if And(flags, mask) != 0 then (k, q, Got)
    else if timeout == 0 then (k, q, NotGot)
    else
      (SetFlags(SetState(k, k.current, Blocked), k.current, mask), Enqueued(q, k.current), Again)
  }

  /** q without the first t in it. */
  function Removed(q: seq<nat>, t: nat): seq<nat> {
    if q == [] then [] else if q[0] == t then q[1..] else [q[0]] + Removed(q[1..], t)
  }

  lemma {:induction false} RemovedAbsent(q: seq<nat>, t: nat)
    requires t !in q
    ensures Removed(q, t) == q
  {
    if q != [] { RemovedAbsent(q[1..], t); }
  }

  /** The critical section of the loop of waitForEvents. */
  function GroupRecheck(k: KState, flags: nat, q: seq<nat>, mask: nat, end: nat): (seq<nat>, GroupEnd)
    requires Shape(k)
  {
    if And(flags, mask) != 0 then (Removed(q, k.current), Got)
    else if k.ticks >= end then (Removed(q, k.current), NotGot)
    else (q, Again)
  }

  /** The waiters of q whose flags share one with f, and those whose flags do not, both
      in the order of q. */
  function Matching(k: KState, f: nat, q: seq<nat>): (r: seq<nat>)
    requires Registered(k, q)
    ensures Registered(k, r)
  {
    if q == [] then [] else
      var r, t := Matching(k, f, q[..|q| - 1]), q[|q| - 1];
      if And(f, k.tasks[t].flags) != 0 then r + [t] else r
  }

  function Disjoint(k: KState, f: nat, q: seq<nat>): (r: seq<nat>)
    requires Registered(k, q)
    ensures Registered(k, r) && |r| <= |q|
  {
    if q == [] then [] else
      var r, t := Disjoint(k, f, q[..|q| - 1]), q[|q| - 1];
      if And(f, k.tasks[t].flags) == 0 then r + [t] else r
  }

  /** Each waiter is on exactly one side, decided by its own flags. */
  lemma {:induction false} MatchingOrDisjoint(k: KState, f: nat, q: seq<nat>, t: nat)
    requires Registered(k, q)
    ensures t in Matching(k, f, q) <==> t in q && And(f, k.tasks[t].flags) != 0
    ensures t in Disjoint(k, f, q) <==> t in q && And(f, k.tasks[t].flags) == 0
  {
    if q != [] {
      MatchingOrDisjoint(k, f, q[..|q| - 1], t);
      assert q == q[..|q| - 1] + [q[|q| - 1]];
    }
  }

  /** Makes the tasks of q ready and forgets their flags, one after the other. */
  function WakeEachEvent(k: KState, q: seq<nat>): (k': KState)
    requires Shape(k) && Registered(k, q)
    ensures Shape(k') && |k'.tasks| == |k.tasks|
  {
    if q == [] then k else
      var k1 := WakeEachEvent(k, q[..|q| - 1]);
      var t := q[|q| - 1];
      SetReadyShape(k1, t);
      SetFlagsShape(SetReady(k1, t), t, 0);
      SetFlags(SetReady(k1, t), t, 0)
  }

  lemma SetFlagsShape(k: KState, t: nat, f: nat)
    requires Shape(k) && t < |k.tasks|
    ensures Shape(SetFlags(k, t, f))
  {}

  /** setEvents: f is the new flag word; the waiters it concerns are woken in order, the
      others stay queued in order. */
  function SetEvents(k: KState, f: nat, q: seq<nat>): (KState, seq<nat>)
    requires Shape(k) && Registered(k, q)
  {
    (WakeEachEvent(k, Matching(k, f, q)), Disjoint(k, f, q))
  }

  lemma SplitSnoc(k: KState, f: nat, q: seq<nat>, n: nat)
    requires n < |q| && Registered(k, q[..n + 1])
    ensures Registered(k, q[..n])
    ensures var t := q[n];
      && t < |k.tasks|
      && var w, d, m := Matching(k, f, q[..n]), Disjoint(k, f, q[..n]), And(f, k.tasks[t].flags) != 0;
         && Matching(k, f, q[..n + 1]) == (if m then w + [t] else w)
         && Disjoint(k, f, q[..n + 1]) == (if m then d else d + [t])
  {
    assert q[..n + 1][..n] == q[..n] && q[..n + 1][n] == q[n];
  }

  lemma WakeEachEventSnoc(k: KState, w: seq<nat>, t: nat)
    requires Shape(k) && Registered(k, w + [t])
    ensures Registered(k, w) && t < |k.tasks|
    ensures Shape(SetReady(WakeEachEvent(k, w), t))
    ensures WakeEachEvent(k, w + [t]) == SetFlags(SetReady(WakeEachEvent(k, w), t), t, 0)
  {
    assert (w + [t])[|w|] == t && (w + [t])[..|w|] == w;
    forall i | 0 <= i < |w|
      ensures w[i] < |k.tasks|
    {
      assert (w + [t])[i] == w[i];
    }
    SetReadyShape(WakeEachEvent(k, w), t);
  }

  /** Waking tasks changes no other task. */
  lemma {:induction false} OthersKept(k: KState, w: seq<nat>, t: nat)
    requires Shape(k) && Registered(k, w) && t < |k.tasks| && t !in w
    ensures WakeEachEvent(k, w).tasks[t] == k.tasks[t]
  {
    if w != [] { OthersKept(k, w[..|w| - 1], t); }
  }
}
