/** Where each task is.  The kernel state and all wait queues together place every
    registered task in exactly one of four places; this file shows that blocking a
    task in a queue and waking one out of any position of a queue keep it so. */
module Places {
  import opened Tasks
  import opened Scheduling
  import opened SchedulingProofs
  import opened Blocking
  import opened Fifos

  /** The wait queue of mutex m, of semaphore m or of event group m. */
  datatype QRef = MutexQ(m: nat) | SemQ(x: nat) | GroupQ(g: nat)

  type Queues = map<QRef, seq<nat>>

  /** Task t is entry number p of queue r. */
  ghost predicate Queued(qs: Queues, r: QRef, p: nat, t: nat) {
    r in qs && p < |qs[r]| && qs[r][p] == t
  }

  ghost predicate InSomeQueue(qs: Queues, t: nat) {
    exists r: QRef, p: nat :: Queued(qs, r, p, t)
  }

  /** The blocked tasks are exactly the queued ones, and no task is queued twice. */
  ghost predicate Place(k: KState, qs: Queues) {
    && KInv(k)
    && (forall r: QRef, p: nat, t: nat | Queued(qs, r, p, t) :: t < |k.tasks| && k.tasks[t].state.Blocked?)
    && (forall r: QRef, p: nat, t: nat, r': QRef, p': nat | Queued(qs, r, p, t) && Queued(qs, r', p', t) ::
          r == r' && p == p')
    && (forall t | 0 <= t < |k.tasks| && k.tasks[t].state.Blocked? :: InSomeQueue(qs, t))
  }

  // ------------------------------------------------------- the four places of a task

  /** Current, running, and without a ready bit. */
  ghost predicate OnCpu(k: KState, t: nat) {
    IsRunning(k, t) && !HasReadyBit(k, t)
  }

  /** A ready bit at exactly one level, at or below the task's present priority. */
  ghost predicate ReadyOnce(k: KState, t: nat) {
    exists l: nat :: OnlyReadyAt(k, t, l)
  }

  ghost predicate OnlyReadyAt(k: KState, t: nat, l: nat) {
    && ReadyAt(k, t, l) && l < LEVELS && t < |k.tasks| && k.tasks[t].priority <= l
    && forall m: nat | ReadyAt(k, t, m) :: m == l
  }

  ghost predicate SleepBit(k: KState, t: nat) {
    t in k.sleeping
  }

  /** Exactly one entry in exactly one wait queue. */
  ghost predicate QueuedOnce(qs: Queues, t: nat) {
    exists r: QRef, p: nat :: OnlyQueuedAt(qs, r, p, t)
  }

  ghost predicate OnlyQueuedAt(qs: Queues, r: QRef, p: nat, t: nat) {
    && Queued(qs, r, p, t)
    && forall r': QRef, p': nat | Queued(qs, r', p', t) :: r' == r && p' == p
  }

  /** Every registered task is in exactly one place, and its state field says which. */
  lemma OnePlace(k: KState, qs: Queues, t: nat)
    requires Place(k, qs) && t < |k.tasks|
    ensures k.tasks[t].state.Running? <==> OnCpu(k, t)
    ensures k.tasks[t].state.Ready? <==> ReadyOnce(k, t)
    ensures k.tasks[t].state.Sleeping? <==> SleepBit(k, t)
    ensures k.tasks[t].state.Blocked? <==> QueuedOnce(qs, t)
    ensures OnCpu(k, t) || ReadyOnce(k, t) || SleepBit(k, t) || QueuedOnce(qs, t)
    ensures !OnCpu(k, t) ==> !IsRunning(k, t)
  {
    if k.tasks[t].state.Ready? {
      var l: nat :| ReadyAt(k, t, l);
      assert OnlyReadyAt(k, t, l);
    }
    if ReadyOnce(k, t) {
      var l: nat :| OnlyReadyAt(k, t, l);
    }
    if k.tasks[t].state.Blocked? {
      var r: QRef, p: nat :| Queued(qs, r, p, t);
      assert OnlyQueuedAt(qs, r, p, t);
    }
    if QueuedOnce(qs, t) {
      var r: QRef, p: nat :| OnlyQueuedAt(qs, r, p, t);
    }
  }

  // ------------------------------------------------- kernel steps move no blocked task

  lemma SameBlocked(k: KState, k': KState, qs: Queues)
    requires Place(k, qs) && KInv(k') && |k.tasks| <= |k'.tasks|
    requires forall t | 0 <= t < |k.tasks| :: k'.tasks[t].state.Blocked? <==> k.tasks[t].state.Blocked?
    requires forall t | |k.tasks| <= t < |k'.tasks| :: !k'.tasks[t].state.Blocked?
    ensures Place(k', qs)
  {}

  // -------------------------------------------------------------- blocking and waking

  /** The running task joins the end of a queue. */
  lemma BlockPlace(k: KState, qs: Queues, r: QRef)
    requires Place(k, qs) && r in qs && IsRunning(k, k.current)
    ensures Place(SetState(k, k.current, Blocked), qs[r := qs[r] + [k.current]])
    ensures ResetReady(k, k.current, Blocked) == SetState(k, k.current, Blocked)
  {
    var c := k.current;
    var k', qs' := SetState(k, c, Blocked), qs[r := qs[r] + [c]];
    BlockKeeps(k, c);
    forall r': QRef, p: nat, t: nat
      ensures Queued(qs', r', p, t) <==> Queued(qs, r', p, t) || (r' == r && p == |qs[r]| && t == c)
    {}
    forall t | 0 <= t < |k'.tasks| && k'.tasks[t].state.Blocked?
      ensures InSomeQueue(qs', t)
    {
      if t == c {
        assert Queued(qs', r, |qs[r]|, c);
      } else {
        var r': QRef, p: nat :| Queued(qs, r', p, t);
        assert Queued(qs', r', p, t);
      }
    }
  }

  /** The task at any position of a queue is made ready and taken out of the queue. */
  lemma WakePlace(k: KState, qs: Queues, r: QRef, j: nat)
    requires Place(k, qs) && r in qs && j < |qs[r]|
    ensures qs[r][j] < |k.tasks| && Place(SetReady(k, qs[r][j]), qs[r := Without(qs[r], j)])
  {
    assert Queued(qs, r, j, qs[r][j]);
    var w := qs[r][j];
    var k', qs' := SetReady(k, w), qs[r := Without(qs[r], j)];
    SetReadyKeeps(k, w);
    forall r': QRef, p: nat, t: nat | Queued(qs', r', p, t)
      ensures Queued(qs, r', if r' == r && p >= j then p + 1 else p, t) && t != w
    {
      var p' := if r' == r && p >= j then p + 1 else p;
      assert Queued(qs, r', p', t);
    }
    forall t | 0 <= t < |k'.tasks| && k'.tasks[t].state.Blocked?
      ensures InSomeQueue(qs', t)
    {
      var r': QRef, p: nat :| Queued(qs, r', p, t);
      assert Queued(qs', r', if r' == r && p > j then p - 1 else p, t);
    }
  }

  // -------------------------------------------------------- wait queues never drop a task

  lemma {:induction false} Pigeonhole(q: seq<nat>, s: set<nat>)
    requires Distinct(q) && forall i | 0 <= i < |q| :: q[i] in s
    ensures |q| <= |s|
  {
    if q != [] {
      var x := q[|q| - 1];
      Pigeonhole(q[..|q| - 1], s - {x});
    }
  }

  lemma {:induction false} Below(n: nat) returns (s: set<nat>)
    ensures |s| == n && forall i: nat :: i in s <==> i < n
  {
    if n == 0 {
      s := {};
    } else {
      var r := Below(n - 1);
      s := r + {n - 1};
    }
  }

  /** No queue holds a task twice, whoever is running. */
  lemma QueuesDistinct(k: KState, qs: Queues, r: QRef)
    requires Place(k, qs) && r in qs
    ensures Distinct(qs[r])
  {
    var q := qs[r];
    forall i, j | 0 <= i < j < |q|
      ensures q[i] != q[j]
    {
      assert Queued(qs, r, i, q[i]) && Queued(qs, r, j, q[j]);
    }
  }

  /** Each queue is duplicate-free and never holds the running task, so there is room
      whenever a running task blocks: the silent drop of a full buffer cannot happen. */
  lemma RoomToBlock(k: KState, qs: Queues, r: QRef)
    requires Place(k, qs) && r in qs && IsRunning(k, k.current)
    ensures Distinct(qs[r]) && k.current !in qs[r]
    ensures |qs[r]| < MAX_TASKS && Enqueued(qs[r], k.current) == qs[r] + [k.current]
  {
    var q := qs[r];
    QueuesDistinct(k, qs, r);
    forall i | 0 <= i < |q|
      ensures q[i] < |k.tasks| && q[i] != k.current
    {
      assert Queued(qs, r, i, q[i]);
    }
    var s := Below(|k.tasks|);
    Pigeonhole(q, s - {k.current});
  }
}
