/** A wait queue of task pointers, seen as a queue of task ids. */
module WaitQueues {
  import opened Tasks
  import opened Words
  import opened Scheduling
  import opened SchedulingProofs
  import opened Blocking
  import opened Fifos
  import opened Kernels

  /** The elements of f are the registered tasks with the ids of q, in order. */
  ghost predicate QueueIs(f: Fifo<TaskData?>, k: Kernel, q: seq<nat>)
    reads f, f.buffer, k`taskCount, k.tasks
  {
    && f.Valid() && f.MAX_ITEMS == MAX_TASKS && f.none == null
    && f.buffer != k.tasks && k.taskCount <= k.tasks.Length
    && |q| == f.size
    && forall i | 0 <= i < |q| :: q[i] < k.taskCount && f.Contents()[i] == k.tasks[q[i]]
  }

  method NewQueue(k: Kernel) returns (f: Fifo<TaskData?>)
    requires k.taskCount <= k.tasks.Length
    ensures fresh(f) && fresh(f.buffer) && QueueIs(f, k, []) && NoNulls(f) && f.head == 0
  {
    f := new Fifo<TaskData?>(MAX_TASKS, null);
  }

  /** No slot written so far holds the null that an unwritten one holds. */
  ghost predicate NoNulls(f: Fifo<TaskData?>)
    reads f`written, f.buffer
  {
    f.written <= f.buffer.Length && forall i | 0 <= i < f.written :: f.buffer[i] != null
  }

  /** enqueue, of the task with id t. */
  method Join(f: Fifo<TaskData?>, k: Kernel, task: TaskData, ghost q: seq<nat>, ghost t: nat)
    requires QueueIs(f, k, q) && t < k.taskCount && k.tasks[t] == task
    modifies f`tail, f`size, f`written, f.buffer
    ensures QueueIs(f, k, Enqueued(q, t))
    ensures old(NoNulls(f)) ==> NoNulls(f)
  {
    f.Enqueue(task);
  }

  /** dequeue, of a queue that is not empty. */
  method Leave(f: Fifo<TaskData?>, k: Kernel, ghost q: seq<nat>) returns (task: TaskData?)
    requires QueueIs(f, k, q) && q != []
    modifies f`head, f`size
    ensures QueueIs(f, k, q[1..]) && task == k.tasks[q[0]]
  {
    ghost var was := f.Contents();
    task := f.Dequeue();
    assert was[0] == task && f.Contents() == was[1..];
  }

  /** The current task stops being ready and queues up. */
  method BlockCurrent(f: Fifo<TaskData?>, k: Kernel, ghost q: seq<nat>)
    requires k.Valid() && QueueIs(f, k, q)
    modifies f`tail, f`size, f`written, f.buffer
    modifies k`priorityBitmap, k`model, k.readyTasks, k.currentTask`state
    ensures k.Valid() && k.model == ResetReady(old(k.model), old(k.model).current, Blocked)
    ensures QueueIs(f, k, Enqueued(q, old(k.model).current))
    ensures old(NoNulls(f)) ==> NoNulls(f)
  {
    ghost var t := k.model.current;
    var ptrTaskData := k.currentTask;
    Join(f, k, ptrTaskData, q, t);
    k.ResetTaskReady(ptrTaskData, Blocked);
  }

  /** Unless the queue is full, the current task queues up, and it stops being ready if it
      is running. */
  method BlockRunner(f: Fifo<TaskData?>, k: Kernel, ghost q: seq<nat>)
    requires k.Valid() && QueueIs(f, k, q)
    modifies f`tail, f`size, f`written, f.buffer
    modifies k`priorityBitmap, k`model, k.readyTasks, k.currentTask`state
    ensures k.Valid() && QueueIs(f, k, Enqueued(q, old(k.model).current))
    ensures k.model == Blocking.BlockRunner(old(k.model), q)
    ensures old(NoNulls(f)) ==> NoNulls(f)
  {
    var full := f.IsFull();
    if !full {
      ghost var t := k.model.current;
      var ptrTaskData := k.currentTask;
      if ptrTaskData.state == Running {
        BlockCurrent(f, k, q);
      } else {
        Join(f, k, ptrTaskData, q, t);
      }
    }
  }

  /** setPriority, on a task known to the kernel: only ever called to raise it. */
  method RaisePriority(k: Kernel, t: TaskData, prio: nat)
    requires k.Valid() && t in k.registered && k.model.highest <= prio <= PRIORITY_IDLE
    requires Higher(prio, t.priority)
    modifies k`model, t`priority, t`basePriority
    ensures k.Valid() && k.model == SetPriority(old(k.model), t.id, prio)
  {
    ghost var m := k.model;
    t.SetPriority(prio);
    SetPriorityShape(m, t.id, prio);
    k.model := SetPriority(m, t.id, prio);
  }

  /** resetPriority, on a task known to the kernel: nothing is left to restore. */
  method RestorePriority(k: Kernel, t: TaskData)
    requires k.Valid() && t in k.registered
    modifies t`priority
    ensures k.Valid() && k.model == ResetPriority(old(k.model), t.id)
    ensures t.priority == old(t.priority)
  {
    ResetPriorityIsNoOp(k.model, t.id);
    assert GoodPriority(k.model.tasks[t.id], k.model.highest);
    t.ResetPriority();
  }

  /** The first task of the queue leaves it and is made ready. */
  method WakeFirst(f: Fifo<TaskData?>, k: Kernel, ghost q: seq<nat>) returns (task: TaskData)
    requires k.Valid() && QueueIs(f, k, q) && q != []
    modifies f`head, f`size
    modifies k`priorityBitmap, k`model, k.readyTasks, k.registered`state
    ensures k.Valid() && k.model == SetReady(old(k.model), q[0])
    ensures QueueIs(f, k, q[1..]) && task == k.tasks[q[0]]
  {
    var t := Leave(f, k, q);
    k.SetTaskReady(t);
    task := t;
  }

  lemma QueueRegistered(f: Fifo<TaskData?>, k: Kernel, q: seq<nat>)
    requires k.Valid() && QueueIs(f, k, q)
    ensures Registered(k.model, q)
  {}

  /** Every task of the queue leaves it and is made ready, first come first. */
  method WakeAll(f: Fifo<TaskData?>, k: Kernel, ghost q: seq<nat>) returns (any: bool)
    requires k.Valid() && QueueIs(f, k, q)
    modifies f`head, f`size
    modifies k`priorityBitmap, k`model, k.readyTasks, k.registered`state
    ensures Registered(old(k.model), q)
    ensures k.Valid() && k.model == WakeEach(old(k.model), q)
    ensures QueueIs(f, k, []) && (any <==> q != [])
  {
    QueueRegistered(f, k, q);
    ghost var k0, n := k.model, 0;
    any := false;
    while f.size != 0
      invariant k.Valid() && n <= |q| && QueueIs(f, k, q[n..])
      invariant k.model == WakeEach(k0, q[..n]) && (any <==> n > 0)
      decreases f.size
    {
      WakeEachSnoc(k0, q, n);
      var taskToUnblock := WakeFirst(f, k, q[n..]);
      assert q[n..][1..] == q[n + 1..];
      any := true;
      n := n + 1;
    }
    assert q[..n] == q && q[n..] == [];
  }

  /** setState and setFlagsToWaitFor, on a task known to the kernel. */
  method BlockForFlags(k: Kernel, t: TaskData, flags: nat)
    requires k.Valid() && t in k.registered
    modifies k`model, t`state, t`flagsToWaitFor
    ensures k.Valid()
    ensures k.model == SetFlags(Scheduling.SetState(old(k.model), t.id, Blocked), t.id, flags)
  {
    ghost var m := k.model;
    t.state := Blocked;
    t.flagsToWaitFor := flags;
    k.model := SetFlags(Scheduling.SetState(m, t.id, Blocked), t.id, flags);
  }

  /** setFlagsToWaitFor(0), on a task known to the kernel. */
  method ForgetFlags(k: Kernel, t: TaskData)
    requires k.Valid() && t in k.registered
    modifies k`model, t`flagsToWaitFor
    ensures k.Valid() && k.model == SetFlags(old(k.model), t.id, 0)
  {
    ghost var m := k.model;
    t.flagsToWaitFor := 0;
    k.model := SetFlags(m, t.id, 0);
  }

  /** getAt, of a queue whose head never moved: slots are positions. */
  method At(f: Fifo<TaskData?>, k: Kernel, i: nat, ghost q: seq<nat>) returns (task: TaskData?)
    requires QueueIs(f, k, q) && f.head == 0 && i < |q|
    ensures task == k.tasks[q[i]]
  {
    task := f.GetAt(i);
    assert f.Contents()[i] == f.buffer[i];
  }

  /** removeAt, of such a queue. */
  method Drop(f: Fifo<TaskData?>, k: Kernel, i: nat, ghost q: seq<nat>)
    requires QueueIs(f, k, q) && f.head == 0 && i < |q|
    modifies f`tail, f`size, f.buffer
    ensures QueueIs(f, k, Without(q, i))
  {
    f.RemoveAt(i);
  }

  /** The task is made ready and its request is forgotten. */
  method WakeForFlags(k: Kernel, task: TaskData)
    requires k.Valid() && task in k.registered
    modifies k`priorityBitmap, k`model, k.readyTasks, task`state, task`flagsToWaitFor
    ensures k.Valid() && k.model == SetFlags(SetReady(old(k.model), task.id), task.id, 0)
  {
    k.SetTaskReady(task);
    ForgetFlags(k, task);
  }

  /** The task in slot i is made ready and leaves. */
  method WakeAndDrop(f: Fifo<TaskData?>, k: Kernel, task: TaskData, i: nat, ghost q: seq<nat>)
    requires k.Valid() && QueueIs(f, k, q) && f.head == 0 && i < |q| && task in k.registered
    modifies f`tail, f`size, f.buffer
    modifies k`priorityBitmap, k`model, k.readyTasks, task`state, task`flagsToWaitFor
    ensures k.Valid() && QueueIs(f, k, Without(q, i))
    ensures k.model == SetFlags(SetReady(old(k.model), task.id), task.id, 0)
  {
    WakeForFlags(k, task);
    Drop(f, k, i, q);
  }

  lemma TaskAt(k: Kernel, t: nat)
    requires k.Valid() && t < |k.model.tasks|
    ensures t < k.tasks.Length && k.tasks[t] != null && k.tasks[t] in k.registered
    ensures k.tasks[t].id == t && k.tasks[t].Rec() == k.model.tasks[t]
  {}

  /** One round of the loop of setEvents: task t, in slot i, is woken and leaves if it
      waits for one of the flags. */
  method WakeIfMatching(f: Fifo<TaskData?>, k: Kernel, i: nat, flags: nat, ghost q: seq<nat>) returns (woken: bool)
    requires k.Valid() && QueueIs(f, k, q) && f.head == 0 && i < |q| && q[i] < |k.model.tasks|
    modifies f`tail, f`size, f.buffer
    modifies k`priorityBitmap, k`model, k.readyTasks, k.registered`state, k.registered`flagsToWaitFor
    ensures k.Valid() && (woken <==> And(flags, old(k.model).tasks[q[i]].flags) != 0)
    ensures woken ==> QueueIs(f, k, Without(q, i)) && k.model == SetFlags(SetReady(old(k.model), q[i]), q[i], 0)
    ensures !woken ==> QueueIs(f, k, q) && k.model == old(k.model)
  {
    var task := At(f, k, i, q);
    assert task != null && task in k.registered && task.id == q[i] && task.Rec() == k.model.tasks[q[i]] by {
      TaskAt(k, q[i]);
    }
    woken := And(flags, task.flagsToWaitFor) != 0;
    if woken {
      WakeAndDrop(f, k, task, i, q);
    }
  }

  /** m is k0 after the loop of setEvents has looked at the first n tasks of q and kept i. */
  ghost predicate Looked(k0: KState, flags: nat, q: seq<nat>, n: nat, i: nat, m: KState)
    requires Shape(k0)
  {
    && n <= |q| && Registered(k0, q) && m == WakeEachEvent(k0, Matching(k0, flags, q[..n]))
    && i == |Disjoint(k0, flags, q[..n])|
  }

  /** The queue at that point: those that stay, then those not looked at yet. */
  ghost function Left(k0: KState, flags: nat, q: seq<nat>, n: nat): (r: seq<nat>)
    requires n <= |q| && Registered(k0, q)
  {
    Disjoint(k0, flags, q[..n]) + q[n..]
  }

  /** A task not looked at yet still has its flags. */
  lemma NotLookedAt(k0: KState, flags: nat, q: seq<nat>, n: nat, i: nat, m: KState)
    requires Shape(k0) && Looked(k0, flags, q, n, i, m) && Distinct(q) && n < |q|
    ensures q[n] < |m.tasks| && m.tasks[q[n]] == k0.tasks[q[n]]
    ensures var now := Left(k0, flags, q, n);
      && i < |now| && now[i] == q[n]
      && Without(now, i) == Disjoint(k0, flags, q[..n]) + q[n + 1..]
  {
    MatchingOrDisjoint(k0, flags, q[..n], q[n]);
    OthersKept(k0, Matching(k0, flags, q[..n]), q[n]);
  }

  /** The next task waits for one of the flags: it is woken. */
  lemma LookWoken(k0: KState, flags: nat, q: seq<nat>, n: nat, next: nat, i: nat, m: KState)
    requires Shape(k0) && Looked(k0, flags, q, n, i, m) && n < |q| && next == n + 1
    requires And(flags, k0.tasks[q[n]].flags) != 0
    ensures q[n] < |m.tasks| && Shape(m) && next <= |q|
    ensures Looked(k0, flags, q, next, i, SetFlags(SetReady(m, q[n]), q[n], 0))
    ensures Left(k0, flags, q, next) == Disjoint(k0, flags, q[..n]) + q[next..]
  {
    SplitSnoc(k0, flags, q, n);
    WakeEachEventSnoc(k0, Matching(k0, flags, q[..n]), q[n]);
  }

  lemma Regroup(d: seq<nat>, q: seq<nat>, n: nat, next: nat)
    requires n < |q| && next == n + 1
    ensures d + [q[n]] + q[next..] == d + q[n..]
  {}

  /** It waits for none of them: it stays. */
  lemma LookKept(k0: KState, flags: nat, q: seq<nat>, n: nat, next: nat, i: nat, j: nat, m: KState)
    requires Shape(k0) && Looked(k0, flags, q, n, i, m) && n < |q| && next == n + 1 && j == i + 1
    requires And(flags, k0.tasks[q[n]].flags) == 0
    ensures next <= |q| && Looked(k0, flags, q, next, j, m)
    ensures Left(k0, flags, q, next) == Left(k0, flags, q, n)
  {
    var d := Disjoint(k0, flags, q[..n]);
    SplitSnoc(k0, flags, q, n);
    assert Matching(k0, flags, q[..next]) == Matching(k0, flags, q[..n]);
    assert Disjoint(k0, flags, q[..next]) == d + [q[n]];
    Regroup(d, q, n, next);
  }

  /** One round of the loop of setEvents, slot i, after n tasks of q. */
  method LookAt(f: Fifo<TaskData?>, k: Kernel, i: nat, flags: nat,
                ghost k0: KState, ghost q: seq<nat>, ghost n: nat) returns (woken: bool)
    requires k.Valid() && Shape(k0) && Looked(k0, flags, q, n, i, k.model) && Distinct(q) && n < |q|
    requires QueueIs(f, k, Left(k0, flags, q, n)) && f.head == 0
    modifies f`tail, f`size, f.buffer
    modifies k`priorityBitmap, k`model, k.readyTasks, k.registered`state, k.registered`flagsToWaitFor
    ensures k.Valid() && Looked(k0, flags, q, n + 1, if woken then i else i + 1, k.model)
    ensures QueueIs(f, k, Left(k0, flags, q, n + 1))
  {
    NotLookedAt(k0, flags, q, n, i, k.model);
    if And(flags, k0.tasks[q[n]].flags) != 0 {
      LookWoken(k0, flags, q, n, n + 1, i, k.model);
    } else {
      LookKept(k0, flags, q, n, n + 1, i, i + 1, k.model);
    }
    woken := WakeIfMatching(f, k, i, flags, Left(k0, flags, q, n));
  }

  lemma LookedAtAll(k0: KState, flags: nat, q: seq<nat>, n: nat, i: nat, m: KState)
    requires Shape(k0) && Looked(k0, flags, q, n, i, m)
    ensures i < |Left(k0, flags, q, n)| <==> n < |q|
    ensures n == |q| ==> m == WakeEachEvent(k0, Matching(k0, flags, q))
    ensures n == |q| ==> Left(k0, flags, q, n) == Disjoint(k0, flags, q)
  {
    if n == |q| { assert q[..n] == q; }
  }

  lemma LookedAtNone(k0: KState, flags: nat, q: seq<nat>)
    requires Shape(k0) && Registered(k0, q)
    ensures Looked(k0, flags, q, 0, 0, k0) && Left(k0, flags, q, 0) == q
  {}

  /** The loop of setEvents: the waiters that wait for one of the flags leave the queue,
      wherever they are in it, and are woken in order; the others keep their order. */
  method WakeMatching(f: Fifo<TaskData?>, k: Kernel, flags: nat, ghost q: seq<nat>)
    requires k.Valid() && QueueIs(f, k, q) && f.head == 0 && Distinct(q)
    modifies f`tail, f`size, f.buffer
    modifies k`priorityBitmap, k`model, k.readyTasks, k.registered`state, k.registered`flagsToWaitFor
    ensures k.Valid() && Registered(old(k.model), q)
    ensures k.model == WakeEachEvent(old(k.model), Matching(old(k.model), flags, q))
    ensures QueueIs(f, k, Disjoint(old(k.model), flags, q))
  {
    QueueRegistered(f, k, q);
    ghost var k0, n := k.model, 0;
    var i := 0;
    LookedAtNone(k0, flags, q);
    while i < f.size
      invariant Shape(k0) && Looked(k0, flags, q, n, i, k.model)
      invariant k.Valid() && QueueIs(f, k, Left(k0, flags, q, n))
      decreases |q| - n
    {
      LookedAtAll(k0, flags, q, n, i, k.model);
      var woken := LookAt(f, k, i, flags, k0, q, n);
      if !woken {
        i := i + 1;  // a removal already moved the next task into slot i
      }
      n := n + 1;
    }
    LookedAtAll(k0, flags, q, n, i, k.model);
  }
}
