/** The mutex (Include/Mutex.hpp, Source/Mutex.cpp). */
module Mutexes {
  import opened Tasks
  import opened Scheduling
  import opened Blocking
  import opened Fifos
  import opened Kernels
  import opened WaitQueues

  class Mutex {
    const kernel: Kernel
    const blockedTasks: Fifo<TaskData?>
    var count: int
    var owner: TaskData?

    /** The id of the owner, and the ids of the blocked tasks, first come first. */
    ghost var holder: Option<nat>
    ghost var queue: seq<nat>

    ghost predicate Valid()
      reads this, blockedTasks, blockedTasks.buffer
      reads kernel, kernel.tasks, kernel.readyTasks, kernel.taskWakeUpTimes, kernel.registered
    {
      && kernel.Valid() && QueueIs(blockedTasks, kernel, queue) && NoNulls(blockedTasks)
      && GoodCore(kernel.model, Core())
      && OwnerIs()
    }

    ghost function Core(): MutexCore
      reads this
    {
      MutexCore(count, holder)
    }

    ghost predicate OwnerIs()
      reads this`owner, this`holder, kernel`taskCount, kernel.tasks
    {
      && kernel.taskCount <= kernel.tasks.Length
      && match holder
         case None => owner == null
         case Some(o) => o < kernel.taskCount && owner != null && owner == kernel.tasks[o]
    }

    /** Comparing task pointers compares task ids. */
    lemma OwnerIsCurrent()
      requires Valid()
      ensures owner == kernel.currentTask <==> holder == Some(kernel.model.current)
      ensures owner == null <==> count == 0
      ensures Registered(kernel.model, queue)
    {}

    constructor (k: Kernel)
      requires k.Valid()
      ensures kernel == k && Valid() && queue == [] && Core() == MutexCore(0, None)
      ensures fresh(blockedTasks) && fresh(blockedTasks.buffer)
    {
      kernel, count, owner, holder, queue := k, 0, null, None, [];
      var f := NewQueue(k);
      blockedTasks := f;
    }

    /** The owner gets the priority of the caller if its own is lower. */
    method Lend()
      requires Valid() && owner != null
      modifies kernel`model, owner`priority, owner`basePriority
      ensures Valid()
      ensures kernel.model == Boost(old(kernel.model), holder.value, old(kernel.model).current)
    {
      var ptrTaskData := kernel.currentTask;
      if Lower(owner.priority, ptrTaskData.priority) {
        RaisePriority(kernel, owner, ptrTaskData.priority);
      }
    }

    /** The caller queues up and stops being ready, unless the queue is full. */
    method QueueUp()
      requires Valid()
      modifies this`queue
      modifies blockedTasks`tail, blockedTasks`size, blockedTasks`written, blockedTasks.buffer
      modifies kernel`priorityBitmap, kernel`model, kernel.readyTasks, kernel.currentTask`state
      ensures Valid() && queue == Enqueued(old(queue), old(kernel.model).current)
      ensures kernel.model == Blocking.BlockRunner(old(kernel.model), old(queue))
    {
      WaitQueues.BlockRunner(blockedTasks, kernel, queue);
      queue := Enqueued(queue, kernel.model.current);
    }

    /** The caller of a mutex that is held lends its priority to the owner and queues up. */
    method LendAndBlock()
      requires Valid() && owner != null
      modifies this`queue
      modifies blockedTasks`tail, blockedTasks`size, blockedTasks`written, blockedTasks.buffer
      modifies kernel`priorityBitmap, kernel`model, kernel.readyTasks, kernel.currentTask`state
      modifies owner`priority, owner`basePriority
      ensures Valid() && queue == Enqueued(old(queue), kernel.model.current)
      ensures kernel.model ==
              Blocking.BlockRunner(Boost(old(kernel.model), holder.value, old(kernel.model).current), old(queue))
    {
      Lend();
      QueueUp();
    }

    /** One pass of the acquire loop: its critical section. */
    method TryOnce(waitForever: bool, end: nat) returns (r: Attempt)
      requires Valid()
      modifies this`count, this`owner, this`holder, this`queue
      modifies blockedTasks`tail, blockedTasks`size, blockedTasks`written, blockedTasks.buffer
      modifies kernel`priorityBitmap, kernel`model, kernel.readyTasks, kernel.currentTask`state
      modifies (if owner == null then {} else {owner})`priority, (if owner == null then {} else {owner})`basePriority
      ensures Valid()
      ensures (kernel.model, Core(), queue, r) ==
              TryAcquire(old(kernel.model), old(Core()), old(queue), waitForever, end)
    {
      if count <= 0 {
        count := count + 1;
        owner := kernel.currentTask;
        holder := Some(kernel.model.current);
        return Acquired;
      }
      if !waitForever && kernel.tickCount > end {
        return TimedOut;
      }
      LendAndBlock();
      r := MustWait;
    }

    /** acquire, up to the end of the first pass of its loop, when no tick falls before
        that pass.  None: the caller yields and makes another pass when it runs again. */
    method Acquire(ticksTimeout: nat, inISR: bool) returns (r: Option<MutexResult>)
      requires Valid()
      modifies this`count, this`owner, this`holder, this`queue
      modifies blockedTasks`tail, blockedTasks`size, blockedTasks`written, blockedTasks.buffer
      modifies kernel`priorityBitmap, kernel`model, kernel.readyTasks, kernel.currentTask`state
      modifies (if owner == null then {} else {owner})`priority, (if owner == null then {} else {owner})`basePriority
      ensures Valid()
      ensures r == Some(AlreadyOwned) <==> old(holder) == Some(old(kernel.model).current)
      ensures r == Some(MutexResult.ErrorCalledFromISR) <==> inISR && old(holder) != Some(old(kernel.model).current)
      ensures r == Some(AlreadyOwned) || r == Some(MutexResult.ErrorCalledFromISR) ==>
        kernel.model == old(kernel.model) && Core() == old(Core()) && queue == old(queue)
      ensures !inISR && r != Some(AlreadyOwned) ==>
        var s := TryAcquire(old(kernel.model), old(Core()), old(queue), ticksTimeout == WAIT_FOREVER,
                            ticksTimeout + old(kernel.model).ticks);
        && (kernel.model, Core(), queue) == (s.0, s.1, s.2)
        && r == match s.3
                case Acquired => Some(MutexResult.Success)
                case TimedOut => Some(MutexResult.Timeout)
                case MustWait => None
    {
      OwnerIsCurrent();
      if owner == kernel.currentTask {
        return Some(AlreadyOwned);
      }
      if inISR {
        return Some(MutexResult.ErrorCalledFromISR);
      }
      var a := TryOnce(ticksTimeout == WAIT_FOREVER, ticksTimeout + kernel.tickCount);
      match a
      case Acquired => r := Some(MutexResult.Success);
      case TimedOut => r := Some(MutexResult.Timeout);
      case MustWait => r := None;
    }

    /** Reads the first slots of the buffer, as many as there are waiters: a slot before
        the head holds a task that left the queue earlier, never a null. */
    method IsAnyTaskBlocking(priority: nat) returns (b: bool)
      requires blockedTasks.Valid() && NoNulls(blockedTasks)
      ensures b <==> exists i | 0 <= i < blockedTasks.size ::
                       var t := blockedTasks.buffer[i]; t != null && t.priority == priority
    {
      for i := 0 to blockedTasks.size
        invariant forall j | 0 <= j < i :: blockedTasks.buffer[j] != null && blockedTasks.buffer[j].priority != priority
      {
        var ptrTask := blockedTasks.GetAt(i);
        if ptrTask.priority == priority {
          return true;
        }
      }
      b := false;
    }

    /** Resets the caller's priority unless a task looked at has the given one: there is
        never anything to reset. */
    method RestoreUnless(priority: nat)
      requires kernel.Valid() && blockedTasks.Valid() && NoNulls(blockedTasks)
      modifies kernel.currentTask`priority
      ensures kernel.Valid() && kernel.currentTask.priority == old(kernel.currentTask.priority)
    {
      var any := IsAnyTaskBlocking(priority);
      if !any {
        RestorePriority(kernel, kernel.currentTask);
      }
    }

    /** The first waiter becomes ready. */
    method WakeBlocked() returns (ptrUnblockedTask: TaskData)
      requires kernel.Valid() && QueueIs(blockedTasks, kernel, queue) && NoNulls(blockedTasks) && queue != []
      requires Registered(kernel.model, queue)
      modifies this`queue, blockedTasks`head, blockedTasks`size
      modifies kernel`priorityBitmap, kernel`model, kernel.readyTasks, kernel.registered`state
      ensures kernel.Valid() && QueueIs(blockedTasks, kernel, queue) && NoNulls(blockedTasks)
      ensures queue == old(queue)[1..] && kernel.model == SetReady(old(kernel.model), old(queue)[0])
    {
      ptrUnblockedTask := WakeFirst(blockedTasks, kernel, queue);
      queue := queue[1..];
    }

    /** The first waiter, if there is one, becomes ready. */
    method PassOn()
      requires kernel.Valid() && QueueIs(blockedTasks, kernel, queue) && NoNulls(blockedTasks)
      modifies this`queue, blockedTasks`head, blockedTasks`size
      modifies kernel`priorityBitmap, kernel`model, kernel.readyTasks, kernel.registered`state
      modifies kernel.currentTask`priority
      ensures kernel.Valid() && QueueIs(blockedTasks, kernel, queue) && NoNulls(blockedTasks)
      ensures old(queue) == [] ==> queue == [] && kernel.model == old(kernel.model)
      ensures old(queue) != [] ==>
        && queue == old(queue)[1..] && old(queue)[0] < |old(kernel.model).tasks|
        && kernel.model == SetReady(old(kernel.model), old(queue)[0])
    {
      if blockedTasks.size != 0 {
        QueueRegistered(blockedTasks, kernel, queue);
        var ptrUnblockedTask := WakeBlocked();
        RestoreUnless(ptrUnblockedTask.priority);
      }
    }

    /** Nobody owns the mutex any more. */
    method Free()
      requires Valid() && count == 1
      modifies this`count, this`owner, this`holder
      ensures Valid() && Core() == MutexCore(0, None) && owner == null
    {
      count := count - 1;
      owner := null;
      holder := None;
    }

    /** The owner's part of release. */
    method LetGo()
      requires Valid() && count == 1 && holder == Some(kernel.model.current)
      modifies this`count, this`owner, this`holder, this`queue
      modifies blockedTasks`head, blockedTasks`size
      modifies kernel`priorityBitmap, kernel`model, kernel.readyTasks, kernel.registered`state
      modifies kernel.currentTask`priority
      ensures Valid() && Core() == MutexCore(0, None)
      ensures old(queue) == [] ==> queue == [] && kernel.model == old(kernel.model)
      ensures old(queue) != [] ==>
        && queue == old(queue)[1..] && old(queue)[0] < |old(kernel.model).tasks|
        && kernel.model == SetReady(old(kernel.model), old(queue)[0])
    {
      Free();
      PassOn();
      assert OwnerIs() && GoodCore(kernel.model, Core());
    }

    method Release(inISR: bool) returns (r: MutexResult)
      requires Valid()
      modifies this`count, this`owner, this`holder, this`queue
      modifies blockedTasks`head, blockedTasks`size
      modifies kernel`priorityBitmap, kernel`model, kernel.readyTasks, kernel.registered`state
      modifies kernel.currentTask`priority
      ensures Valid()
      ensures Registered(old(kernel.model), old(queue))
      ensures inISR && old(holder).Some? ==>
        && r == MutexResult.ErrorCalledFromISR
        && kernel.model == old(kernel.model) && Core() == old(Core()) && queue == old(queue)
      ensures !inISR || old(holder).None? ==>
        (kernel.model, Core(), queue, r) == Blocking.Release(old(kernel.model), old(Core()), old(queue))
      ensures r == MutexResult.Success <==>
        old(holder).None? || (!inISR && old(holder) == Some(old(kernel.model).current))
      ensures r == MutexResult.ErrorCalledFromISR <==> inISR && old(holder).Some?
      ensures r == NotOwner <==> !inISR && old(holder).Some? && old(holder) != Some(old(kernel.model).current)
      ensures r == NotOwner ==> kernel.model == old(kernel.model) && Core() == old(Core()) && queue == old(queue)
    {
      OwnerIsCurrent();
      if owner == null {
        return MutexResult.Success;
      }
      if !inISR {
        if owner == kernel.currentTask {
          LetGo();
          return MutexResult.Success;
        }
        return NotOwner;
      }
      r := MutexResult.ErrorCalledFromISR;
    }
  }
}
