/** The event group (Include/EventGroup.h, Source/EventGroup.cpp). */
module EventGroups {
  import opened Tasks
  import opened Words
  import opened Blocking
  import opened Fifos
  import opened Kernels
  import opened WaitQueues

  /** The first t of q is entry i. */
  lemma {:induction false} RemovedIs(q: seq<nat>, t: nat, i: nat)
    requires i < |q| && q[i] == t && t !in q[..i]
    ensures Removed(q, t) == Without(q, i)
  {
    if i == 0 {
      assert Without(q, 0) == q[1..];
    } else {
      assert t !in q[1..][..i - 1] by { assert q[1..][..i - 1] == q[..i][1..]; }
      RemovedIs(q[1..], t, i - 1);
      assert q[0] == q[..i][0] && Without(q, i) == [q[0]] + Without(q[1..], i - 1);
    }
  }

  class EventGroup {
    const kernel: Kernel
    const waitingTasks: Fifo<TaskData?>
    var eventFlags: nat

    /** The ids of the waiting tasks, first come first. */
    ghost var queue: seq<nat>

    /** The group never dequeues, so the head of its queue stays at slot 0. */
    ghost predicate Valid()
      reads this, waitingTasks, waitingTasks.buffer
      reads kernel, kernel.tasks, kernel.readyTasks, kernel.taskWakeUpTimes, kernel.registered
    {
      && kernel.Valid() && QueueIs(waitingTasks, kernel, queue) && waitingTasks.head == 0
      && Fits(eventFlags, WIDTH32)
    }

    constructor (k: Kernel)
      requires k.Valid()
      ensures kernel == k && Valid() && queue == [] && eventFlags == 0
      ensures fresh(waitingTasks) && fresh(waitingTasks.buffer)
    {
      kernel, eventFlags, queue := k, 0, [];
      var f := NewQueue(k);
      waitingTasks := f;
    }

    /** The first critical section of waitForEvents, with the deadline it computes. */
    method WaitSection(flagsToWaitFor: nat, timeout: nat) returns (r: GroupEnd, endTime: nat)
      requires Valid()
      modifies this`queue
      modifies waitingTasks`tail, waitingTasks`size, waitingTasks`written, waitingTasks.buffer
      modifies kernel`model, kernel.currentTask`state, kernel.currentTask`flagsToWaitFor
      ensures Valid()
      ensures (kernel.model, queue, r) ==
              GroupWait(old(kernel.model), eventFlags, old(queue), flagsToWaitFor, timeout)
      ensures endTime == old(kernel.model).ticks + timeout
      ensures r == Got <==> And(eventFlags, flagsToWaitFor) != 0
      ensures r == NotGot <==> And(eventFlags, flagsToWaitFor) == 0 && timeout == 0
    {
      endTime := kernel.tickCount + timeout;
      if And(eventFlags, flagsToWaitFor) != 0 {
        return Got, endTime;
      }
      if timeout == 0 {
        return NotGot, endTime;
      }
      var task := kernel.currentTask;
      BlockForFlags(kernel, task, flagsToWaitFor);
      Join(waitingTasks, kernel, task, queue, kernel.model.current);
      queue := Enqueued(queue, kernel.model.current);
      r := Again;
    }

    /** getAt(i) == task, for the caller's own task. */
    method IsSelf(i: nat) returns (b: bool)
      requires Valid() && i < |queue|
      ensures b <==> queue[i] == kernel.model.current
    {
      var other := At(waitingTasks, kernel, i, queue);
      b := other == kernel.currentTask;
    }

    /** removeAt, of the first slot that holds the caller's own task. */
    method DropSelf(i: nat)
      requires Valid() && i < |queue| && queue[i] == kernel.model.current && kernel.model.current !in queue[..i]
      modifies this`queue, waitingTasks`tail, waitingTasks`size, waitingTasks.buffer
      ensures Valid() && queue == Removed(old(queue), kernel.model.current)
    {
      RemovedIs(queue, kernel.model.current, i);
      Drop(waitingTasks, kernel, i, queue);
      queue := Without(queue, i);
    }

    /** The loop that takes the caller out of the queue, wherever it is. */
    method LeaveQueue()
      requires Valid()
      modifies this`queue, waitingTasks`tail, waitingTasks`size, waitingTasks.buffer
      ensures Valid() && queue == Removed(old(queue), kernel.model.current)
    {
      ghost var t := kernel.model.current;
      var i := 0;
      while i < waitingTasks.size
        invariant Valid() && queue == old(queue) && i <= |queue| && t !in queue[..i]
      {
        var self := IsSelf(i);
        if self {
          DropSelf(i);
          return;
        }
        i := i + 1;
      }
      assert queue[..i] == queue;
      RemovedAbsent(queue, t);
    }

    /** The critical section of the loop of waitForEvents. */
    method Recheck(flagsToWaitFor: nat, endTime: nat) returns (r: GroupEnd)
      requires Valid()
      modifies this`queue, waitingTasks`tail, waitingTasks`size, waitingTasks.buffer
      ensures Valid()
      ensures (queue, r) == GroupRecheck(kernel.model, eventFlags, old(queue), flagsToWaitFor, endTime)
      ensures r == Got <==> And(eventFlags, flagsToWaitFor) != 0
      ensures r == NotGot <==> And(eventFlags, flagsToWaitFor) == 0 && kernel.tickCount >= endTime
    {
      if And(eventFlags, flagsToWaitFor) != 0 {
        LeaveQueue();
        return Got;
      }
      if kernel.tickCount >= endTime {
        LeaveQueue();
        return NotGot;
      }
      r := Again;
    }

    /** setEvents, up to its yield.  No task is queued twice: that holds for the queue of a
        group in every run. */
    method SetEvents(flagsToSet: nat)
      requires Valid() && Distinct(queue) && Fits(flagsToSet, WIDTH32)
      modifies this`eventFlags, this`queue, waitingTasks`tail, waitingTasks`size, waitingTasks.buffer
      modifies kernel`priorityBitmap, kernel`model, kernel.readyTasks
      modifies kernel.registered`state, kernel.registered`flagsToWaitFor
      ensures Valid() && eventFlags == Or(old(eventFlags), flagsToSet)
      ensures Bits(eventFlags) == Bits(old(eventFlags)) + Bits(flagsToSet)
      ensures Registered(old(kernel.model), old(queue))
      ensures (kernel.model, queue) == Blocking.SetEvents(old(kernel.model), eventFlags, old(queue))
    {
      OrAndBits(eventFlags, flagsToSet, WIDTH32);
      eventFlags := Or(eventFlags, flagsToSet);
      WakeMatching(waitingTasks, kernel, eventFlags, queue);
      queue := Disjoint(old(kernel.model), eventFlags, queue);
    }

    method ClearEvents(flagsToClear: nat)
      requires Valid() && Fits(flagsToClear, WIDTH32)
      modifies this`eventFlags
      ensures Valid() && eventFlags == And(old(eventFlags), Not(flagsToClear, WIDTH32))
      ensures Bits(eventFlags) == Bits(old(eventFlags)) - Bits(flagsToClear)
      ensures And(eventFlags, flagsToClear) == 0
    {
      AndNotBits(eventFlags, flagsToClear, WIDTH32);
      eventFlags := And(eventFlags, Not(flagsToClear, WIDTH32));
      OrAndBits(eventFlags, flagsToClear, WIDTH32);
    }
  }
}
