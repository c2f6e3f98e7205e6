/** The counting semaphore (Include/Semaphore.hpp, Source/Semaphore.cpp). */
module Semaphores {
  import opened Tasks
  import opened Scheduling
  import opened Blocking
  import opened Fifos
  import opened Kernels
  import opened WaitQueues

  class Semaphore {
    const kernel: Kernel
    const waitingQueue: Fifo<TaskData?>
    const maxCount: nat
    var count: nat

    /** The ids of the waiting tasks, first come first. */
    ghost var queue: seq<nat>

    ghost predicate Valid()
      reads this, waitingQueue, waitingQueue.buffer
      reads kernel, kernel.tasks, kernel.readyTasks, kernel.taskWakeUpTimes, kernel.registered
    {
      kernel.Valid() && QueueIs(waitingQueue, kernel, queue)
    }

    ghost function Core(): SemCore
      reads this
    {
      SemCore(count, maxCount)
    }

    constructor (k: Kernel, maximum: nat, initialCount: nat)
      requires k.Valid()
      ensures kernel == k && Valid() && queue == [] && Core() == SemCore(initialCount, maximum)
      ensures fresh(waitingQueue) && fresh(waitingQueue.buffer)
    {
      kernel, maxCount, count, queue := k, maximum, initialCount, [];
      var f := NewQueue(k);
      waitingQueue := f;
    }

    /** The critical section of wait, with the deadline read before it. */
    method WaitSection(ticksTimeout: nat, end: nat) returns (r: WaitEnd)
      requires Valid()
      modifies this`count, this`queue
      modifies waitingQueue`tail, waitingQueue`size, waitingQueue`written, waitingQueue.buffer
      modifies kernel`priorityBitmap, kernel`model, kernel.readyTasks, kernel.currentTask`state
      ensures Valid()
      ensures (kernel.model, Core(), queue, r) ==
              SemWait(old(kernel.model), old(Core()), old(queue), ticksTimeout, end)
      ensures r == Took <==> old(count) > 0
      ensures r == GaveUp <==>
        old(count) == 0 && (ticksTimeout == 0 || (ticksTimeout != WAIT_FOREVER && old(kernel.tickCount) > end))
    {
      if count > 0 {
        count := count - 1;
        return Took;
      }
      if ticksTimeout == 0 {
        return GaveUp;
      }
      if ticksTimeout != WAIT_FOREVER {
        if kernel.tickCount > end {
          return GaveUp;
        }
      }
      BlockCurrent(waitingQueue, kernel, queue);
      queue := Enqueued(queue, kernel.model.current);
      r := Joined;
    }

    /** wait, when no tick falls between reading the clock and the critical section.  A
        caller that joined the queue yields once and then returns Success; its
        state here is the one it leaves behind when it yields. */
    method Wait(ticksTimeout: nat, inISR: bool) returns (r: SemResult)
      requires Valid()
      modifies this`count, this`queue
      modifies waitingQueue`tail, waitingQueue`size, waitingQueue`written, waitingQueue.buffer
      modifies kernel`priorityBitmap, kernel`model, kernel.readyTasks, kernel.currentTask`state
      ensures Valid()
      ensures inISR ==> r == SemResult.ErrorCalledFromISR && kernel.model == old(kernel.model)
                        && Core() == old(Core()) && queue == old(queue)
      ensures !inISR ==>
        var s := SemWait(old(kernel.model), old(Core()), old(queue), ticksTimeout,
                         old(kernel.model).ticks + ticksTimeout);
        && (kernel.model, Core(), queue) == (s.0, s.1, s.2)
        && r == if s.3 == GaveUp then SemResult.Timeout else SemResult.Success
      ensures r == SemResult.ErrorCalledFromISR <==> inISR
      ensures r == SemResult.Timeout <==> !inISR && old(count) == 0 && ticksTimeout == 0
      ensures r == SemResult.Success <==> !inISR && (old(count) > 0 || ticksTimeout != 0)
      ensures r == SemResult.Success && old(count) == 0 ==> kernel.currentTask.state == Blocked
    {
      if inISR {
        return SemResult.ErrorCalledFromISR;
      }
      var end := ticksTimeout + kernel.tickCount;
      var s := WaitSection(ticksTimeout, end);
      r := if s == GaveUp then SemResult.Timeout else SemResult.Success;
    }

    /** The first waiter gets the signal. */
    method HandOver()
      requires Valid() && queue != []
      modifies this`queue, waitingQueue`head, waitingQueue`size
      modifies kernel`priorityBitmap, kernel`model, kernel.readyTasks, kernel.registered`state
      ensures Valid() && queue == old(queue)[1..] && old(queue)[0] < |old(kernel.model).tasks|
      ensures kernel.model == SetReady(old(kernel.model), old(queue)[0])
    {
      var taskToUnblock := WakeFirst(waitingQueue, kernel, queue);
      queue := queue[1..];
    }

    /** The critical section of signal. */
    method SignalSection()
      requires Valid()
      modifies this`count, this`queue, waitingQueue`head, waitingQueue`size
      modifies kernel`priorityBitmap, kernel`model, kernel.readyTasks, kernel.registered`state
      ensures Valid()
      ensures (kernel.model, Core(), queue) == SemSignal(old(kernel.model), old(Core()), old(queue))
    {
      if waitingQueue.size != 0 {
        HandOver();
      } else if count < maxCount {
        count := count + 1;
      }
    }

    /** The caller stays ready across the yield that follows.  This is outside the critical
        section of the signal; here nothing interrupts it. */
    method ReadySelf()
      requires Valid()
      modifies kernel`priorityBitmap, kernel`model, kernel.readyTasks, kernel.currentTask`state
      ensures Valid()
      ensures kernel.model == SetReady(old(kernel.model), old(kernel.model).current)
    {
      var task := kernel.currentTask;
      assert task in kernel.registered;
      kernel.SetTaskReady(task);
    }

    /** signal, from a task or from an interrupt. */
    method Signal(inISR: bool)
      requires Valid()
      modifies this`count, this`queue, waitingQueue`head, waitingQueue`size
      modifies kernel`priorityBitmap, kernel`model, kernel.readyTasks, kernel.registered`state
      ensures Valid()
      ensures var s := SemSignal(old(kernel.model), old(Core()), old(queue));
        && (Core(), queue) == (s.1, s.2)
        && kernel.model == if inISR then s.0 else SetReady(s.0, s.0.current)
    {
      SignalSection();
      if !inISR {
        ReadySelf();
      }
    }

    /** The critical section of flush: every waiter is woken, in order. */
    method FlushSection() returns (any: bool)
      requires Valid()
      modifies this`queue, waitingQueue`head, waitingQueue`size
      modifies kernel`priorityBitmap, kernel`model, kernel.readyTasks, kernel.registered`state
      ensures Valid() && queue == [] && (any <==> old(queue) != [])
      ensures Registered(old(kernel.model), old(queue)) && kernel.model == WakeEach(old(kernel.model), old(queue))
    {
      any := WakeAll(waitingQueue, kernel, queue);
      queue := [];
    }

    method Flush(inISR: bool)
      requires Valid()
      modifies this`queue, waitingQueue`head, waitingQueue`size
      modifies kernel`priorityBitmap, kernel`model, kernel.readyTasks, kernel.registered`state
      ensures Valid() && queue == [] && Core() == old(Core())
      ensures Registered(old(kernel.model), old(queue))
      ensures var k := WakeEach(old(kernel.model), old(queue));
        kernel.model == if old(queue) != [] && !inISR then SetReady(k, k.current) else k
    {
      var any := FlushSection();
      ghost var k := kernel.model;
      assert k == WakeEach(old(kernel.model), old(queue));
      if any && !inISR {
        ReadySelf();
        assert kernel.model == SetReady(k, k.current);
      }
    }
  }
}
