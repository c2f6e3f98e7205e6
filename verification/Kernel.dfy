/** The kernel over its arrays and bit words (Include/Kernel.hpp, Source/Kernel.cpp).
    Every method is proved to do to the words what Scheduling says it does to the
    kernel state `model`. */
module Kernels {
  import opened Tasks
  import opened Words
  import opened Scheduling
  import SchedulingProofs

  class Kernel {
    const tasks: array<TaskData?>
    const readyTasks: array<nat>
    const taskWakeUpTimes: array<nat>
    var priorityBitmap: nat
    var sleepingTasksBitmap: nat
    var currentTask: TaskData
    var highestTaskPriority: nat
    var taskCount: nat
    var tickCount: nat

    /** The state the fields stand for, and the task objects registered so far. */
    ghost var model: KState
    ghost var registered: set<TaskData>

    ghost predicate Valid()
      reads this, tasks, readyTasks, taskWakeUpTimes, registered
    {
      && readyTasks != taskWakeUpTimes
      && Shape(model)
      && TableIs(model.tasks)
      && currentTask == tasks[model.current]
      && highestTaskPriority == model.highest && tickCount == model.ticks
      && WordsAre(model.ready, model.levels)
      && SleepIs(model.sleeping, model.wake)
    }

    /** The task table holds exactly the registered tasks, each in the slot of its id
        and with the given record. */
    ghost predicate TableIs(recs: seq<TaskRec>)
      reads this`taskCount, this`registered, tasks, registered
    {
      && tasks.Length == MAX_TASKS && taskCount == |recs| <= MAX_TASKS
      && (forall i | 0 <= i < taskCount ::
            tasks[i] != null && tasks[i] in registered && tasks[i].id == i && tasks[i].Rec() == recs[i])
      && (forall i | taskCount <= i < MAX_TASKS :: tasks[i] == null)
      && (forall t | t in registered :: t.id < taskCount && tasks[t.id] == t)
    }

    /** The ready words and the bitmap of levels hold the given bits. */
    ghost predicate WordsAre(ready: seq<set<nat>>, levels: set<nat>)
      reads this`priorityBitmap, readyTasks
    {
      && |ready| == LEVELS
      && WordsOf(readyTasks[..], WIDTH32, ready)
      && WordOf(priorityBitmap, WIDTH32, levels)
    }

    /** The word of sleeping tasks and the wake-up times are the given ones. */
    ghost predicate SleepIs(sleeping: set<nat>, wake: seq<nat>)
      reads this`sleepingTasksBitmap, taskWakeUpTimes
    {
      && |wake| == MAX_TASKS
      && WordOf(sleepingTasksBitmap, WIDTH64, sleeping)
      && taskWakeUpTimes[..] == wake
    }

    /** Registers the idle task as task 0 and makes it current. */
    constructor ()
      ensures Valid() && model == Boot()
      ensures fresh(tasks) && fresh(readyTasks) && fresh(taskWakeUpTimes) && fresh(registered)
    {
      tasks := new TaskData?[MAX_TASKS](_ => null);
      readyTasks := new nat[LEVELS](_ => 0);
      taskWakeUpTimes := new nat[MAX_TASKS](_ => 0);
      priorityBitmap, sleepingTasksBitmap, tickCount := 0, 0, 0;
      highestTaskPriority, taskCount := PRIORITY_IDLE, 0;
      var idleTask := new TaskData();
      currentTask := idleTask;
      registered := {};
      model := Boot();
      new;
      AddIdle(idleTask);
    }

    /** The idle task becomes task 0 of a kernel that is otherwise all zeros. */
    method AddIdle(idleTask: TaskData)
      requires TableIs([]) && registered == {} && idleTask.Rec() == Boot().tasks[0]
      requires readyTasks.Length == LEVELS && taskWakeUpTimes.Length == MAX_TASKS
      requires readyTasks != taskWakeUpTimes && priorityBitmap == 0 && sleepingTasksBitmap == 0
      requires forall l | 0 <= l < LEVELS :: readyTasks[l] == 0
      requires forall i | 0 <= i < MAX_TASKS :: taskWakeUpTimes[i] == 0
      requires highestTaskPriority == PRIORITY_IDLE && tickCount == 0 && currentTask == idleTask && model == Boot()
      modifies this`taskCount, this`registered, tasks, readyTasks, idleTask`id
      ensures Valid() && registered == {idleTask}
    {
      assert Shape(model) by { SchedulingProofs.BootKeeps(); }
      BootWords();
      EnterTable(idleTask, []);
      assert [] + [idleTask.Rec()] == Boot().tasks;
    }

    /** The words of a kernel with nothing but the idle task, from all zeros. */
    method BootWords()
      requires tasks.Length == MAX_TASKS && readyTasks.Length == LEVELS && taskWakeUpTimes.Length == MAX_TASKS
      requires readyTasks != taskWakeUpTimes && priorityBitmap == 0 && sleepingTasksBitmap == 0
      requires forall l | 0 <= l < LEVELS :: readyTasks[l] == 0
      requires forall i | 0 <= i < MAX_TASKS :: taskWakeUpTimes[i] == 0
      modifies readyTasks
      ensures WordsAre(Boot().ready, Boot().levels) && SleepIs(Boot().sleeping, Boot().wake)
    {
      ZeroWords(readyTasks[..], WIDTH32);
      ZeroWords([], WIDTH64);
      assert taskWakeUpTimes[..] == Boot().wake;
      MarkBit(PRIORITY_IDLE, 0, NoneReady(), {});
      assert NoneReady()[PRIORITY_IDLE] + {0} == {0};
    }

    /** readyTasks[prio] |= 1 << id. */
    method MarkBit(prio: nat, id: nat, ghost ready: seq<set<nat>>, ghost levels: set<nat>)
      requires WordsAre(ready, levels) && prio < LEVELS && id < MAX_TASKS
      modifies readyTasks
      ensures WordsAre(ready[prio := ready[prio] + {id}], levels)
    {
      ghost var words := readyTasks[..];
      SetBitIn(words, WIDTH32, ready, prio, id);
      readyTasks[prio] := Or(readyTasks[prio], Mask(id));
      assert readyTasks[..] == words[prio := Or(words[prio], Mask(id))];
    }

    /** MarkBit, and the level is marked non-empty. */
    method MarkReady(prio: nat, id: nat, ghost ready: seq<set<nat>>, ghost levels: set<nat>)
      requires WordsAre(ready, levels) && prio < LEVELS && id < MAX_TASKS
      modifies this`priorityBitmap, readyTasks
      ensures WordsAre(ready[prio := ready[prio] + {id}], levels + {prio})
    {
      MarkBit(prio, id, ready, levels);
      SetBitOf(priorityBitmap, WIDTH32, levels, prio);
      priorityBitmap := Or(priorityBitmap, Mask(prio));
    }

    /** readyTasks[prio] &= ~(1 << id), and a level that became empty is unmarked. */
    method ClearReady(prio: nat, id: nat, ghost ready: seq<set<nat>>, ghost levels: set<nat>)
      requires WordsAre(ready, levels) && prio < LEVELS && id < MAX_TASKS
      modifies this`priorityBitmap, readyTasks
      ensures var bits := ready[prio] - {id};
        WordsAre(ready[prio := bits], if bits == {} then levels - {prio} else levels)
    {
      ghost var words := readyTasks[..];
      ClearBitIn(words, WIDTH32, ready, prio, id);
      readyTasks[prio] := And(readyTasks[prio], Not(Mask(id), WIDTH32));
      assert readyTasks[..] == words[prio := And(words[prio], Not(Mask(id), WIDTH32))];
      if readyTasks[prio] == 0 {
        ClearBitOf(priorityBitmap, WIDTH32, levels, prio);
        priorityBitmap := And(priorityBitmap, Not(Mask(prio), WIDTH32));
      }
    }

    /** The setter of TaskData, seen from the table. */
    method SetState(t: TaskData, s: TaskState, ghost recs: seq<TaskRec>)
      requires TableIs(recs) && t in registered
      modifies t`state
      ensures TableIs(recs[t.id := recs[t.id].(state := s)])
    {
      t.state := s;
    }

    /** Uninterrupted: most callers are inside a critical section.  A task that readies
        itself after a signal or a flush is not, and Systems takes its accesses apart. */
    method SetTaskReady(t: TaskData?)
      requires Valid() && (t != null ==> t in registered)
      modifies this`priorityBitmap, this`model, readyTasks, (if t == null then {} else {t})`state
      ensures Valid()
      ensures model == if t == null then old(model) else SetReady(old(model), t.id)
    {
      if t != null {
        ghost var k := model;
        SetState(t, Ready, k.tasks);
        var prio := t.priority;
        assert GoodPriority(k.tasks[t.id], k.highest);
        if prio < readyTasks.Length {
          MarkReady(prio, t.id, k.ready, k.levels);
        }
        SchedulingProofs.SetReadyShape(k, t.id);
        model := SetReady(k, t.id);
      }
    }

    /** The next free slot of the table takes the task, which gets the slot as its id. */
    method EnterTable(t: TaskData, ghost recs: seq<TaskRec>)
      requires TableIs(recs) && taskCount < MAX_TASKS && t !in registered
      modifies this`taskCount, this`registered, tasks, t`id
      ensures TableIs(recs + [t.Rec()]) && t.Rec() == old(t.Rec())
      ensures t.id == |recs| && registered == old(registered) + {t}
      ensures forall i | 0 <= i < |recs| :: tasks[i] == old(tasks[i])
    {
      t.id := taskCount;
      tasks[taskCount] := t;
      taskCount := taskCount + 1;
      registered := registered + {t};
    }

    /** Registers a task under the next free id, while there is one. */
    method AddTask(t: TaskData)
      requires Valid() && t !in registered
      requires t.priority <= PRIORITY_IDLE && t.basePriority == t.priority
      modifies this`taskCount, this`highestTaskPriority, this`model, this`registered
      modifies tasks, readyTasks, t`id
      ensures Valid() && t.Rec() == old(t.Rec())
      ensures model == Scheduling.AddTask(old(model), t.Rec())
      ensures registered == if old(taskCount) < MAX_TASKS then old(registered) + {t} else old(registered)
    {
      if taskCount < MAX_TASKS {
        ghost var k := model;
        EnterTable(t, k.tasks);
        var priority := t.priority;
        if Higher(priority, highestTaskPriority) {
          highestTaskPriority := priority;
        }
        if priority < readyTasks.Length {
          MarkBit(priority, t.id, k.ready, k.levels);
        }
        SchedulingProofs.AddTaskShape(k, t.Rec());
        model := Scheduling.AddTask(k, t.Rec());
      }
    }

    /** Only clears the bit of a task that is currently in the ready state. */
    method ClearIfReady(t: TaskData, ghost newState: TaskState)
      requires Valid() && t in registered
      modifies this`priorityBitmap, readyTasks
      ensures var k := ResetReady(model, t.id, newState);
        && WordsAre(k.ready, k.levels) && k.tasks == model.tasks[t.id := model.tasks[t.id].(state := newState)]
    {
      assert GoodPriority(model.tasks[t.id], model.highest);
      if t.state == Ready {
        var prio := t.priority;
        if prio < readyTasks.Length {
          ClearReady(prio, t.id, model.ready, model.levels);
        }
      }
    }

    method ResetTaskReady(t: TaskData?, newState: TaskState)
      requires Valid() && (t != null ==> t in registered)
      modifies this`priorityBitmap, this`model, readyTasks, (if t == null then {} else {t})`state
      ensures Valid()
      ensures model == if t == null then old(model) else ResetReady(old(model), t.id, newState)
    {
      if t != null {
        ghost var k := model;
        ClearIfReady(t, newState);
        SetState(t, newState, k.tasks);
        SchedulingProofs.ResetReadyShape(k, t.id, newState);
        model := ResetReady(k, t.id, newState);
      }
    }

    /** sleepingTasksBitmap |= 1ULL << id, with the wake-up time and the state of the task. */
    method MarkSleeping(t: TaskData, time: nat,
                        ghost recs: seq<TaskRec>, ghost sleeping: set<nat>, ghost wake: seq<nat>)
      requires TableIs(recs) && t in registered && SleepIs(sleeping, wake)
      modifies this`sleepingTasksBitmap, taskWakeUpTimes, t`state
      ensures SleepIs(sleeping + {t.id}, wake[t.id := time])
      ensures TableIs(recs[t.id := recs[t.id].(state := Sleeping)])
    {
      SetBitOf(sleepingTasksBitmap, WIDTH64, sleeping, t.id);
      sleepingTasksBitmap := Or(sleepingTasksBitmap, Mask(t.id));
      taskWakeUpTimes[t.id] := time;
      SetState(t, Sleeping, recs);
    }

    /** sleepingTasksBitmap &= ~(1ULL << id). */
    method ClearSleeping(id: nat, ghost sleeping: set<nat>, ghost wake: seq<nat>)
      requires SleepIs(sleeping, wake) && id < MAX_TASKS
      modifies this`sleepingTasksBitmap
      ensures SleepIs(sleeping - {id}, wake)
    {
      ClearBitOf(sleepingTasksBitmap, WIDTH64, sleeping, id);
      sleepingTasksBitmap := And(sleepingTasksBitmap, Not(Mask(id), WIDTH64));
    }

    method AddSleepingTask(t: TaskData, ticks: nat)
      requires Valid() && t in registered
      modifies this`sleepingTasksBitmap, this`model, taskWakeUpTimes, t`state
      ensures Valid()
      ensures model == AddSleeping(old(model), t.id, ticks)
    {
      ghost var k := model;
      SchedulingProofs.AddSleepingShape(k, t.id, ticks);
      MarkSleeping(t, tickCount + ticks, k.tasks, k.sleeping, k.wake);
      model := AddSleeping(k, t.id, ticks);
    }

    /** A runner that loses the processor is ready again at once. */
    method PreemptCurrent()
      requires Valid()
      modifies this`priorityBitmap, this`model, readyTasks, currentTask`state
      ensures Valid() && model == PutBack(old(model))
    {
      if currentTask.state == Running {
        SetTaskReady(currentTask);
      }
    }

    /** Runs task countTask, found at level countPrio, and clears its ready bit. */
    method DispatchTask(countPrio: nat, countTask: nat)
      requires Valid() && countPrio < PRIORITY_IDLE && ReadyAt(model, countTask, countPrio)
      modifies this`priorityBitmap, this`model, this`currentTask, readyTasks, registered`state
      ensures Valid() && model == Dispatch(old(model), countPrio, countTask)
    {
      ghost var k := model;
      var ptrTaskData := tasks[countTask];
      SetState(ptrTaskData, Running, k.tasks);
      currentTask := ptrTaskData;
      ClearReady(countPrio, countTask, k.ready, k.levels);
      SchedulingProofs.DispatchShape(k, countPrio, countTask);
      model := Dispatch(k, countPrio, countTask);
    }

    /** The old runner goes back first, so it may be picked again later but not now. */
    method SwitchTo(countPrio: nat, countTask: nat)
      requires Valid() && countPrio < PRIORITY_IDLE && ReadyAt(model, countTask, countPrio)
      modifies this`priorityBitmap, this`model, this`currentTask, readyTasks, registered`state
      ensures Valid() && model == Switch(old(model), countPrio, countTask)
    {
      assert ReadyAt(PutBack(model), countTask, countPrio);
      PreemptCurrent();
      DispatchTask(countPrio, countTask);
    }

    /** The inner loop of selection: shifts one level's word down, looking for the
        first set bit. */
    method FirstBit(countPrio: nat) returns (found: bool, countTask: nat)
      requires Valid() && countPrio < LEVELS
      ensures found ==> countTask in model.ready[countPrio] &&
                        forall t | t in model.ready[countPrio] :: countTask <= t
      ensures !found ==> model.ready[countPrio] == {}
    {
      var taskBitList := readyTasks[countPrio];
      ghost var word, bits := taskBitList, model.ready[countPrio];
      assert WordOf(word, WIDTH32, bits);
      countTask := 0;
      while taskBitList != 0
        invariant countTask <= WIDTH32 && taskBitList == Shr(word, countTask)
        invariant forall t | t in bits :: countTask <= t
        decreases WIDTH32 - countTask
      {
        ScanBit(word, countTask, WIDTH32);
        if And(taskBitList, 1) != 0 {
          return true, countTask;
        }
        taskBitList := taskBitList / 2;
        countTask := countTask + 1;
      }
      ScanBit(word, countTask, WIDTH32);
      found := false;
    }

    /** Scans the levels from the highest registered priority down to just before idle;
        the first bit found is the one selected. */
    method SelectHighestPriorityTask()
      requires Valid()
      modifies this`priorityBitmap, this`model, this`currentTask, readyTasks, registered`state
      ensures Valid()
      ensures model == Select(old(model))
    {
      ghost var k := model;
      var countPrio := highestTaskPriority;
      while countPrio < PRIORITY_IDLE
        invariant Valid() && model == k && k.highest <= countPrio <= PRIORITY_IDLE
        invariant forall l | 0 <= l < countPrio :: k.ready[l] == {}
      {
        var found, countTask := FirstBit(countPrio);
        if found {
          SchedulingProofs.SelectIs(k, countPrio, countTask);
          SwitchTo(countPrio, countTask);
          return;
        }
        countPrio := countPrio + 1;
      }
      SchedulingProofs.SelectStalls(k);
    }

    /** The port's part of the tick interrupt. */
    method IncrementTickCount()
      requires Valid()
      modifies this`tickCount, this`model
      ensures Valid() && model == old(model).(ticks := old(model).ticks + 1)
    {
      tickCount := tickCount + 1;
      model := model.(ticks := model.ticks + 1);
    }

    /** One round of the wake-up loop: wakes task i if it sleeps and its time has come. */
    method WakeIfDue(i: nat)
      requires Valid() && i < MAX_TASKS
      modifies this`priorityBitmap, this`sleepingTasksBitmap, this`model, readyTasks, registered`state
      ensures Valid()
      ensures model == Scheduling.WakeIfDue(old(model), i)
    {
      TestBit(sleepingTasksBitmap, i, WIDTH64);
      if And(sleepingTasksBitmap, Mask(i)) != 0 && taskWakeUpTimes[i] <= tickCount {
        var task := tasks[i];
        SetTaskReady(task);
        ClearSleeping(i, model.sleeping, model.wake);
        model := model.(sleeping := model.sleeping - {i});
      }
    }

    /** The wake-up loop of the tick wakes exactly the tasks whose time has come. */
    method Tick()
      requires Valid()
      modifies this`priorityBitmap, this`sleepingTasksBitmap, this`model, readyTasks, registered`state
      ensures Valid()
      ensures model == Scheduling.Tick(old(model))
    {
      ghost var k := model;
      for i := 0 to MAX_TASKS
        invariant Valid() && model == WakeBelow(k, i)
      {
        assert WakeBelow(k, i + 1) == Scheduling.WakeIfDue(WakeBelow(k, i), i);
        WakeIfDue(i);
      }
      SchedulingProofs.WakeLoopIsTick(k);
    }
  }
}
