/** Task states, priorities and the per-task record (Include/Task.hpp). */
module Tasks {

  const MAX_TASKS := 32
  const LEVELS := 16
  const PRIORITY_IDLE := 15

  datatype TaskState = Ready | Running | Blocked | Suspended | Sleeping

  /** The value of one task record: what the kernel and the blocking primitives read. */
  datatype TaskRec = TaskRec(priority: nat, basePriority: nat, flags: nat, state: TaskState)

  /** The overloaded operator > on priorities: a smaller number is a higher priority. */
  predicate Higher(a: nat, b: nat) {
    a < b
  }

  /** The overloaded operator < on priorities. */
  predicate Lower(a: nat, b: nat) {
    a > b
  }

  class TaskData {
    var id: nat
    var priority: nat
    var basePriority: nat
    var flagsToWaitFor: nat
    var state: TaskState

    ghost function Rec(): TaskRec
      reads this
    {
      TaskRec(priority, basePriority, flagsToWaitFor, state)
    }

    constructor ()
      ensures id == 0 && Rec() == TaskRec(PRIORITY_IDLE, PRIORITY_IDLE, 0, Ready)
    {
      id, flagsToWaitFor := 0, 0;
      priority, basePriority := PRIORITY_IDLE, PRIORITY_IDLE;
      state := Ready;
    }

    /** Overwrites the base priority too, so nothing remembers the old one.  A value
        below idle is stored as the base only. */
    method SetPriority(prio: nat)
      modifies this`priority, this`basePriority
      ensures priority == (if prio > PRIORITY_IDLE then PRIORITY_IDLE else prio)
      ensures basePriority == prio
    {
      if Lower(prio, PRIORITY_IDLE) {
        priority := PRIORITY_IDLE;
        basePriority := prio;
      } else {
        priority := prio;
        basePriority := prio;
      }
    }

    method ResetPriority()
      modifies this`priority
      ensures priority == basePriority
    {
      priority := basePriority;
    }
  }
}
