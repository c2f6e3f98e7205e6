/** What each kernel operation does to states, ready bits and level marks, said bit by bit
    and independently of how the operations are defined (Source/Kernel.cpp). */
module KernelEffects {
  import opened Tasks
  import opened Scheduling
  import opened SchedulingProofs

  /** Exactly the ready bit of task t at level l may differ, and it is now as given. */
  ghost predicate OneBit(k: KState, k': KState, t: nat, l: nat, isSet: bool) {
    && |k'.ready| == |k.ready|
    && forall u: nat, m: nat :: ReadyAt(k', u, m) <==> if u == t && m == l then isSet else ReadyAt(k, u, m)
  }

  /** All other fields are as before. */
  ghost predicate RestAsBefore(k: KState, k': KState) {
    && k'.sleeping == k.sleeping && k'.wake == k.wake && k'.highest == k.highest && k'.ticks == k.ticks
  }

  /** Task t alone has changed, in its state alone. */
  ghost predicate OneState(k: KState, k': KState, t: nat, s: TaskState) {
    && |k'.tasks| == |k.tasks|
    && forall u | 0 <= u < |k.tasks| ::
         k'.tasks[u] == if u == t then k.tasks[u].(state := s) else k.tasks[u]
  }

  /** Level l alone may have changed its mark. */
  ghost predicate OneMark(k: KState, k': KState, l: nat, marked: bool) {
    forall m: nat :: m in k'.levels <==> if m == l then marked else m in k.levels
  }

  /** Waking a task sets its bit and the mark of its level. */
  lemma ReadyEffect(k: KState, t: nat)
    requires Shape(k) && t < |k.tasks|
    ensures var k', p := SetReady(k, t), k.tasks[t].priority;
      && OneState(k, k', t, Ready) && OneBit(k, k', t, p, true) && OneMark(k, k', p, true)
      && RestAsBefore(k, k') && k'.current == k.current
  {
    assert GoodPriority(k.tasks[t], k.highest);
  }

  /** A ready task that stops being ready loses the bit at its priority, and the mark of that
      level if nobody else is ready there; its other bits, and those of a task in any other
      state, stay. */
  lemma ResetEffect(k: KState, t: nat, s: TaskState)
    requires Shape(k) && t < |k.tasks|
    ensures var k', p := ResetReady(k, t, s), k.tasks[t].priority;
      && OneState(k, k', t, s) && RestAsBefore(k, k') && k'.current == k.current
      && (if k.tasks[t].state.Ready?
          then
            && OneBit(k, k', t, p, false)
            && OneMark(k, k', p, p in k.levels && exists u: nat :: u != t && ReadyAt(k, u, p))
          else k'.ready == k.ready && k'.levels == k.levels)
  {
    var k', p := ResetReady(k, t, s), k.tasks[t].priority;
    assert GoodPriority(k.tasks[t], k.highest);
    if k.tasks[t].state.Ready? {
      assert k'.ready[p] == k.ready[p] - {t};
      if k'.ready[p] != {} {
        var u :| u in k'.ready[p];
        assert u != t && ReadyAt(k, u, p);
      }
    }
  }

  /** So a ready task with its bit at its priority is not ready afterwards in any way, and its
      level keeps its mark exactly while somebody else is ready there. */
  lemma ResetTakesAway(k: KState, t: nat, s: TaskState)
    requires KInv(k) && t < |k.tasks| && ReadyAt(k, t, k.tasks[t].priority)
    ensures var k', p := ResetReady(k, t, s), k.tasks[t].priority;
      && k'.tasks[t].state == s && !HasReadyBit(k', t)
      && (forall u: nat, m: nat | u != t :: ReadyAt(k', u, m) <==> ReadyAt(k, u, m))
      && p < |k'.ready| && (p in k'.levels <==> p in k.levels && k'.ready[p] != {})
  {
    var k', p := ResetReady(k, t, s), k.tasks[t].priority;
    ResetEffect(k, t, s);
    assert ReadyAt(k, t, p) && k.tasks[t].state.Ready?;
    forall u: nat
      ensures u in k'.ready[p] <==> u != t && ReadyAt(k, u, p)
    {
      assert ReadyAt(k', u, p) <==> u in k'.ready[p];
    }
  }

  /** A ready task boosted since it became ready keeps the bit it has, which lies lower. */
  lemma ResetMissesBoosted(k: KState, t: nat, s: TaskState, l: nat)
    requires KInv(k) && t < |k.tasks| && ReadyAt(k, t, l) && l != k.tasks[t].priority
    ensures ReadyAt(ResetReady(k, t, s), t, l) && ResetReady(k, t, s).tasks[t].state == s
  {
    ResetEffect(k, t, s);
  }

  /** Registering: the record under the next free id, a bit at its priority, no mark, and the
      highest priority so far. */
  lemma AddEffect(k: KState, r: TaskRec)
    requires Shape(k) && r.priority <= PRIORITY_IDLE && |k.tasks| < MAX_TASKS
    ensures var k', t := AddTask(k, r), |k.tasks|;
      && k'.tasks == k.tasks + [r] && OneBit(k, k', t, r.priority, true) && k'.levels == k.levels
      && k'.sleeping == k.sleeping && k'.wake == k.wake && k'.ticks == k.ticks && k'.current == k.current
      && (k'.highest == r.priority || k'.highest == k.highest)
      && k'.highest <= r.priority && k'.highest <= k.highest
  {}

  /** A full table ignores it. */
  lemma AddIgnored(k: KState, r: TaskRec)
    requires Shape(k) && r.priority <= PRIORITY_IDLE && |k.tasks| >= MAX_TASKS
    ensures AddTask(k, r) == k
  {}

  /** A selection: the previous runner, if it still runs, gets its bit and mark; the picked
      task runs without the bit it was found by, and its level keeps its mark exactly while
      somebody else is ready there. */
  lemma SelectEffect(k: KState, l: nat, i: nat)
    requires Shape(k) && IsBest(k, l, i)
    ensures var k', c := Select(k), k.current; var p, runs := k.tasks[c].priority, k.tasks[c].state.Running?;
      && k'.current == i && |k'.tasks| == |k.tasks| && |k'.ready| == |k.ready| && RestAsBefore(k, k')
      && (forall u | 0 <= u < |k.tasks| ::
            k'.tasks[u] == k.tasks[u].(state := if u == i then Running
                                                else if u == c && runs then Ready else k.tasks[u].state))
      && (forall u: nat, m: nat ::
            ReadyAt(k', u, m) <==> (ReadyAt(k, u, m) || (runs && u == c && m == p)) && !(u == i && m == l))
      && (forall m: nat ::
            m in k'.levels <==>
            (m in k.levels || (runs && m == p)) && (m == l ==> exists u: nat :: ReadyAt(k', u, m)))
  {
    SelectIs(k, l, i);
    assert ReadyAt(k, i, l);
    var k1 := PutBack(k);
    if k.tasks[k.current].state.Running? {
      ReadyEffect(k, k.current);
      SetReadyShape(k, k.current);
    }
    DispatchEffect(k1, l, i);
  }

  lemma DispatchEffect(k: KState, l: nat, i: nat)
    requires Shape(k) && l < LEVELS && i < |k.tasks|
    ensures var k' := Dispatch(k, l, i);
      && OneState(k, k', i, Running) && OneBit(k, k', i, l, false) && RestAsBefore(k, k') && k'.current == i
      && OneMark(k, k', l, l in k.levels && exists u: nat :: ReadyAt(k', u, l))
  {
    var k' := Dispatch(k, l, i);
    forall u: nat
      ensures u in k'.ready[l] <==> ReadyAt(k', u, l)
    {}
    if k'.ready[l] != {} {
      var u :| u in k'.ready[l];
      assert ReadyAt(k', u, l);
    }
  }

  /** A tick: the sleepers whose time has come, and nobody else, are ready and awake, each
      with its bit and the mark of its level. */
  lemma TickEffect(k: KState)
    requires Shape(k)
    ensures var k' := PortTick(k);
      && k'.ticks == k.ticks + 1 && k'.current == k.current && k'.highest == k.highest && k'.wake == k.wake
      && |k'.tasks| == |k.tasks| && |k'.ready| == |k.ready|
      && (forall t | 0 <= t < |k.tasks| ::
            k'.tasks[t] == if WakesNow(k, t) then k.tasks[t].(state := Ready) else k.tasks[t])
      && (forall t: nat :: t in k'.sleeping <==> t in k.sleeping && !WakesNow(k, t))
      && (forall t: nat, l: nat ::
            ReadyAt(k', t, l) <==> ReadyAt(k, t, l) || (WakesNow(k, t) && k.tasks[t].priority == l))
      && (forall l: nat ::
            l in k'.levels <==> l in k.levels || exists t: nat :: WakesNow(k, t) && k.tasks[t].priority == l)
  {
    var k1 := k.(ticks := k.ticks + 1);
    forall t: nat
      ensures t in Due(k1) <==> WakesNow(k, t)
      ensures WakesNow(k, t) ==> k.tasks[t].priority < LEVELS
    {
      if WakesNow(k, t) { assert GoodPriority(k.tasks[t], k.highest); }
    }
  }

  /** Task t sleeps and the next tick reaches its time. */
  ghost predicate WakesNow(k: KState, t: nat) {
    t < |k.tasks| && t < |k.wake| && t in k.sleeping && k.wake[t] <= k.ticks + 1
  }

  /** Falling asleep: the state, the sleep bit and the time, and nothing else. */
  lemma SleepEffect(k: KState, t: nat, n: nat)
    requires Shape(k) && t < |k.tasks|
    ensures var k' := AddSleeping(k, t, n);
      && OneState(k, k', t, Sleeping) && k'.sleeping == k.sleeping + {t}
      && |k'.wake| == |k.wake| && k'.wake[t] == k.ticks + n
      && (forall u | 0 <= u < |k.wake| && u != t :: k'.wake[u] == k.wake[u])
      && k'.ready == k.ready && k'.levels == k.levels && k'.current == k.current
      && k'.highest == k.highest && k'.ticks == k.ticks
  {}
}
