/** Every kernel operation keeps the kernel invariant, selection picks the one least
    ready pair and conserves the runnable tasks, and repeated selection alternates
    between the two best tasks. */
module SchedulingProofs {
  import opened Tasks
  import opened Scheduling

  // ------------------------------------------------------- operations keep the shape

  lemma BootKeeps()
    ensures KInv(Boot())
  {
    assert ReadyAt(Boot(), 0, PRIORITY_IDLE);
  }

  lemma SetReadyShape(k: KState, t: nat)
    requires Shape(k) && t < |k.tasks|
    ensures Shape(SetReady(k, t))
  {}

  lemma ResetReadyShape(k: KState, t: nat, s: TaskState)
    requires Shape(k) && t < |k.tasks|
    ensures Shape(ResetReady(k, t, s)) && Shape(SetState(k, t, s))
  {}

  lemma DispatchShape(k: KState, l: nat, i: nat)
    requires Shape(k) && l < LEVELS && i < |k.tasks|
    ensures Shape(Dispatch(k, l, i))
  {}

  lemma SetPriorityShape(k: KState, t: nat, p: nat)
    requires Shape(k) && t < |k.tasks| && k.highest <= p <= PRIORITY_IDLE
    ensures Shape(SetPriority(k, t, p))
  {}

  lemma AddSleepingShape(k: KState, t: nat, n: nat)
    requires Shape(k) && t < |k.tasks|
    ensures Shape(AddSleeping(k, t, n))
  {}

  lemma AddTaskShape(k: KState, r: TaskRec)
    requires Shape(k) && r.priority <= PRIORITY_IDLE && r.basePriority == r.priority
    ensures Shape(AddTask(k, r))
  {}

  lemma WakeShape(k: KState, d: set<nat>)
    requires Shape(k) && d <= k.sleeping
    ensures Shape(Wake(k, d))
  {}

  /** Waking a set one task at a time, as the loop of the tick does, is waking it at once. */
  lemma WakeOne(k: KState, d: set<nat>, t: nat)
    requires Shape(k) && d <= k.sleeping && t in k.sleeping && t !in d
    ensures Shape(Wake(k, d))
    ensures var k1 := SetReady(Wake(k, d), t);
      Wake(k, d + {t}) == k1.(sleeping := k1.sleeping - {t})
  {
    WakeShape(k, d);
    var k1, k2, p := SetReady(Wake(k, d), t), Wake(k, d + {t}), k.tasks[t].priority;
    forall u | 0 <= u < |k.tasks|
      ensures k2.tasks[u] == k1.tasks[u]
    {}
    assert k2.tasks == k1.tasks;
    forall l | 0 <= l < LEVELS
      ensures k2.ready[l] == k1.ready[l]
    {}
    assert k2.ready == k1.ready;
    forall l: nat
      ensures l in k2.levels <==> l in k1.levels
    {
      if l in k1.levels && l !in k.levels {
        if l != p {
          var u :| u in d && u < |k.tasks| && k.tasks[u].priority == l;
          assert u in d + {t};
        } else {
          assert t in d + {t};
        }
      }
    }
    assert k2.levels == k1.levels;
    assert k2.sleeping == k1.sleeping - {t};
  }

  lemma WakeNone(k: KState)
    requires Shape(k)
    ensures Wake(k, {}) == k
  {
    var k' := Wake(k, {});
    forall u | 0 <= u < |k.tasks|
      ensures k'.tasks[u] == k.tasks[u]
    {}
    forall l | 0 <= l < LEVELS
      ensures k'.ready[l] == k.ready[l]
    {}
    assert k'.tasks == k.tasks && k'.ready == k.ready;
  }

  /** One round of the loop of the tick: what is awake so far grows by task t if t is due. */
  lemma RoundWakes(k: KState, t: nat)
    requires Shape(k)
    ensures Shape(Wake(k, DueBelow(k, t)))
    ensures WakeIfDue(Wake(k, DueBelow(k, t)), t) == Wake(k, DueBelow(k, t + 1))
  {
    var d, e := DueBelow(k, t), DueBelow(k, t + 1);
    WakeShape(k, d);
    if t in Due(k) {
      assert e == d + {t};
      WakeOne(k, d, t);
    } else {
      assert e == d;
    }
  }

  /** The loop of the tick, round by round, wakes exactly the due tasks it has passed. */
  lemma {:induction false} WakeBelowIs(k: KState, i: nat)
    requires Shape(k)
    ensures WakeBelow(k, i) == Wake(k, DueBelow(k, i))
  {
    if i == 0 {
      assert DueBelow(k, 0) == {};
      WakeNone(k);
    } else {
      WakeBelowIs(k, i - 1);
      RoundWakes(k, i - 1);
    }
  }

  /** So the whole loop is the tick, which wakes all due tasks at once. */
  lemma WakeLoopIsTick(k: KState)
    requires Shape(k)
    ensures WakeBelow(k, MAX_TASKS) == Tick(k)
  {
    WakeBelowIs(k, MAX_TASKS);
    assert DueBelow(k, MAX_TASKS) == Due(k);
  }

  // --------------------------------------------------- operations keep the invariant

  /** Making a blocked or running task ready gives it exactly one ready bit. */
  lemma SetReadyKeeps(k: KState, t: nat)
    requires KInv(k) && t < |k.tasks|
    requires k.tasks[t].state.Blocked? || k.tasks[t].state.Running?
    ensures KInv(SetReady(k, t))
  {
    var k', p := SetReady(k, t), k.tasks[t].priority;
    assert ReadyAt(k', t, p);
    forall u | 0 <= u < |k'.tasks| && k'.tasks[u].state.Ready?
      ensures HasReadyBit(k', u)
    {
      if u != t {
        var l: nat :| ReadyAt(k, u, l);
        assert ReadyAt(k', u, l);
      }
    }
    forall u: nat, l: nat | ReadyAt(k', u, l)
      ensures ReadyAt(k, u, l) || (u == t && l == p)
    {}
    assert forall l: nat :: !ReadyAt(k, t, l);
  }

  /** A running task that blocks leaves the invariant. */
  lemma BlockKeeps(k: KState, t: nat)
    requires KInv(k) && t < |k.tasks| && k.tasks[t].state.Running?
    ensures KInv(SetState(k, t, Blocked)) && ResetReady(k, t, Blocked) == SetState(k, t, Blocked)
  {
    ReadyBitsKept(k, SetState(k, t, Blocked));
  }

  lemma ReadyBitsKept(k: KState, k': KState)
    requires k'.ready == k.ready
    ensures forall u: nat | HasReadyBit(k, u) :: HasReadyBit(k', u)
    ensures forall u: nat, l: nat :: ReadyAt(k', u, l) <==> ReadyAt(k, u, l)
  {
    forall u: nat | HasReadyBit(k, u)
      ensures HasReadyBit(k', u)
    {
      var l: nat :| ReadyAt(k, u, l);
      assert ReadyAt(k', u, l);
    }
  }

  lemma SleepKeeps(k: KState, t: nat, n: nat)
    requires KInv(k) && t < |k.tasks| && k.tasks[t].state.Running?
    ensures KInv(AddSleeping(k, t, n))
  {
    ReadyBitsKept(k, AddSleeping(k, t, n));
  }

  /** Raising a priority, as a mutex does for its owner, keeps the invariant: a ready
      bit may now lie below the new priority, never above it. */
  lemma BoostKeeps(k: KState, t: nat, p: nat)
    requires KInv(k) && t < |k.tasks| && k.highest <= p <= k.tasks[t].priority
    ensures KInv(SetPriority(k, t, p))
  {
    ReadyBitsKept(k, SetPriority(k, t, p));
  }

  lemma AddTaskKeeps(k: KState, r: TaskRec)
    requires KInv(k) && r.priority <= PRIORITY_IDLE && r.basePriority == r.priority && r.state.Ready?
    ensures KInv(AddTask(k, r))
  {
    var k' := AddTask(k, r);
    if |k.tasks| < MAX_TASKS {
      var n := |k.tasks|;
      assert ReadyAt(k', n, r.priority);
      forall u | 0 <= u < |k'.tasks| && k'.tasks[u].state.Ready?
        ensures HasReadyBit(k', u)
      {
        if u < n {
          var l: nat :| ReadyAt(k, u, l);
          assert ReadyAt(k', u, l);
        }
      }
      forall u: nat, l: nat | ReadyAt(k', u, l)
        ensures ReadyAt(k, u, l) || (u == n && l == r.priority)
      {}
      assert forall l: nat :: !ReadyAt(k, n, l);
    }
  }

  lemma WakeKeeps(k: KState, d: set<nat>)
    requires KInv(k) && d <= k.sleeping
    ensures KInv(Wake(k, d))
  {
    var k' := Wake(k, d);
    forall u: nat, l: nat | ReadyAt(k', u, l)
      ensures ReadyAt(k, u, l) || (u in d && l == k.tasks[u].priority)
    {}
    forall u | 0 <= u < |k'.tasks| && k'.tasks[u].state.Ready?
      ensures HasReadyBit(k', u)
    {
      if u in d {
        assert ReadyAt(k', u, k.tasks[u].priority);
      } else {
        var l: nat :| ReadyAt(k, u, l);
        assert ReadyAt(k', u, l);
      }
    }
  }

  lemma WakeDueKeeps(k: KState)
    requires KInv(k)
    ensures KInv(Tick(k))
  {
    WakeKeeps(k, Due(k));
  }

  lemma PortTickUnfolds(k: KState)
    requires Shape(k)
    ensures PortTick(k) == Tick(k.(ticks := k.ticks + 1))
  {}

  lemma TickKeeps(k: KState)
    requires KInv(k)
    ensures KInv(PortTick(k))
  {
    var k1 := k.(ticks := k.ticks + 1);
    TicksKeep(k, k.ticks + 1);
    PortTickUnfolds(k);
    WakeDueKeeps(k1);
    KInvOfEqual(Tick(k1), PortTick(k));
  }

  lemma KInvOfEqual(k: KState, k': KState)
    requires KInv(k) && k == k'
    ensures KInv(k')
  {}

  lemma TicksKeep(k: KState, n: nat)
    requires KInv(k)
    ensures KInv(k.(ticks := n))
  {
    ReadyBitsKept(k, k.(ticks := n));
  }

  // ------------------------------------------------------------------- selection

  /** There is at most one least pair, so selection is deterministic. */
  lemma BestUnique(k: KState, l: nat, i: nat, m: nat, j: nat)
    requires IsBest(k, l, i) && IsBest(k, m, j)
    ensures l == m && i == j
  {}

  /** The least number of a non-empty set. */
  lemma {:induction false} LeastOf(s: set<nat>) returns (x: nat)
    requires s != {}
    ensures x in s && forall y | y in s :: x <= y
  {
    var a :| a in s;
    var rest := s - {a};
    if rest == {} {
      x := a;
      assert forall y | y in s :: y == a by { assert forall y | y in s :: y != a ==> y in rest; }
    } else {
      var b := LeastOf(rest);
      x := if b < a then b else a;
      assert forall y | y in s :: y == a || y in rest;
    }
  }

  /** A ready bit at a level n below idle means there is a least pair. */
  lemma {:induction false} BestFrom(k: KState, m: nat, t: nat, n: nat) returns (l: nat, i: nat)
    requires Shape(k) && m <= n < PRIORITY_IDLE && ReadyAt(k, t, n)
    requires forall o | 0 <= o < m :: k.ready[o] == {}
    ensures IsBest(k, l, i)
    decreases PRIORITY_IDLE - m
  {
    if k.ready[m] == {} {
      l, i := BestFrom(k, m + 1, t, n);
    } else {
      l := m;
      i := LeastOf(k.ready[m]);
    }
  }

  /** A pair that is least is the one selected. */
  lemma SelectIs(k: KState, l: nat, i: nat)
    requires Shape(k) && IsBest(k, l, i)
    ensures Select(k) == Switch(k, l, i)
  {
    forall m: nat, j: nat | IsBest(k, m, j)
      ensures m == l && j == i
    {
      BestUnique(k, l, i, m, j);
    }
  }

  /** Selection runs the least ready pair of the levels below idle, if there is any. */
  lemma SelectPicks(k: KState) returns (l: nat, i: nat)
    requires Shape(k) && AnyReady(k)
    ensures IsBest(k, l, i) && i < |k.tasks| && l < LEVELS
    ensures Select(k) == Switch(k, l, i)
    ensures Select(k).current == i && Select(k).tasks[i].state.Running?
  {
    var t: nat, n: nat :| n < PRIORITY_IDLE && ReadyAt(k, t, n);
    l, i := BestFrom(k, 0, t, n);
    SelectIs(k, l, i);
  }

  /** With levels 0 to 14 empty selection changes nothing at all: the idle level is
      never looked at. */
  lemma SelectStalls(k: KState)
    requires Shape(k) && !AnyReady(k)
    ensures Select(k) == k
  {
    forall l: nat, i: nat
      ensures !IsBest(k, l, i)
    {}
  }

  lemma DispatchKeeps(k: KState, l: nat, i: nat)
    requires KInv(k) && l < PRIORITY_IDLE && ReadyAt(k, i, l)
    requires !k.tasks[k.current].state.Running?
    ensures KInv(Dispatch(k, l, i))
    ensures forall t :: Runnable(Dispatch(k, l, i), t) <==> Runnable(k, t)
  {
    var k' := Dispatch(k, l, i);
    forall u: nat, m: nat
      ensures ReadyAt(k', u, m) <==> ReadyAt(k, u, m) && u != i
    {
      if u == i && ReadyAt(k, i, m) { assert m == l; }
    }
    forall u: nat | u != i
      ensures HasReadyBit(k', u) <==> HasReadyBit(k, u)
    {
      if HasReadyBit(k, u) {
        var m: nat :| ReadyAt(k, u, m);
        assert ReadyAt(k', u, m);
      }
    }
  }

  lemma PutBackKeeps(k: KState)
    requires KInv(k)
    ensures KInv(PutBack(k)) && !PutBack(k).tasks[k.current].state.Running?
    ensures forall t, l :: ReadyAt(k, t, l) ==> ReadyAt(PutBack(k), t, l)
    ensures forall t :: Runnable(PutBack(k), t) <==> Runnable(k, t)
  {
    var k', c := PutBack(k), k.current;
    if k.tasks[c].state.Running? {
      SetReadyKeeps(k, c);
      assert ReadyAt(k', c, k.tasks[c].priority);
      forall t: nat
        ensures Runnable(k', t) <==> Runnable(k, t)
      {
        if t != c && HasReadyBit(k, t) {
          var l: nat :| ReadyAt(k, t, l);
          assert ReadyAt(k', t, l);
        }
      }
    }
  }

  /** Selection keeps the invariant and conserves the runnable tasks: the ready ones
      plus the running one are the same before and after. */
  lemma SelectKeeps(k: KState)
    requires KInv(k)
    ensures KInv(Select(k))
    ensures forall t :: Runnable(Select(k), t) <==> Runnable(k, t)
  {
    if AnyReady(k) {
      var l, i := SelectPicks(k);
      PutBackKeeps(k);
      assert ReadyAt(PutBack(k), i, l);
      DispatchKeeps(PutBack(k), l, i);
    } else {
      SelectStalls(k);
    }
  }

  // --------------------------------------------------------- two-best alternation

  ghost predicate IsRunning(k: KState, t: nat) {
    t == k.current && t < |k.tasks| && k.tasks[t].state.Running?
  }

  /** The level selection finds a runnable task at: that of its ready bit, which may lie
      below the priority of a task boosted while it was ready, or else its priority. */
  ghost function Level(k: KState, t: nat): nat
    requires t < |k.tasks|
  {
    if HasReadyBit(k, t) then
      var l: nat :| ReadyAt(k, t, l);
      l
    else k.tasks[t].priority
  }

  lemma LevelOfBit(k: KState, t: nat, l: nat)
    requires KInv(k) && ReadyAt(k, t, l)
    ensures t < |k.tasks| && Level(k, t) == l
  {
    assert HasReadyBit(k, t);
  }

  /** A runnable task that selection can ever pick. */
  ghost predicate Candidate(k: KState, t: nat) {
    Runnable(k, t) && Level(k, t) < PRIORITY_IDLE
  }

  /** Task t comes before task u in the order of (level, id). */
  ghost predicate Before(k: KState, t: nat, u: nat)
    requires t < |k.tasks| && u < |k.tasks|
  {
    Level(k, t) < Level(k, u) || (Level(k, t) == Level(k, u) && t < u)
  }

  /** a and b are the two best candidates. */
  ghost predicate TwoBest(k: KState, a: nat, b: nat) {
    && a != b && Candidate(k, a) && Candidate(k, b)
    && forall t | Candidate(k, t) && t != a && t != b :: Before(k, a, t) && Before(k, b, t)
  }

  /** b is the one of the two best that the next selection runs: the other one is
      running, or neither is and b comes first. */
  ghost predicate NextIs(k: KState, a: nat, b: nat) {
    && KInv(k) && TwoBest(k, a, b)
    && !IsRunning(k, b) && (IsRunning(k, a) || Before(k, b, a))
  }

  /** A switch to i leaves the level of every other runnable task alone and can only
      improve that of i, which may have been boosted while it was ready. */
  lemma LevelsAfterSwitch(k: KState, l: nat, i: nat, t: nat)
    requires KInv(k) && IsBest(k, l, i) && l < LEVELS && i < |k.tasks| && Runnable(k, t)
    requires KInv(Switch(k, l, i))
    ensures t < |Switch(k, l, i).tasks|
    ensures if t == i then Level(Switch(k, l, i), t) <= Level(k, t) else Level(Switch(k, l, i), t) == Level(k, t)
  {
    var k' := Switch(k, l, i);
    if t == i {
      LevelOfBit(k, i, l);
      assert k'.tasks[i].state.Running?;
    } else if HasReadyBit(k, t) {
      var m: nat :| ReadyAt(k, t, m);
      LevelOfBit(k, t, m);
      assert ReadyAt(k', t, m);
      LevelOfBit(k', t, m);
    } else {
      assert ReadyAt(k', t, k.tasks[t].priority);
      LevelOfBit(k', t, k.tasks[t].priority);
    }
  }

  /** The candidate b that is not running is picked when only a could come before it. */
  lemma PicksNext(k: KState, a: nat, b: nat) returns (l: nat)
    requires NextIs(k, a, b)
    ensures l < LEVELS && IsBest(k, l, b) && Select(k) == Switch(k, l, b)
  {
    assert HasReadyBit(k, b);
    var m: nat :| ReadyAt(k, b, m);
    LevelOfBit(k, b, m);
    var i: nat;
    l, i := SelectPicks(k);
    LevelOfBit(k, i, l);
    assert HasReadyBit(k, i) && Candidate(k, i);
    assert i == b;
  }

  /** With two candidates one selection runs the one of the two best that was not
      running, and next comes the other one. */
  lemma SelectOther(k: KState, a: nat, b: nat)
    requires NextIs(k, a, b)
    ensures NextIs(Select(k), b, a) && IsRunning(Select(k), b)
  {
    var l := PicksNext(k, a, b);
    var k' := Select(k);
    SelectKeeps(k);
    forall t: nat | Runnable(k, t)
      ensures t < |k'.tasks| && (if t == b then Level(k', t) <= Level(k, t) else Level(k', t) == Level(k, t))
    {
      LevelsAfterSwitch(k, l, b, t);
    }
    assert Candidate(k', a) && Candidate(k', b);
    forall t | Candidate(k', t) && t != a && t != b
      ensures Before(k', a, t) && Before(k', b, t)
    {
      assert Candidate(k, t);
    }
  }

  /** The best of a non-empty set of tasks. */
  lemma {:induction false} FirstOf(k: KState, s: set<nat>) returns (x: nat)
    requires s != {} && forall t | t in s :: t < |k.tasks|
    ensures x in s && forall t | t in s && t != x :: Before(k, x, t)
  {
    var a :| a in s;
    var rest := s - {a};
    if rest == {} {
      x := a;
      assert forall t | t in s :: t == a || t in rest;
    } else {
      var b := FirstOf(k, rest);
      x := if Before(k, b, a) then b else a;
      assert forall t | t in s :: t == a || t in rest;
    }
  }

  /** Two candidates suffice to name the task b that runs first and the task a it then
      alternates with. */
  lemma TwoBestExist(k: KState, t: nat, u: nat) returns (a: nat, b: nat)
    requires KInv(k) && t != u && Candidate(k, t) && Candidate(k, u)
    ensures NextIs(k, a, b)
  {
    var all := set x: nat | x < |k.tasks| && Candidate(k, x);
    assert t in all && u in all;
    b := FirstOf(k, all);
    var rest := all - {b};
    assert t in rest || u in rest;
    a := FirstOf(k, rest);
    assert forall x: nat | Candidate(k, x) :: x in all;
    if IsRunning(k, b) {
      a, b := b, a;
    }
  }

  /** Repeated selection, with nothing blocking, waking or being boosted in between,
      runs the two best tasks in strict alternation from the first selection on. */
  lemma {:induction false} Alternates(k: KState, a: nat, b: nat, n: nat)
    requires NextIs(k, a, b)
    ensures if n % 2 == 1 then NextIs(SelectN(k, n), b, a) else NextIs(SelectN(k, n), a, b)
    ensures n > 0 ==> IsRunning(SelectN(k, n), if n % 2 == 1 then b else a)
  {
    if n > 0 {
      Alternates(k, a, b, n - 1);
      var k1 := SelectN(k, n - 1);
      if n % 2 == 1 {
        SelectOther(k1, a, b);
      } else {
        SelectOther(k1, b, a);
      }
    }
  }

  /** So there are two tasks such that a third runnable one, however many selections
      pass, is never run: not even one with the best priority of all, if it was boosted
      to it while it was ready. */
  lemma TwoBestStarveTheRest(k: KState, t: nat, u: nat) returns (a: nat, b: nat)
    requires KInv(k) && t != u && Candidate(k, t) && Candidate(k, u)
    ensures TwoBest(k, a, b)
    ensures forall n: nat | n > 0 :: IsRunning(SelectN(k, n), if n % 2 == 1 then b else a)
    ensures forall n: nat, x | n > 0 && x != a && x != b :: !IsRunning(SelectN(k, n), x)
  {
    a, b := TwoBestExist(k, t, u);
    forall n: nat | n > 0
      ensures IsRunning(SelectN(k, n), if n % 2 == 1 then b else a)
    {
      Alternates(k, a, b, n);
    }
  }
}
