/** What the blocking calls return over whole runs, orderly or not: semaphore tokens are
    conserved and given out in arrival order, event waits end only for a reason, and
    setting events is a stable partition of the waiters. */
module WaitTheorems {
  import opened Tasks
  import opened Words
  import opened Scheduling
  import opened Blocking
  import opened Places
  import opened Systems
  import opened BaseProofs
  import opened OrderlyProofs

  // ---------------------------------------------------------------------- semaphore

  ghost predicate TakesToken(s: Sys, l: Label, x: nat) {
    l.WaitSem? && l.x == x && x < |s.sems| && s.sems[x].count > 0
  }

  ghost predicate Joins(s: Sys, l: Label, x: nat) {
    && l.WaitSem? && l.x == x && x < |s.sems| && s.sems[x].count == 0
    && SemQ(x) in s.queues && |s.queues[SemQ(x)]| < MAX_TASKS
    && l.timeout != 0 && (l.timeout == WAIT_FOREVER || s.k.ticks <= l.timeout + l.start)
  }

  ghost predicate HandsOver(s: Sys, l: Label, x: nat) {
    l.SignalSem? && l.x == x && SemQ(x) in s.queues && s.queues[SemQ(x)] != []
  }

  ghost predicate Saturates(s: Sys, l: Label, x: nat) {
    && l.SignalSem? && l.x == x && SemQ(x) in s.queues && s.queues[SemQ(x)] == []
    && x < |s.sems| && s.sems[x].count >= s.sems[x].max
  }

  /** The token count and the queue of semaphore x before and after step l. */
  ghost predicate SemMoves(s: Sys, l: Label, s': Sys, x: nat) {
    && x < |s.sems| == |s'.sems| && SemQ(x) in s.queues && SemQ(x) in s'.queues
    && var c, c', q, q' := s.sems[x], s'.sems[x], s.queues[SemQ(x)], s'.queues[SemQ(x)];
       && c'.max == c.max
       && if TakesToken(s, l, x) then c.count > 0 && c'.count == c.count - 1 && q' == q
          else if Joins(s, l, x) then c' == c && q' == q + [s.k.current]
          else if HandsOver(s, l, x) then c' == c && q' == q[1..]
          else if Saturates(s, l, x) then c' == c && q' == q
          else if l.SignalSem? && l.x == x then c.count < c.max && c'.count == c.count + 1 && q' == q
          else if l.FlushSem? && l.x == x then c' == c && q' == []
          else c' == c && q' == q
  }

  lemma SemStep(s: Sys, l: Label, s': Sys, x: nat)
    requires Base(s) && Step(s, l, s') && x < |s.sems|
    ensures SemMoves(s, l, s', x)
  {
    if l.WaitSem? {
      SemWaitMoves(s, l, x);
    } else if l.SignalSem? || l.FlushSem? {
      SemWakeMoves(s, l, x);
    } else {
      SemRests(s, l, x);
    }
  }

  lemma SemWaitMoves(s: Sys, l: Label, x: nat)
    requires Base(s) && Enabled(s, l) && x < |s.sems| && l.WaitSem?
    ensures SemMoves(s, l, After(s, l), x)
  {}

  lemma SemWakeMoves(s: Sys, l: Label, x: nat)
    requires Base(s) && Enabled(s, l) && x < |s.sems| && (l.SignalSem? || l.FlushSem?)
    ensures SemMoves(s, l, After(s, l), x)
  {
    if l.FlushSem? { WakeEachIs(s.k, s.queues[SemQ(l.x)], 0); }
  }

  lemma SemRests(s: Sys, l: Label, x: nat)
    requires Base(s) && Enabled(s, l) && x < |s.sems| && !(l.WaitSem? || l.SignalSem? || l.FlushSem?)
    ensures SemMoves(s, l, After(s, l), x)
  {}

  lemma SemStepInRun(ss: seq<Sys>, ls: seq<Label>, i: nat, x: nat)
    requires Run(ss, ls) && i < |ls| && x < |ss[i].sems|
    ensures SemMoves(ss[i], ls[i], ss[i + 1], x)
  {
    BaseInRun(ss, ls, i);
    SemStep(ss[i], ls[i], ss[i + 1], x);
  }

  /** Everything that happened to a semaphore: tokens taken at once, signals handed to a
      waiter, signals lost to the maximum, all signals; who joined the queue and who was
      woken from it, in order. */
  datatype Ledger = Ledger(taken: nat, handed: nat, lost: nat, signals: nat,
                           joined: seq<nat>, woken: seq<nat>)

  ghost function LedgerAfter(b: Ledger, s: Sys, l: Label, x: nat): Ledger
  {
    var q := if SemQ(x) in s.queues then s.queues[SemQ(x)] else [];
    if TakesToken(s, l, x) then b.(taken := b.taken + 1)
    else if Joins(s, l, x) then b.(joined := b.joined + [s.k.current])
    else if HandsOver(s, l, x) then
      b.(signals := b.signals + 1, handed := b.handed + 1, woken := b.woken + [q[0]])
    else if Saturates(s, l, x) then b.(signals := b.signals + 1, lost := b.lost + 1)
    else if l.SignalSem? && l.x == x then b.(signals := b.signals + 1)
    else if l.FlushSem? && l.x == x then b.(woken := b.woken + q)
    else b
  }

  ghost function LedgerOf(ss: seq<Sys>, ls: seq<Label>, x: nat, i: nat): Ledger
    requires i <= |ls| < |ss|
  {
    if i == 0 then Ledger(0, 0, 0, 0, [], [])
    else LedgerAfter(LedgerOf(ss, ls, x, i - 1), ss[i - 1], ls[i - 1], x)
  }

  /** The books of a semaphore that started with the given count balance. */
  ghost predicate Balanced(b: Ledger, start: nat, count: nat, q: seq<nat>) {
    && count + b.taken + b.handed + b.lost == start + b.signals
    && b.joined == b.woken + q
  }

  lemma BalancedStep(b: Ledger, start: nat, s: Sys, l: Label, s': Sys, x: nat)
    requires SemMoves(s, l, s', x)
    requires Balanced(b, start, s.sems[x].count, s.queues[SemQ(x)])
    ensures Balanced(LedgerAfter(b, s, l, x), start, s'.sems[x].count, s'.queues[SemQ(x)])
  {}

  /** Over any run no token appears or vanishes: what is left, taken, handed over and
      lost to the maximum is what there was at first and what was signalled; and the
      waiters are woken exactly in the order in which they joined. */
  lemma {:induction false} TokensConserved(ss: seq<Sys>, ls: seq<Label>, x: nat, i: nat)
    requires Run(ss, ls) && i <= |ls| && x < |ss[0].sems|
    ensures x < |ss[i].sems| && SemQ(x) in ss[i].queues
    ensures Balanced(LedgerOf(ss, ls, x, i), ss[0].sems[x].count, ss[i].sems[x].count,
                     ss[i].queues[SemQ(x)])
  {
    if i > 0 {
      var j := i - 1;
      TokensConserved(ss, ls, x, j);
      SemStepInRun(ss, ls, j, x);
      BalancedStep(LedgerOf(ss, ls, x, j), ss[0].sems[x].count, ss[j], ls[j], ss[j + 1], x);
    }
  }

  /** A token is taken at once only while nobody waits: no newcomer overtakes a waiter. */
  lemma NoOvertaking(ss: seq<Sys>, ls: seq<Label>, x: nat, i: nat)
    requires Run(ss, ls) && i < |ls| && TakesToken(ss[i], ls[i], x)
    ensures SemQ(x) in ss[i].queues && ss[i].queues[SemQ(x)] == []
  {
    BaseInRun(ss, ls, i);
  }

  // --------------------------------------------------- how blocking calls come to an end

  ghost predicate EntersAcquire(s: Sys, l: Label, t: nat) {
    && l.StartAcquire? && t == s.k.current && l.m < |s.mutexes|
    && s.mutexes[l.m].owner != Some(t)
  }

  ghost predicate EntersWait(s: Sys, l: Label, t: nat) {
    && l.WaitEvents? && t == s.k.current && l.g < |s.groups|
    && And(s.groups[l.g], l.mask) == 0 && l.timeout != 0
  }

  /** A task enters a blocking loop only by its own call and otherwise stays or leaves. */
  ghost predicate PcMoves(s: Sys, l: Label, s': Sys, t: nat) {
    && |s.pcs| <= |s'.pcs| && t < |s'.pcs|
    && if EntersAcquire(s, l, t) then
         s'.pcs[t] == Acquiring(l.m, l.timeout == WAIT_FOREVER, l.timeout + s.k.ticks)
       else if EntersWait(s, l, t) then
         s'.pcs[t] == Waiting(l.g, l.mask, s.k.ticks + l.timeout)
       else
         s'.pcs[t].Acquiring? || s'.pcs[t].Waiting? ==> t < |s.pcs| && s'.pcs[t] == s.pcs[t]
  }

  lemma PcEnters(s: Sys, l: Label, t: nat)
    requires Typed(s) && Enabled(s, l) && t < |s.pcs| && (l.StartAcquire? || l.WaitEvents?)
    ensures PcMoves(s, l, After(s, l), t)
  {}

  lemma PcLeaves(s: Sys, l: Label, t: nat)
    requires Typed(s) && Enabled(s, l) && t < |s.pcs|
    requires l.AcquirePass? || l.RecheckEvents? || l.ReadySelf?
    ensures PcMoves(s, l, After(s, l), t)
  {}

  lemma PcSignals(s: Sys, l: Label, t: nat)
    requires Typed(s) && Enabled(s, l) && t < |s.pcs| && (l.SignalSem? || l.FlushSem?)
    ensures PcMoves(s, l, After(s, l), t)
  {
    if l.FlushSem? { WakeEachIs(s.k, s.queues[SemQ(l.x)], 0); }
  }

  lemma PcKept(s: Sys, l: Label, t: nat)
    requires Typed(s) && Enabled(s, l) && t < |After(s, l).pcs|
    requires !(l.AcquirePass? || l.RecheckEvents? || l.ReadySelf? || l.SignalSem? || l.FlushSem?)
    requires !(l.StartAcquire? || l.WaitEvents?)
    ensures PcMoves(s, l, After(s, l), t)
  {}

  lemma PcStepMoves(s: Sys, l: Label, s': Sys, t: nat)
    requires Step(s, l, s') && t < |s'.pcs|
    ensures PcMoves(s, l, s', t)
  {
    if l.StartAcquire? || l.WaitEvents? {
      PcEnters(s, l, t);
    } else if l.AcquirePass? || l.RecheckEvents? || l.ReadySelf? {
      PcLeaves(s, l, t);
    } else if l.SignalSem? || l.FlushSem? {
      PcSignals(s, l, t);
    } else {
      PcKept(s, l, t);
    }
  }

  /** A task inside an acquire loop called acquire, with the deadline it carries. */
  lemma {:induction false} AcquiringSince(ss: seq<Sys>, ls: seq<Label>, j: nat, t: nat) returns (i: nat)
    requires Run(ss, ls) && j < |ss| && t < |ss[j].pcs| && ss[j].pcs[t].Acquiring?
    ensures i < j && EntersAcquire(ss[i], ls[i], t)
    ensures ss[j].pcs[t] == Acquiring(ls[i].m, ls[i].timeout == WAIT_FOREVER, ls[i].timeout + ss[i].k.ticks)
  {
    var h := j - 1;
    assert Step(ss[h], ls[h], ss[h + 1]);
    PcStepMoves(ss[h], ls[h], ss[h + 1], t);
    if EntersAcquire(ss[h], ls[h], t) {
      i := h;
    } else {
      i := AcquiringSince(ss, ls, h, t);
    }
  }

  lemma {:induction false} WaitingSince(ss: seq<Sys>, ls: seq<Label>, j: nat, t: nat) returns (i: nat)
    requires Run(ss, ls) && j < |ss| && t < |ss[j].pcs| && ss[j].pcs[t].Waiting?
    ensures i < j && EntersWait(ss[i], ls[i], t)
    ensures ss[j].pcs[t] == Waiting(ls[i].g, ls[i].mask, ss[i].k.ticks + ls[i].timeout)
  {
    var h := j - 1;
    assert Step(ss[h], ls[h], ss[h + 1]);
    PcStepMoves(ss[h], ls[h], ss[h + 1], t);
    if EntersWait(ss[h], ls[h], t) {
      i := h;
    } else {
      i := WaitingSince(ss, ls, h, t);
    }
  }

  /** An acquire succeeds exactly on a free mutex, and times out only on a held one, with
      a finite timeout, strictly later than the timeout after the call. */
  lemma AcquireEnds(ss: seq<Sys>, ls: seq<Label>, j: nat) returns (i: nat)
    requires Run(ss, ls) && j < |ls| && ls[j] == AcquirePass
    ensures Typed(ss[j]) && Enabled(ss[j], ls[j]) && i < j
    ensures var s, t := ss[j], ss[j].k.current;
      && EntersAcquire(ss[i], ls[i], t) && ls[i].m < |s.mutexes|
      && (PassResult(s).Acquired? <==> s.mutexes[ls[i].m].owner.None?)
      && (PassResult(s).TimedOut? <==>
            && s.mutexes[ls[i].m].owner.Some? && ls[i].timeout != WAIT_FOREVER
            && s.k.ticks > ss[i].k.ticks + ls[i].timeout)
  {
    BaseInRun(ss, ls, j);
    assert Step(ss[j], ls[j], ss[j + 1]);
    i := AcquiringSince(ss, ls, j, ss[j].k.current);
    assert GoodCore(ss[j].k, ss[j].mutexes[ls[i].m]);
  }

  ghost predicate InNoGroup(qs: Queues, t: nat) {
    forall g | GroupQ(g) in qs :: t !in qs[GroupQ(g)]
  }

  ghost predicate InNoQueue(qs: Queues, t: nat) {
    forall r | r in qs :: t !in qs[r]
  }

  /** A wait that does not block returns true exactly when a requested flag is set and
      false exactly when none is and the timeout is zero; it changes nothing and leaves
      the caller in the queue of no group. */
  lemma EventWaitAtOnce(ss: seq<Sys>, ls: seq<Label>, j: nat)
    requires Run(ss, ls) && j < |ls| && ls[j].WaitEvents?
    ensures Typed(ss[j]) && Enabled(ss[j], ls[j])
    ensures var s, l := ss[j], ls[j]; var out := EventsResult(s, l.g, l.mask, l.timeout);
      && (out.Got? <==> And(s.groups[l.g], l.mask) != 0)
      && (out.NotGot? <==> And(s.groups[l.g], l.mask) == 0 && l.timeout == 0)
      && (!out.Again? ==> ss[j + 1] == s && InNoGroup(s.queues, s.k.current))
  {
    BaseInRun(ss, ls, j);
    assert Step(ss[j], ls[j], ss[j + 1]);
    var s := ss[j];
    forall g | GroupQ(g) in s.queues
      ensures s.k.current !in s.queues[GroupQ(g)]
    {
      NotWaiting(s, g, s.k.current);
    }
    assert s.queues[GroupQ(ls[j].g) := s.queues[GroupQ(ls[j].g)]] == s.queues;
  }

  /** A wait that blocked ends with true exactly when a requested flag is set and with
      false exactly when none is and the timeout has passed since the call.  When it ends,
      the caller is left in the queue of no group, even one that went on executing while
      it was queued; in an orderly run it is left in no queue at all. */
  lemma EventWaitEnds(ss: seq<Sys>, ls: seq<Label>, j: nat) returns (i: nat)
    requires Run(ss, ls) && j < |ls| && ls[j] == RecheckEvents
    ensures Typed(ss[j]) && Enabled(ss[j], ls[j]) && i < j
    ensures var s, t := ss[j], ss[j].k.current;
      && EntersWait(ss[i], ls[i], t) && ls[i].g < |s.groups|
      && (RecheckResult(s).Got? <==> And(s.groups[ls[i].g], ls[i].mask) != 0)
      && (RecheckResult(s).NotGot? <==>
            && And(s.groups[ls[i].g], ls[i].mask) == 0
            && s.k.ticks >= ss[i].k.ticks + ls[i].timeout)
      && (!RecheckResult(s).Again? ==> ss[j + 1].pcs == s.pcs[t := App] && InNoGroup(ss[j + 1].queues, t))
    ensures OrderlyUpTo(ss, ls, j) ==> InNoQueue(ss[j + 1].queues, ss[j].k.current)
  {
    BaseInRun(ss, ls, j);
    assert Step(ss[j], ls[j], ss[j + 1]);
    i := WaitingSince(ss, ls, j, ss[j].k.current);
    RecheckBase(ss[j]);
    if OrderlyUpTo(ss, ls, j) { LeavesQueues(ss, ls, j); }
  }

  lemma LeavesQueues(ss: seq<Sys>, ls: seq<Label>, j: nat)
    requires Run(ss, ls) && j < |ls| && ls[j] == RecheckEvents && OrderlyUpTo(ss, ls, j)
    ensures InNoQueue(ss[j + 1].queues, ss[j].k.current)
  {
    SoundInRun(ss, ls, j);
    var s := ss[j];
    assert Step(s, ls[j], ss[j + 1]);
    WorkingRuns(s);
    forall r | r in s.queues
      ensures s.k.current !in s.queues[r]
    {
      RoomToBlock(s.k, s.queues, r);
    }
    RemovedAbsent(s.queues[GroupQ(s.pcs[s.k.current].g)], s.k.current);
  }

  // --------------------------------------------------------- setting events is a partition

  /** Of two waiters that stay, the one that came first stays first. */
  lemma {:induction false} KeptInOrder(k: KState, f: nat, q: seq<nat>, i: nat, j: nat) returns (a: nat, b: nat)
    requires Registered(k, q) && i < j < |q|
    requires And(f, k.tasks[q[i]].flags) == 0 && And(f, k.tasks[q[j]].flags) == 0
    ensures a < b < |Disjoint(k, f, q)| && Disjoint(k, f, q)[a] == q[i] && Disjoint(k, f, q)[b] == q[j]
  {
    var n := |q| - 1;
    if j == n {
      a := KeptAt(k, f, q[..n], i);
      b := |Disjoint(k, f, q[..n])|;
    } else {
      a, b := KeptInOrder(k, f, q[..n], i, j);
    }
  }

  lemma {:induction false} KeptAt(k: KState, f: nat, q: seq<nat>, i: nat) returns (a: nat)
    requires Registered(k, q) && i < |q| && And(f, k.tasks[q[i]].flags) == 0
    ensures a < |Disjoint(k, f, q)| && Disjoint(k, f, q)[a] == q[i]
  {
    var n := |q| - 1;
    if i == n {
      a := |Disjoint(k, f, q[..n])|;
    } else {
      a := KeptAt(k, f, q[..n], i);
    }
  }

  /** Nothing is lost or duplicated between the woken and the kept waiters. */
  lemma {:induction false} PartitionCounts(k: KState, f: nat, q: seq<nat>)
    requires Registered(k, q)
    ensures multiset(Matching(k, f, q)) + multiset(Disjoint(k, f, q)) == multiset(q)
  {
    if q != [] {
      PartitionCounts(k, f, q[..|q| - 1]);
      assert q == q[..|q| - 1] + [q[|q| - 1]];
    }
  }

  /** Setting flags wakes exactly the waiters that asked for one of the group's flags,
      each becoming ready with its request forgotten, and leaves every other task as it
      was; what stays queued asked for none of them.  No waiter is queued twice. */
  lemma RaiseWakesExactly(ss: seq<Sys>, ls: seq<Label>, i: nat, t: nat)
    requires Run(ss, ls) && i < |ls| && ls[i].RaiseEvents? && t < |ss[i].k.tasks|
    ensures Typed(ss[i]) && Enabled(ss[i], ls[i])
    ensures var s, s', g := ss[i], ss[i + 1], ls[i].g;
      var f, q := Or(s.groups[g], ls[i].bits), s.queues[GroupQ(g)];
      && s'.groups == s.groups[g := f] && s'.queues == s.queues[GroupQ(g) := Disjoint(s.k, f, q)]
      && t < |s'.k.tasks|
      && s'.k.tasks[t] == (if t in q && And(f, s.k.tasks[t].flags) != 0
                           then s.k.tasks[t].(state := Ready, flags := 0) else s.k.tasks[t])
      && (t in s'.queues[GroupQ(g)] <==> t in q && And(f, s.k.tasks[t].flags) == 0)
      && Distinct(q)
  {
    var s, g := ss[i], ls[i].g;
    BaseInRun(ss, ls, i);
    assert Step(s, ls[i], ss[i + 1]);
    var f, q := Or(s.groups[g], ls[i].bits), s.queues[GroupQ(g)];
    WakeEachEventIs(s.k, Matching(s.k, f, q), t);
    MatchingOrDisjoint(s.k, f, q, t);
  }

  /** Between steps no queued waiter of a group has one of its flags set. */
  lemma GroupsAreQuiet(ss: seq<Sys>, ls: seq<Label>, i: nat, g: nat, t: nat)
    requires Run(ss, ls) && i < |ss| && g < |ss[i].groups| && GroupQ(g) in ss[i].queues
    requires t in ss[i].queues[GroupQ(g)]
    ensures t < |ss[i].k.tasks| && And(ss[i].groups[g], ss[i].k.tasks[t].flags) == 0
  {
    BaseInRun(ss, ls, i);
    assert Registered(ss[i].k, ss[i].queues[GroupQ(g)]);
  }
}
