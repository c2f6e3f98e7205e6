/** What the calls return and change over whole runs, orderly or not, in terms of what the
    objects held before and of the arguments alone. */
module CallResults {
  import opened Tasks
  import opened Words
  import opened Blocking
  import opened Places
  import opened Systems
  import opened BaseProofs
  import opened Theorems

  // ---------------------------------------------------------------------- semaphore

  /** A wait takes a token if and only if there is one; it gives up, and changes nothing, if
      and only if there is none and the timeout is zero or has passed; otherwise it blocks
      the caller and puts it at the end of the queue. */
  ghost predicate SemWaitOutcome(s: Sys, l: Label, s': Sys)
    requires Typed(s) && Enabled(s, l) && l.WaitSem?
  {
    var c, count, max, q := s.k.current, s.sems[l.x].count, s.sems[l.x].max, s.queues[SemQ(l.x)];
    var out, late := WaitResult(s, l.x, l.timeout, l.start), l.timeout == 0 || Late(l.timeout, l.start, s.k.ticks);
    && (out.Took? <==> count > 0)
    && (out.GaveUp? <==> count == 0 && late)
    && (out.Joined? <==> count == 0 && !late)
    && (out.Took? ==> s' == s.(sems := s.sems[l.x := SemCore(count - 1, max)]))
    && (out.GaveUp? ==> s' == s)
    && (out.Joined? ==>
          && s' == s.(k := s'.k, queues := s.queues[SemQ(l.x) := Enqueued(q, c)], pending := true)
          && c < |s'.k.tasks| && s'.k.tasks[c].state.Blocked?)
  }

  lemma SemWaitStep(s: Sys, l: Label)
    requires Base(s) && Enabled(s, l) && l.WaitSem?
    ensures SemWaitOutcome(s, l, After(s, l))
  {
    assert s.queues[SemQ(l.x) := s.queues[SemQ(l.x)]] == s.queues && s.sems[l.x := s.sems[l.x]] == s.sems;
  }

  lemma SemWaitEnds(ss: seq<Sys>, ls: seq<Label>, j: nat)
    requires Run(ss, ls) && j < |ls| && ls[j].WaitSem?
    ensures Typed(ss[j]) && Enabled(ss[j], ls[j]) && SemWaitOutcome(ss[j], ls[j], ss[j + 1])
  {
    BaseInRun(ss, ls, j);
    assert Step(ss[j], ls[j], ss[j + 1]);
    SemWaitStep(ss[j], ls[j]);
  }

  // -------------------------------------------------------------------------- mutex

  ghost function ReleaseResult(s: Sys, m: nat): MutexResult
    requires Typed(s) && m < |s.mutexes|
  {
    Blocking.Release(s.k, s.mutexes[m], s.queues[MutexQ(m)]).3
  }

  /** Another task's mutex answers NotOwner, and Success comes back with a free mutex or one's
      own.  Only the owner's release changes anything: it frees the mutex, makes the first
      waiter ready, and asks for a context switch. */
  ghost predicate ReleaseOutcome(s: Sys, m: nat, s': Sys)
    requires Typed(s) && m < |s.mutexes|
  {
    var c, o, q := s.k.current, s.mutexes[m].owner, s.queues[MutexQ(m)];
    && (ReleaseResult(s, m) == NotOwner <==> o.Some? && o.value != c)
    && (ReleaseResult(s, m) == MutexResult.Success <==> o.None? || o.value == c)
    && (o != Some(c) ==> s' == s)
    && (o == Some(c) ==>
          && s'.mutexes == s.mutexes[m := MutexCore(0, None)] && s'.pcs == s.pcs && s'.pending
          && s'.queues == s.queues[MutexQ(m) := if q == [] then [] else q[1..]]
          && s'.k.tasks == (if q == [] then s.k.tasks else s.k.tasks[q[0] := s.k.tasks[q[0]].(state := Ready)]))
  }

  lemma ReleaseStepEnds(s: Sys, m: nat)
    requires Base(s) && Enabled(s, ReleaseMutex(m))
    ensures ReleaseOutcome(s, m, After(s, ReleaseMutex(m)))
  {
    assert GoodCore(s.k, s.mutexes[m]);
    assert s.queues[MutexQ(m) := s.queues[MutexQ(m)]] == s.queues && s.mutexes[m := s.mutexes[m]] == s.mutexes;
  }

  lemma ReleaseEnds(ss: seq<Sys>, ls: seq<Label>, j: nat)
    requires Run(ss, ls) && j < |ls| && ls[j].ReleaseMutex?
    ensures Typed(ss[j]) && ls[j].m < |ss[j].mutexes| && ReleaseOutcome(ss[j], ls[j].m, ss[j + 1])
  {
    BaseInRun(ss, ls, j);
    assert Step(ss[j], ls[j], ss[j + 1]);
    ReleaseStepEnds(ss[j], ls[j].m);
  }

  /** A pass that takes the mutex, and one that times out, change nothing else than the mutex
      and the caller's place in its call. */
  ghost predicate PassOutcome(s: Sys, s': Sys)
    requires Typed(s) && s.pcs[s.k.current].Acquiring?
  {
    var c, m := s.k.current, s.pcs[s.k.current].m;
    && (PassResult(s).Acquired? ==>
          s' == s.(mutexes := s.mutexes[m := MutexCore(1, Some(c))], pcs := s.pcs[c := App], pending := false))
    && (PassResult(s).TimedOut? ==> s' == s.(pcs := s.pcs[c := App], pending := false))
  }

  lemma PassStepEnds(s: Sys)
    requires Base(s) && Enabled(s, AcquirePass)
    ensures PassOutcome(s, After(s, AcquirePass))
  {
    var m := s.pcs[s.k.current].m;
    assert GoodCore(s.k, s.mutexes[m]);
    assert s.queues[MutexQ(m) := s.queues[MutexQ(m)]] == s.queues && s.mutexes[m := s.mutexes[m]] == s.mutexes;
  }

  lemma PassEnds(ss: seq<Sys>, ls: seq<Label>, j: nat)
    requires Run(ss, ls) && j < |ls| && ls[j] == AcquirePass
    ensures Typed(ss[j]) && Enabled(ss[j], ls[j]) && PassOutcome(ss[j], ss[j + 1])
  {
    BaseInRun(ss, ls, j);
    assert Step(ss[j], ls[j], ss[j + 1]);
    PassStepEnds(ss[j]);
  }

  function HigherOf(a: nat, b: nat): nat {
    if a < b then a else b
  }

  /** A pass of an acquire loop that has to wait, for a mutex held by o: the owner gets exactly
      the higher of the two priorities and nobody else a new one; a running caller blocks;
      the caller, blocked or not, goes to the end of the queue.  With a full queue neither
      happens. */
  ghost predicate WaitOutcome(s: Sys, m: nat, o: nat, s': Sys)
    requires Typed(s) && m < |s.mutexes| && o < |s.k.tasks|
  {
    var c, q, room := s.k.current, s.queues[MutexQ(m)], |s.queues[MutexQ(m)]| < MAX_TASKS;
    && s' == s.(k := s'.k, queues := s.queues[MutexQ(m) := if room then q + [c] else q], pending := true)
    && |s'.k.tasks| == |s.k.tasks|
    && (forall t | 0 <= t < |s.k.tasks| ::
          && s'.k.tasks[t].priority ==
             (if t == o then HigherOf(s.k.tasks[o].priority, s.k.tasks[c].priority) else s.k.tasks[t].priority)
          && s'.k.tasks[t].state ==
             (if t == c && room && s.k.tasks[c].state.Running? then Blocked else s.k.tasks[t].state)
          && s'.k.tasks[t].flags == s.k.tasks[t].flags)
  }

  lemma WaitStepEnds(s: Sys, m: nat, o: nat)
    requires Base(s) && WaitsFor(s, AcquirePass, m, o)
    ensures o < |s.k.tasks| && WaitOutcome(s, m, o, After(s, AcquirePass))
  {
    assert GoodCore(s.k, s.mutexes[m]);
    assert s.mutexes[m := s.mutexes[m]] == s.mutexes;
  }

  lemma WaitEnds(ss: seq<Sys>, ls: seq<Label>, j: nat, m: nat, o: nat)
    requires Run(ss, ls) && j < |ls| && WaitsFor(ss[j], ls[j], m, o)
    ensures Typed(ss[j]) && m < |ss[j].mutexes| && o < |ss[j].k.tasks| && WaitOutcome(ss[j], m, o, ss[j + 1])
  {
    BaseInRun(ss, ls, j);
    assert Step(ss[j], ls[j], ss[j + 1]);
    WaitStepEnds(ss[j], m, o);
  }

  // ---------------------------------------------------------- what a signaller does next

  /** A signal by a task always goes on to ready the task itself, a flush by a task only if it
      has woken somebody, and neither does in an interrupt. */
  lemma SignalGoesOn(ss: seq<Sys>, ls: seq<Label>, j: nat)
    requires Run(ss, ls) && j < |ls| && (ls[j].SignalSem? || ls[j].FlushSem?)
    ensures var s, l, c := ss[j], ls[j], ss[j].k.current;
      && SemQ(l.x) in s.queues && (!l.isr ==> c < |s.pcs|)
      && ss[j + 1].pcs ==
         (if !l.isr && (l.SignalSem? || s.queues[SemQ(l.x)] != []) then s.pcs[c := Signalled] else s.pcs)
      && ss[j + 1].pending == s.pending && ss[j + 1].k.current == c
  {
    BaseInRun(ss, ls, j);
    var s := ss[j];
    assert Step(s, ls[j], ss[j + 1]);
    if ls[j].FlushSem? { WakeEachIs(s.k, s.queues[SemQ(ls[j].x)], 0); }
  }

  // -------------------------------------------------------------- order of the waiters

  /** Step l makes the current task join the queue of mutex m. */
  ghost predicate JoinsMutex(s: Sys, l: Label, m: nat) {
    && l.AcquirePass? && Typed(s) && Enabled(s, l) && s.pcs[s.k.current].m == m
    && s.mutexes[m].count > 0 && |s.queues[MutexQ(m)]| < MAX_TASKS
    && (s.pcs[s.k.current].forever || s.k.ticks <= s.pcs[s.k.current].end)
  }

  ghost predicate WakesFromMutex(s: Sys, l: Label, m: nat) {
    Releases(s, l, m) && MutexQ(m) in s.queues && s.queues[MutexQ(m)] != []
  }

  /** The queue of mutex m before and after step l. */
  ghost predicate WaitersMove(s: Sys, l: Label, s': Sys, m: nat) {
    && MutexQ(m) in s.queues && MutexQ(m) in s'.queues && |s'.mutexes| == |s.mutexes|
    && var q, q' := s.queues[MutexQ(m)], s'.queues[MutexQ(m)];
       if JoinsMutex(s, l, m) then q' == q + [s.k.current]
       else if WakesFromMutex(s, l, m) then q' == q[1..]
       else q' == q
  }

  lemma PassWaiters(s: Sys, m: nat)
    requires Base(s) && Enabled(s, AcquirePass) && m < |s.mutexes|
    ensures WaitersMove(s, AcquirePass, After(s, AcquirePass), m)
  {
    assert GoodCore(s.k, s.mutexes[m]);
  }

  lemma ReleaseWaiters(s: Sys, n: nat, m: nat)
    requires Base(s) && Enabled(s, ReleaseMutex(n)) && m < |s.mutexes|
    ensures WaitersMove(s, ReleaseMutex(n), After(s, ReleaseMutex(n)), m)
  {}

  lemma SemWaiters(s: Sys, l: Label, m: nat)
    requires Base(s) && Enabled(s, l) && m < |s.mutexes| && (l.WaitSem? || l.SignalSem? || l.FlushSem?)
    ensures WaitersMove(s, l, After(s, l), m)
  {}

  lemma GroupWaiters(s: Sys, l: Label, m: nat)
    requires Base(s) && Enabled(s, l) && m < |s.mutexes| && (l.WaitEvents? || l.RecheckEvents? || l.RaiseEvents?)
    ensures WaitersMove(s, l, After(s, l), m)
  {}

  /** All other steps leave the queues alone. */
  lemma QueuesAlone(s: Sys, l: Label)
    requires Typed(s) && Enabled(s, l) && !l.AcquirePass? && !l.ReleaseMutex?
    requires !l.WaitSem? && !l.SignalSem? && !l.FlushSem? && !l.WaitEvents? && !l.RecheckEvents? && !l.RaiseEvents?
    ensures After(s, l).queues == s.queues && After(s, l).mutexes == s.mutexes
  {}

  lemma OtherWaiters(s: Sys, l: Label, m: nat)
    requires Base(s) && Enabled(s, l) && m < |s.mutexes| && !l.AcquirePass? && !l.ReleaseMutex?
    ensures WaitersMove(s, l, After(s, l), m)
  {
    if l.WaitSem? || l.SignalSem? || l.FlushSem? {
      SemWaiters(s, l, m);
    } else if l.WaitEvents? || l.RecheckEvents? || l.RaiseEvents? {
      GroupWaiters(s, l, m);
    } else {
      QueuesAlone(s, l);
    }
  }

  lemma WaitersStep(s: Sys, l: Label, s': Sys, m: nat)
    requires Base(s) && Step(s, l, s') && m < |s.mutexes|
    ensures WaitersMove(s, l, s', m)
  {
    match l
    case AcquirePass => PassWaiters(s, m);
    case ReleaseMutex(n) => ReleaseWaiters(s, n, m);
    case _ => OtherWaiters(s, l, m);
  }

  /** Who joined the queue of a mutex, and who was woken from it, in order. */
  datatype Passage = Passage(joined: seq<nat>, woken: seq<nat>)

  ghost function PassageAfter(b: Passage, s: Sys, l: Label, m: nat): Passage {
    if JoinsMutex(s, l, m) then b.(joined := b.joined + [s.k.current])
    else if WakesFromMutex(s, l, m) then b.(woken := b.woken + [s.queues[MutexQ(m)][0]])
    else b
  }

  ghost function PassageOf(ss: seq<Sys>, ls: seq<Label>, m: nat, i: nat): Passage
    requires i <= |ls| < |ss|
  {
    if i == 0 then Passage([], []) else PassageAfter(PassageOf(ss, ls, m, i - 1), ss[i - 1], ls[i - 1], m)
  }

  lemma PassageStep(b: Passage, s: Sys, l: Label, s': Sys, m: nat)
    requires WaitersMove(s, l, s', m) && b.joined == b.woken + s.queues[MutexQ(m)]
    ensures var b' := PassageAfter(b, s, l, m); b'.joined == b'.woken + s'.queues[MutexQ(m)]
  {}

  lemma WaitersStepInRun(ss: seq<Sys>, ls: seq<Label>, h: nat, m: nat)
    requires Run(ss, ls) && h < |ls| && m < |ss[h].mutexes|
    ensures WaitersMove(ss[h], ls[h], ss[h + 1], m)
  {
    BaseInRun(ss, ls, h);
    WaitersStep(ss[h], ls[h], ss[h + 1], m);
  }

  /** Over any run the waiters of a mutex are woken exactly in the order in which they queued
      up, and whoever was not woken is still queued. */
  lemma {:induction false} WokenInOrder(ss: seq<Sys>, ls: seq<Label>, m: nat, i: nat)
    requires Run(ss, ls) && i <= |ls| && m < |ss[0].mutexes|
    ensures m < |ss[i].mutexes| && MutexQ(m) in ss[i].queues
    ensures PassageOf(ss, ls, m, i).joined == PassageOf(ss, ls, m, i).woken + ss[i].queues[MutexQ(m)]
  {
    if i > 0 {
      var h := i - 1;
      WokenInOrder(ss, ls, m, h);
      WaitersStepInRun(ss, ls, h, m);
      PassageStep(PassageOf(ss, ls, m, h), ss[h], ls[h], ss[h + 1], m);
    }
  }

  // -------------------------------------------------------------------- event groups

  /** A wait that blocks puts its caller at the end of the group's queue, with its request. */
  lemma GroupWaitEnds(ss: seq<Sys>, ls: seq<Label>, j: nat)
    requires Run(ss, ls) && j < |ls| && ls[j].WaitEvents?
    requires Typed(ss[j]) && Enabled(ss[j], ls[j]) && EventsResult(ss[j], ls[j].g, ls[j].mask, ls[j].timeout).Again?
    ensures var s, s', l, c, r := ss[j], ss[j + 1], ls[j], ss[j].k.current, GroupQ(ls[j].g);
      && s'.queues == s.queues[r := Enqueued(s.queues[r], c)] && s'.groups == s.groups && s'.pending
      && s'.pcs == s.pcs[c := Waiting(l.g, l.mask, s.k.ticks + l.timeout)]
      && s'.k.tasks == s.k.tasks[c := s.k.tasks[c].(state := Blocked, flags := l.mask)]
  {
    assert Step(ss[j], ls[j], ss[j + 1]);
  }

  /** q' is q without the entry of t, if it has one. */
  ghost predicate WithoutEntry(q: seq<nat>, q': seq<nat>, t: nat) {
    if t in q then exists i :: EntryTaken(q, q', t, i) else q' == q
  }

  ghost predicate EntryTaken(q: seq<nat>, q': seq<nat>, t: nat, i: int) {
    0 <= i < |q| && q[i] == t && t !in q[..i] && q' == q[..i] + q[i + 1..]
  }

  lemma {:induction false} RemovedEntry(q: seq<nat>, t: nat)
    ensures WithoutEntry(q, Removed(q, t), t)
  {
    if t !in q {
      RemovedAbsent(q, t);
    } else if q[0] == t {
      assert EntryTaken(q, Removed(q, t), t, 0);
    } else {
      RemovedEntry(q[1..], t);
      var i :| EntryTaken(q[1..], Removed(q[1..], t), t, i);
      assert q[..i + 1] == [q[0]] + q[1..][..i] && q[i + 2..] == q[1..][i + 1..];
      assert EntryTaken(q, Removed(q, t), t, i + 1);
    }
  }

  /** A pass of the event wait loop that goes on asks for a switch and changes nothing else;
      one that ends takes the caller out of the loop and its entry out of the queue, and
      changes nothing else. */
  lemma RecheckEnds(ss: seq<Sys>, ls: seq<Label>, j: nat)
    requires Run(ss, ls) && j < |ls| && ls[j] == RecheckEvents
    ensures Typed(ss[j]) && Enabled(ss[j], ls[j])
    ensures var s, s', c, r := ss[j], ss[j + 1], ss[j].k.current, GroupQ(ss[j].pcs[ss[j].k.current].g);
      && (RecheckResult(s).Again? ==> s' == s.(pending := true))
      && (!RecheckResult(s).Again? ==>
            && r in s'.queues && WithoutEntry(s.queues[r], s'.queues[r], c)
            && s' == s.(queues := s.queues[r := s'.queues[r]], pcs := s.pcs[c := App], pending := false))
  {
    BaseInRun(ss, ls, j);
    var s := ss[j];
    assert Step(s, ls[j], ss[j + 1]);
    var r := GroupQ(s.pcs[s.k.current].g);
    RemovedEntry(s.queues[r], s.k.current);
    assert s.queues[r := s.queues[r]] == s.queues;
  }

  ghost predicate Sets(l: Label, g: nat, b: nat) {
    l.RaiseEvents? && l.g == g && Has(l.bits, b)
  }

  ghost predicate Clears(l: Label, g: nat, b: nat) {
    l.LowerEvents? && l.g == g && Has(l.bits, b)
  }

  lemma FlagStep(s: Sys, l: Label, s': Sys, g: nat, b: nat)
    requires Base(s) && Step(s, l, s') && g < |s.groups|
    ensures |s'.groups| == |s.groups|
    ensures Has(s'.groups[g], b) <==> Sets(l, g, b) || (Has(s.groups[g], b) && !Clears(l, g, b))
  {
    if l.RaiseEvents? {
      HasOr(s.groups[l.g], l.bits, b);
    } else if l.LowerEvents? {
      LowerBit(s.groups[l.g], l.bits, b);
    } else {
      GroupsAlone(s, l);
    }
  }

  lemma LowerBit(f: nat, bits: nat, b: nat)
    requires Fits(f, WIDTH32) && Fits(bits, WIDTH32)
    ensures Has(And(f, Not(bits, WIDTH32)), b) <==> Has(f, b) && !Has(bits, b)
  {
    HasAnd(f, Not(bits, WIDTH32), b);
    if b < WIDTH32 { HasNot(bits, WIDTH32, b); } else { HasFits(f, WIDTH32, b); }
  }

  lemma GroupsAlone(s: Sys, l: Label)
    requires Typed(s) && Enabled(s, l) && !l.RaiseEvents? && !l.LowerEvents?
    ensures After(s, l).groups == s.groups
  {}

  /** Flag b of group g was set at step i and not cleared since, up to state n. */
  ghost predicate SetSince(ls: seq<Label>, g: nat, b: nat, i: nat, n: nat) {
    i < n <= |ls| && Sets(ls[i], g, b) && forall j | i < j < n :: !Clears(ls[j], g, b)
  }

  lemma NotSetYet(s: Sys, g: nat, b: nat)
    requires Init(s) && g < |s.groups|
    ensures !Has(s.groups[g], b)
  {
    HasZero(b);
  }

  /** In any run a flag is set if and only if some call set it and none has cleared it since. */
  lemma {:induction false} FlagExactly(ss: seq<Sys>, ls: seq<Label>, g: nat, b: nat, n: nat)
    requires Run(ss, ls) && n <= |ls| && g < |ss[0].groups|
    ensures |ss[n].groups| == |ss[0].groups|
    ensures Has(ss[n].groups[g], b) <==> exists i: nat :: SetSince(ls, g, b, i, n)
  {
    if n == 0 {
      NotSetYet(ss[0], g, b);
    } else {
      var h := n - 1;
      FlagExactly(ss, ls, g, b, h);
      BaseInRun(ss, ls, h);
      FlagStep(ss[h], ls[h], ss[h + 1], g, b);
      SetSinceSnoc(ls, g, b, h, n);
    }
  }

  lemma SetSinceSnoc(ls: seq<Label>, g: nat, b: nat, h: nat, n: nat)
    requires n == h + 1 <= |ls|
    ensures (exists i: nat :: SetSince(ls, g, b, i, n)) <==>
            Sets(ls[h], g, b) || (!Clears(ls[h], g, b) && exists i: nat :: SetSince(ls, g, b, i, h))
  {
    if exists i: nat :: SetSince(ls, g, b, i, n) {
      var i: nat :| SetSince(ls, g, b, i, n);
      if i < h { assert SetSince(ls, g, b, i, h); }
    }
    if Sets(ls[h], g, b) {
      assert SetSince(ls, g, b, h, n);
    } else if !Clears(ls[h], g, b) && exists i: nat :: SetSince(ls, g, b, i, h) {
      var i: nat :| SetSince(ls, g, b, i, h);
      assert SetSince(ls, g, b, i, n);
    }
  }

  // --------------------------------------------------------- requests for a context switch

  /** Step l asks for a context switch: the tick, a sleep, a call that has to wait, the owner's
      release, a task done with readying itself, and every setting of event flags. */
  ghost predicate Requests(s: Sys, l: Label) {
    && Typed(s) && Enabled(s, l)
    && match l
       case SysTick => true
       case Sleep(_) => true
       case AcquirePass =>
         var pc := s.pcs[s.k.current];
         s.mutexes[pc.m].owner.Some? && (pc.forever || s.k.ticks <= pc.end)
       case ReleaseMutex(m) => Releases(s, l, m)
       case WaitSem(x, timeout, start) =>
         s.sems[x].count == 0 && timeout != 0 && !Late(timeout, start, s.k.ticks)
       case ReadySelf => s.pcs[s.k.current].MapLoaded?
       case WaitEvents(g, mask, timeout) => And(s.groups[g], mask) == 0 && timeout != 0
       case RecheckEvents =>
         var pc := s.pcs[s.k.current];
         And(s.groups[pc.g], pc.mask) == 0 && s.k.ticks < pc.end
       case RaiseEvents(_, _) => true
       case _ => false
  }

  /** A task's step is taken only while no switch is pending. */
  lemma RequestStep(s: Sys, l: Label, s': Sys)
    requires Base(s) && Step(s, l, s')
    ensures s'.pending <==> Requests(s, l) || (s.pending && !l.SelectTask?)
  {
    if l.AcquirePass? { assert GoodCore(s.k, s.mutexes[s.pcs[s.k.current].m]); }
  }

  ghost predicate RequestedSince(ss: seq<Sys>, ls: seq<Label>, i: nat, n: nat) {
    i < n <= |ls| && n <= |ss| && Requests(ss[i], ls[i]) && forall j | i < j < n :: !ls[j].SelectTask?
  }

  /** In any run a context switch is pending if and only if one was asked for and none has been
      done since. */
  lemma {:induction false} PendingExactly(ss: seq<Sys>, ls: seq<Label>, n: nat)
    requires Run(ss, ls) && n <= |ls|
    ensures ss[n].pending <==> exists i: nat :: RequestedSince(ss, ls, i, n)
  {
    if n > 0 {
      var h := n - 1;
      PendingExactly(ss, ls, h);
      BaseInRun(ss, ls, h);
      RequestStep(ss[h], ls[h], ss[h + 1]);
      RequestedSnoc(ss, ls, h, n);
    }
  }

  /** Only the step in between may take an earlier request away. */
  lemma RequestedLater(ss: seq<Sys>, ls: seq<Label>, i: nat, h: nat, n: nat)
    requires n == h + 1 <= |ls| && n <= |ss| && i < h
    ensures RequestedSince(ss, ls, i, n) <==> RequestedSince(ss, ls, i, h) && !ls[h].SelectTask?
  {}

  lemma RequestedSnoc(ss: seq<Sys>, ls: seq<Label>, h: nat, n: nat)
    requires n == h + 1 <= |ls| && n <= |ss|
    ensures (exists i: nat :: RequestedSince(ss, ls, i, n)) <==>
            Requests(ss[h], ls[h]) || (!ls[h].SelectTask? && exists i: nat :: RequestedSince(ss, ls, i, h))
  {
    forall i: nat | i < h
      ensures RequestedSince(ss, ls, i, n) <==> RequestedSince(ss, ls, i, h) && !ls[h].SelectTask?
    {
      RequestedLater(ss, ls, i, h, n);
    }
    assert RequestedSince(ss, ls, h, n) <==> Requests(ss[h], ls[h]);
    assert forall i: nat :: RequestedSince(ss, ls, i, n) ==> i <= h;
    assert forall i: nat :: RequestedSince(ss, ls, i, h) ==> i < h;
  }
}
