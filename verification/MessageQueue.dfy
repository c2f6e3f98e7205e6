/** The message queue (Include/MessageQueue.hpp): tests of full and empty made outside the
    critical section, commits made inside it, and an inner mutex around the wait of a
    sender.  Each test, each commit, each mutex operation and each tick is one step; any
    number of senders and receivers interleave. */
module MessageQueues {
  import opened Blocking
  import opened Fifos

  datatype MsgQueueResult = Success | ErrorQueueFull | ErrorQueueEmpty | ErrorCalledFromISR | Timeout

  /** Where a sending task stands: before its first test, at the acquire of the inner
      mutex, at the loop test with the mutex held, after the release in the loop, or at
      the commit.  end is the deadline of the whole wait, until that of one acquire. */
  datatype Sender<T> =
    | Out
    | Test(m: T, timeout: nat)
    | Lock(m: T, timeout: nat, until: nat, deadline: Option<nat>)
    | Loop(m: T, timeout: nat, end: nat)
    | Unlocked(m: T, timeout: nat, end: nat)
    | Commit(m: T)

  datatype Receiver = Out | Test(timeout: nat) | Loop(timeout: nat, end: nat) | Commit

  /** stored and dropped are the messages of the commits that found room and that did not,
      received those of the commits that found one; made counts those that found none. */
  datatype State<T> = State(
    cap: nat,
    queue: seq<T>,
    owner: Option<nat>,
    senders: seq<Sender<T>>,
    receivers: seq<Receiver>,
    ticks: nat,
    stored: seq<T>,
    dropped: seq<T>,
    received: seq<T>,
    made: nat)

  datatype Label<T> =
    | CallSend(p: nat, m: T, timeout: nat)
    | SendStep(p: nat)
    | SendFromISR(m: T)
    | CallReceive(c: nat, timeout: nat)
    | ReceiveStep(c: nat)
    | Tick

  // ------------------------------------------------------------------------- steps

  predicate Expired(timeout: nat, end: nat, ticks: nat) {
    timeout != WAIT_FOREVER && ticks > end
  }

  /** The commit of a send: the buffer drops the message silently when it is full. */
  function Store<T>(s: State<T>, m: T): State<T> {
    if |s.queue| < s.cap then s.(queue := s.queue + [m], stored := s.stored + [m])
    else s.(dropped := s.dropped + [m])
  }

  /** The commit of a receive: an empty buffer answers with a default message. */
  function Fetch<T>(s: State<T>): State<T> {
    if s.queue != [] then s.(queue := s.queue[1..], received := s.received + [s.queue[0]])
    else s.(made := s.made + 1)
  }

  function SetSender<T>(s: State<T>, p: nat, pc: Sender<T>): State<T>
    requires p < |s.senders|
  {
    s.(senders := s.senders[p := pc])
  }

  function SetReceiver<T>(s: State<T>, c: nat, pc: Receiver): State<T>
    requires c < |s.receivers|
  {
    s.(receivers := s.receivers[c := pc])
  }

  /** The next step of sender p, with the result its call returns if it ends there. */
  function Send<T>(s: State<T>, p: nat): (State<T>, Option<MsgQueueResult>)
    requires p < |s.senders|
  {
    match s.senders[p]
    case Out => (s, None)
    case Test(m, timeout) =>
      if |s.queue| != s.cap then (SetSender(s, p, Sender.Commit(m)), None)
      else if timeout == 0 then (SetSender(s, p, Sender.Out), Some(ErrorQueueFull))
      else (SetSender(s, p, Lock(m, timeout, s.ticks + timeout, None)), None)
    case Lock(m, timeout, until, deadline) =>
      if s.owner == Some(p) then (SetSender(s, p, Sender.Out), Some(MsgQueueResult.Timeout))
      else if s.owner == None then
        var end := if deadline.Some? then deadline.value else s.ticks + timeout;
        (SetSender(s, p, Sender.Loop(m, timeout, end)).(owner := Some(p)), None)
      else if Expired(timeout, until, s.ticks) then
        (SetSender(s, p, Sender.Out), Some(MsgQueueResult.Timeout))
      else (s, None)
    case Loop(m, timeout, end) =>
      if |s.queue| != s.cap then (SetSender(s, p, Sender.Commit(m)), None)
      else (SetSender(s, p, Unlocked(m, timeout, end)).(owner := None), None)
    case Unlocked(m, timeout, end) =>
      if Expired(timeout, end, s.ticks) then (SetSender(s, p, Sender.Out), Some(MsgQueueResult.Timeout))
      else (SetSender(s, p, Lock(m, timeout, s.ticks + timeout, Some(end))), None)
    case Commit(m) => (Store(SetSender(s, p, Sender.Out), m), Some(MsgQueueResult.Success))
  }

  function Receive<T>(s: State<T>, c: nat): (State<T>, Option<MsgQueueResult>)
    requires c < |s.receivers|
  {
    match s.receivers[c]
    case Out => (s, None)
    case Test(timeout) =>
      if s.queue != [] then (SetReceiver(s, c, Receiver.Commit), None)
      else if timeout == 0 then (SetReceiver(s, c, Receiver.Out), Some(ErrorQueueEmpty))
      else (SetReceiver(s, c, Receiver.Loop(timeout, s.ticks + timeout)), None)
    case Loop(timeout, end) =>
      if s.queue != [] then (SetReceiver(s, c, Receiver.Commit), None)
      else if Expired(timeout, end, s.ticks) then (SetReceiver(s, c, Receiver.Out), Some(MsgQueueResult.Timeout))
      else (s, None)
    case Commit => (Fetch(SetReceiver(s, c, Receiver.Out)), Some(MsgQueueResult.Success))
  }

  /** A send from an interrupt tests and commits without anything in between; for nested
      interrupts see InterruptIsSender. */
  function FromISR<T>(s: State<T>, m: T): (State<T>, MsgQueueResult) {
    if |s.queue| == s.cap then (s, ErrorQueueFull) else (Store(s, m), MsgQueueResult.Success)
  }

  predicate Enabled<T>(s: State<T>, l: Label<T>) {
    match l
    case CallSend(p, _, _) => p < |s.senders| && s.senders[p].Out?
    case SendStep(p) => p < |s.senders|
    case SendFromISR(_) => true
    case CallReceive(c, _) => c < |s.receivers| && s.receivers[c].Out?
    case ReceiveStep(c) => c < |s.receivers|
    case Tick => true
  }

  function After<T>(s: State<T>, l: Label<T>): State<T>
    requires Enabled(s, l)
  {
    match l
    case CallSend(p, m, timeout) => SetSender(s, p, Sender.Test(m, timeout))
    case SendStep(p) => Send(s, p).0
    case SendFromISR(m) => FromISR(s, m).0
    case CallReceive(c, timeout) => SetReceiver(s, c, Receiver.Test(timeout))
    case ReceiveStep(c) => Receive(s, c).0
    case Tick => s.(ticks := s.ticks + 1)
  }

  ghost predicate Init<T>(s: State<T>) {
    && s.queue == [] && s.owner == None && s.stored == [] && s.dropped == [] && s.received == [] && s.made == 0
    && (forall p | 0 <= p < |s.senders| :: s.senders[p].Out?)
    && (forall c | 0 <= c < |s.receivers| :: s.receivers[c].Out?)
  }

  ghost predicate Step<T>(s: State<T>, l: Label<T>, s': State<T>) {
    Enabled(s, l) && s' == After(s, l)
  }

  /** A send from an interrupt is that of a sender with timeout zero, with nothing between
      its test and its commit: an interrupt that a nested one does interrupt there is
      covered as such a sender. */
  lemma InterruptIsSender<T>(s: State<T>, p: nat, m: T) returns (s1: State<T>, s2: State<T>, s3: State<T>)
    requires p < |s.senders| && s.senders[p].Out?
    ensures Step(s, CallSend(p, m, 0), s1) && Step(s1, SendStep(p), s2) && p < |s1.senders|
    ensures if FromISR(s, m).1 == ErrorQueueFull
            then s2 == After(s, SendFromISR(m)) && Send(s1, p).1 == Some(ErrorQueueFull)
            else
              && Step(s2, SendStep(p), s3) && s3 == After(s, SendFromISR(m))
              && p < |s2.senders| && Send(s2, p).1 == Some(FromISR(s, m).1)
  {
    s1 := After(s, CallSend(p, m, 0));
    s2 := After(s1, SendStep(p));
    s3 := After(s2, SendStep(p));
    assert s.senders[p := Sender.Test(m, 0)][p := Sender.Out] == s.senders;
    assert s.senders[p := Sender.Test(m, 0)][p := Sender.Commit(m)][p := Sender.Out] == s.senders;
  }

  ghost predicate Run<T>(ss: seq<State<T>>, ls: seq<Label<T>>) {
    && |ss| == |ls| + 1 && Init(ss[0])
    && forall i | 0 <= i < |ls| :: Step(ss[i], ls[i], ss[i + 1])
  }

  // ------------------------------------------------ conservation, for any number of tasks

  /** What was stored is what was received followed by what is still queued, in order. */
  ghost predicate Conserved<T>(s: State<T>) {
    s.stored == s.received + s.queue && |s.queue| <= s.cap
  }

  lemma StoreConserves<T>(s: State<T>, m: T)
    requires Conserved(s)
    ensures Conserved(Store(s, m))
  {
    assert s.received + (s.queue + [m]) == s.received + s.queue + [m];
  }

  lemma FetchConserves<T>(s: State<T>)
    requires Conserved(s)
    ensures Conserved(Fetch(s))
  {
    if s.queue != [] {
      assert s.received + s.queue == s.received + [s.queue[0]] + s.queue[1..];
    }
  }

  lemma ConservedStep<T>(s: State<T>, l: Label<T>, s': State<T>)
    requires Conserved(s) && Step(s, l, s')
    ensures Conserved(s') && s'.cap == s.cap
  {
    match l
    case SendStep(p) =>
      if s.senders[p].Commit? { StoreConserves(SetSender(s, p, Sender.Out), s.senders[p].m); }
    case SendFromISR(m) => StoreConserves(s, m);
    case ReceiveStep(c) =>
      if s.receivers[c].Commit? { FetchConserves(SetReceiver(s, c, Receiver.Out)); }
    case _ =>
  }

  /** For any number of senders and receivers, in every reachable state: no stored message
      is lost, duplicated or reordered. */
  lemma {:induction false} StoredConserved<T>(ss: seq<State<T>>, ls: seq<Label<T>>, i: nat)
    requires Run(ss, ls) && i < |ss|
    ensures Conserved(ss[i]) && ss[i].cap == ss[0].cap
  {
    if i > 0 {
      StoredConserved(ss, ls, i - 1);
      ConservedStep(ss[i - 1], ls[i - 1], ss[i]);
    }
  }

  // --------------------------------------------------------- when messages are dropped

  /** Step l commits a message to a full queue. */
  ghost predicate Drops<T>(s: State<T>, l: Label<T>) {
    l.SendStep? && l.p < |s.senders| && s.senders[l.p].Commit? && |s.queue| >= s.cap
  }

  ghost predicate Makes<T>(s: State<T>, l: Label<T>) {
    l.ReceiveStep? && l.c < |s.receivers| && s.receivers[l.c].Commit? && s.queue == []
  }

  lemma LossStep<T>(s: State<T>, l: Label<T>, s': State<T>)
    requires Step(s, l, s') && Conserved(s)
    ensures s'.dropped == [] <==> s.dropped == [] && !Drops(s, l)
    ensures s'.made == 0 <==> s.made == 0 && !Makes(s, l)
  {
    if Drops(s, l) { assert |s'.dropped| > 0; }
  }

  /** A successful send loses its message exactly when its commit finds the queue full, and
      a successful receive is made up exactly when its commit finds it empty. */
  lemma {:induction false} LossExactly<T>(ss: seq<State<T>>, ls: seq<Label<T>>, n: nat)
    requires Run(ss, ls) && n < |ss|
    ensures ss[n].dropped == [] <==> forall i | 0 <= i < n :: !Drops(ss[i], ls[i])
    ensures ss[n].made == 0 <==> forall i | 0 <= i < n :: !Makes(ss[i], ls[i])
  {
    if n > 0 {
      StoredConserved(ss, ls, n - 1);
      LossExactly(ss, ls, n - 1);
      LossStep(ss[n - 1], ls[n - 1], ss[n]);
    }
  }

  // ----------------------------------------------------------- when a loss can follow

  /** The senders past their test and before their commit. */
  ghost function Committing<T>(s: State<T>): set<nat> {
    set p: nat | p < |s.senders| && s.senders[p].Commit?
  }

  /** A step in which no sender passes a test: receives, ticks, commits and waits. */
  ghost predicate Settling<T>(s: State<T>, l: Label<T>) {
    && Enabled(s, l) && !l.SendFromISR?
    && (l.SendStep? ==> Committing(After(s, l)) <= Committing(s))
  }

  ghost predicate Course<T>(s: State<T>, ss: seq<State<T>>, ls: seq<Label<T>>) {
    && |ss| == |ls| + 1 && ss[0] == s
    && forall i | 0 <= i < |ls| :: Step(ss[i], ls[i], ss[i + 1]) && Settling(ss[i], ls[i])
  }

  /** Some course of events from s, in which nobody passes a test any more, loses a
      message. */
  ghost predicate LossFollows<T(!new)>(s: State<T>) {
    exists ss, ls, i :: Course(s, ss, ls) && 0 <= i < |ls| && Drops(ss[i], ls[i])
  }

  lemma OneCommits<T>(s: State<T>, p: nat)
    requires Enabled(s, SendStep(p)) && s.senders[p].Commit?
    ensures p in Committing(s) && Committing(Send(s, p).0) == Committing(s) - {p}
    ensures |Committing(Send(s, p).0)| == |Committing(s)| - 1
  {
    assert p in Committing(s);
    assert Committing(Send(s, p).0) == Committing(s) - {p};
  }

  lemma NobodyCommits<T>(s: State<T>, l: Label<T>)
    requires Settling(s, l) && !(l.SendStep? && s.senders[l.p].Commit?)
    ensures |Committing(After(s, l))| <= |Committing(s)| && |After(s, l).queue| <= |s.queue|
  {
    if !l.SendStep? { assert Committing(After(s, l)) == Committing(s); }
    Subset(Committing(After(s, l)), Committing(s));
  }

  lemma FewerCommitting<T>(s: State<T>, l: Label<T>, s': State<T>)
    requires Step(s, l, s') && Settling(s, l) && Conserved(s)
    requires |Committing(s)| <= s.cap - |s.queue|
    ensures |Committing(s')| <= s'.cap - |s'.queue| && !Drops(s, l)
  {
    ConservedStep(s, l, s');
    if l.SendStep? && s.senders[l.p].Commit? {
      OneCommits(s, l.p);
    } else {
      NobodyCommits(s, l);
    }
  }

  lemma {:induction false} Subset(a: set<nat>, b: set<nat>)
    requires a <= b
    ensures |a| <= |b|
  {
    if a != {} {
      var x :| x in a;
      Subset(a - {x}, b - {x});
    }
  }

  lemma {:induction false} RoomStays<T>(s: State<T>, ss: seq<State<T>>, ls: seq<Label<T>>, i: nat)
    requires Course(s, ss, ls) && Conserved(s) && |Committing(s)| <= s.cap - |s.queue| && i < |ss|
    ensures Conserved(ss[i]) && |Committing(ss[i])| <= ss[i].cap - |ss[i].queue|
    ensures i < |ls| ==> !Drops(ss[i], ls[i])
  {
    if i > 0 {
      RoomStays(s, ss, ls, i - 1);
      ConservedStep(ss[i - 1], ls[i - 1], ss[i - 1 + 1]);
      FewerCommitting(ss[i - 1], ls[i - 1], ss[i - 1 + 1]);
    }
    if i < |ls| { FewerCommitting(ss[i], ls[i], ss[i + 1]); }
  }

  /** Letting all of them commit fills the queue before the last one. */
  lemma {:induction false} Overrun<T>(s: State<T>) returns (ss: seq<State<T>>, ls: seq<Label<T>>, i: nat)
    requires |Committing(s)| > s.cap - |s.queue|
    requires |s.queue| <= s.cap
    ensures Course(s, ss, ls) && i < |ls| && Drops(ss[i], ls[i])
    decreases |Committing(s)|
  {
    var p :| p in Committing(s);
    var s1 := After(s, SendStep(p));
    assert Committing(s1) == Committing(s) - {p};
    if |s.queue| == s.cap {
      ss, ls, i := [s, s1], [SendStep(p)], 0;
    } else {
      var ss1, ls1, i1 := Overrun(s1);
      ss, ls, i := [s] + ss1, [SendStep(p)] + ls1, i1 + 1;
      forall j | 0 <= j < |ls|
        ensures Step(ss[j], ls[j], ss[j + 1]) && Settling(ss[j], ls[j])
      {
        if j > 0 { assert Step(ss1[j - 1], ls1[j - 1], ss1[j - 1 + 1]); }
      }
    }
  }

  /** Without any further test, a loss can still follow from a state if and only if the
      senders past their test outnumber the free slots. */
  lemma LossFollowsExactly<T(!new)>(s: State<T>)
    requires Conserved(s)
    ensures LossFollows(s) <==> |Committing(s)| > s.cap - |s.queue|
  {
    if |Committing(s)| > s.cap - |s.queue| {
      var ss, ls, i := Overrun(s);
    } else {
      forall ss, ls, i | Course(s, ss, ls) && 0 <= i < |ls|
        ensures !Drops(ss[i], ls[i])
      {
        RoomStays(s, ss, ls, i);
      }
    }
  }

  // ------------------------------------------------------- one sender and one receiver

  /** At most one task sends and none while an interrupt does; at most one receives. */
  ghost predicate Single<T>(ss: seq<State<T>>, ls: seq<Label<T>>) {
    && |ss| > 0 && |ss[0].senders| <= 1 && |ss[0].receivers| <= 1
    && (|ss[0].senders| == 1 ==> forall i | 0 <= i < |ls| :: !ls[i].SendFromISR?)
  }

  /** A sender about to commit has room, a receiver about to commit has a message. */
  ghost predicate Ready<T>(s: State<T>) {
    && (forall p | 0 <= p < |s.senders| && s.senders[p].Commit? :: |s.queue| < s.cap)
    && (forall c | 0 <= c < |s.receivers| && s.receivers[c].Commit? :: s.queue != [])
  }

  lemma ReadySend<T>(s: State<T>, p: nat)
    requires Enabled(s, SendStep(p)) && Ready(s) && Conserved(s) && |s.senders| <= 1
    ensures Ready(Send(s, p).0) && !Drops(s, SendStep(p))
  {}

  lemma ReadyReceive<T>(s: State<T>, c: nat)
    requires Enabled(s, ReceiveStep(c)) && Ready(s) && Conserved(s) && |s.receivers| <= 1
    ensures Ready(Receive(s, c).0) && !Makes(s, ReceiveStep(c))
  {}

  lemma ReadyElse<T>(s: State<T>, l: Label<T>)
    requires Enabled(s, l) && !l.SendStep? && !l.ReceiveStep? && Ready(s) && Conserved(s)
    requires l.SendFromISR? ==> |s.senders| == 0
    ensures Ready(After(s, l))
  {}

  lemma ReadyStep<T>(s: State<T>, l: Label<T>, s': State<T>)
    requires Step(s, l, s') && Ready(s) && Conserved(s)
    requires |s.senders| <= 1 && |s.receivers| <= 1 && (|s.senders| == 1 ==> !l.SendFromISR?)
    ensures Ready(s') && !Drops(s, l) && !Makes(s, l)
  {
    match l
    case SendStep(p) => ReadySend(s, p);
    case ReceiveStep(c) => ReadyReceive(s, c);
    case _ => ReadyElse(s, l);
  }

  lemma SameTasks<T>(s: State<T>, l: Label<T>, s': State<T>)
    requires Step(s, l, s')
    ensures |s'.senders| == |s.senders| && |s'.receivers| == |s.receivers|
  {}

  lemma {:induction false} TasksFixed<T>(ss: seq<State<T>>, ls: seq<Label<T>>, i: nat)
    requires Run(ss, ls) && i < |ss|
    ensures |ss[i].senders| == |ss[0].senders| && |ss[i].receivers| == |ss[0].receivers|
  {
    if i > 0 {
      TasksFixed(ss, ls, i - 1);
      SameTasks(ss[i - 1], ls[i - 1], ss[i]);
    }
  }

  /** One step of a run of a single sender and a single receiver. */
  lemma ReadyStepInRun<T>(ss: seq<State<T>>, ls: seq<Label<T>>, i: nat)
    requires Run(ss, ls) && Single(ss, ls) && i < |ls| && Ready(ss[i])
    ensures Ready(ss[i + 1]) && !Drops(ss[i], ls[i]) && !Makes(ss[i], ls[i])
  {
    TasksFixed(ss, ls, i);
    StoredConserved(ss, ls, i);
    ReadyStep(ss[i], ls[i], ss[i + 1]);
  }

  lemma {:induction false} SingleReady<T>(ss: seq<State<T>>, ls: seq<Label<T>>, i: nat)
    requires Run(ss, ls) && Single(ss, ls) && i < |ss|
    ensures Ready(ss[i])
    ensures i < |ls| ==> !Drops(ss[i], ls[i]) && !Makes(ss[i], ls[i])
  {
    if i > 0 {
      var h := i - 1;
      SingleReady(ss, ls, h);
      ReadyStepInRun(ss, ls, h);
    }
    if i < |ls| { ReadyStepInRun(ss, ls, i); }
  }

  /** The message passed in the last call of send by sender p in the first i steps. */
  function LastMessage<T>(ls: seq<Label<T>>, p: nat, i: nat): Option<T>
    requires i <= |ls|
  {
    if i == 0 then None
    else if ls[i - 1].CallSend? && ls[i - 1].p == p then Some(ls[i - 1].m)
    else LastMessage(ls, p, i - 1)
  }

  /** Every place of a sender in a call carries the message of that call. */
  ghost predicate Carries<T>(s: State<T>, p: nat, last: Option<T>) {
    p < |s.senders| && !s.senders[p].Out? ==> last == Some(s.senders[p].m)
  }

  lemma CarriesStep<T>(s: State<T>, l: Label<T>, s': State<T>, p: nat, last: Option<T>)
    requires Step(s, l, s') && Carries(s, p, last)
    ensures Carries(s', p, if l.CallSend? && l.p == p then Some(l.m) else last)
  {}

  /** Whatever a sender does between its call and its commit, it carries the message it was
      called with. */
  lemma {:induction false} MessageCarried<T>(ss: seq<State<T>>, ls: seq<Label<T>>, i: nat, p: nat)
    requires Run(ss, ls) && i < |ss|
    ensures Carries(ss[i], p, LastMessage(ls, p, i))
  {
    if i > 0 {
      var h := i - 1;
      MessageCarried(ss, ls, h, p);
      CarriesStep(ss[h], ls[h], ss[h + 1], p, LastMessage(ls, p, h));
    }
  }

  /** before, with the message added that step l sends successfully, if it does; last is the
      message of the sender's last call. */
  ghost function SentAfter<T>(before: seq<Option<T>>, s: State<T>, l: Label<T>, last: Option<T>): seq<Option<T>> {
    match l
    case SendStep(p) =>
      if p < |s.senders| && Send(s, p).1 == Some(MsgQueueResult.Success) then before + [last] else before
    case SendFromISR(m) => if FromISR(s, m).1 == MsgQueueResult.Success then before + [Some(m)] else before
    case _ => before
  }

  /** The messages with which the sends were called that returned Success in the first i
      steps, in order. */
  ghost function Sent<T>(ss: seq<State<T>>, ls: seq<Label<T>>, i: nat): seq<Option<T>>
    requires i <= |ls| < |ss|
  {
    if i == 0 then [] else
      var l := ls[i - 1];
      SentAfter(Sent(ss, ls, i - 1), ss[i - 1], l, if l.SendStep? then LastMessage(ls, l.p, i - 1) else None)
  }

  /** before, with what step l delivers, if it is a successful receive; None stands for the
      default message of an empty buffer. */
  ghost function DeliveredAfter<T>(before: seq<Option<T>>, s: State<T>, l: Label<T>): seq<Option<T>> {
    if l.ReceiveStep? && l.c < |s.receivers| && Receive(s, l.c).1 == Some(MsgQueueResult.Success)
    then before + [if s.queue == [] then None else Some(s.queue[0])] else before
  }

  /** What the receives that returned Success delivered in the first i steps. */
  ghost function Delivered<T>(ss: seq<State<T>>, ls: seq<Label<T>>, i: nat): seq<Option<T>>
    requires i <= |ls| < |ss|
  {
    if i == 0 then [] else DeliveredAfter(Delivered(ss, ls, i - 1), ss[i - 1], ls[i - 1])
  }

  /** d are the given messages, one by one. */
  ghost predicate AllReal<T>(d: seq<Option<T>>, messages: seq<T>) {
    |d| == |messages| && forall k | 0 <= k < |d| :: d[k] == Some(messages[k])
  }

  lemma SentStep<T>(before: seq<Option<T>>, s: State<T>, l: Label<T>, s': State<T>, last: Option<T>)
    requires Step(s, l, s') && !Drops(s, l) && |s.queue| <= s.cap && AllReal(before, s.stored)
    requires l.SendStep? ==> Carries(s, l.p, last)
    ensures AllReal(SentAfter(before, s, l, last), s'.stored)
  {}

  lemma DeliveredStep<T>(before: seq<Option<T>>, s: State<T>, l: Label<T>, s': State<T>)
    requires Step(s, l, s') && !Makes(s, l) && AllReal(before, s.received)
    ensures AllReal(DeliveredAfter(before, s, l), s'.received)
  {}

  lemma TrafficStep<T>(ss: seq<State<T>>, ls: seq<Label<T>>, h: nat, i: nat)
    requires Run(ss, ls) && i == h + 1 < |ss| && Conserved(ss[h]) && !Drops(ss[h], ls[h]) && !Makes(ss[h], ls[h])
    requires AllReal(Sent(ss, ls, h), ss[h].stored) && AllReal(Delivered(ss, ls, h), ss[h].received)
    ensures AllReal(Sent(ss, ls, i), ss[i].stored) && AllReal(Delivered(ss, ls, i), ss[i].received)
  {
    var l := ls[h];
    var last := if l.SendStep? then LastMessage(ls, l.p, h) else None;
    if l.SendStep? { MessageCarried(ss, ls, h, l.p); }
    SentStep(Sent(ss, ls, h), ss[h], l, ss[i], last);
    DeliveredStep(Delivered(ss, ls, h), ss[h], l, ss[i]);
  }

  lemma {:induction false} Traffic<T>(ss: seq<State<T>>, ls: seq<Label<T>>, i: nat)
    requires Run(ss, ls) && Single(ss, ls) && i < |ss|
    ensures AllReal(Sent(ss, ls, i), ss[i].stored) && AllReal(Delivered(ss, ls, i), ss[i].received)
  {
    if i > 0 {
      var h := i - 1;
      Traffic(ss, ls, h);
      StoredConserved(ss, ls, h);
      SingleReady(ss, ls, h);
      TrafficStep(ss, ls, h, i);
    } else {
      assert Init(ss[0]);
    }
  }

  /** With a single sender and a single receiver, whatever the interleaving of the tests
      with the commits: the messages with which the successful sends were called, in order,
      are the messages the successful receives delivered followed by the contents of the
      queue. */
  lemma NothingLost<T>(ss: seq<State<T>>, ls: seq<Label<T>>, i: nat)
    requires Run(ss, ls) && Single(ss, ls) && i < |ss|
    ensures AllReal(Sent(ss, ls, i), ss[i].received + ss[i].queue)
    ensures AllReal(Delivered(ss, ls, i), ss[i].received)
    ensures ss[i].dropped == [] && ss[i].made == 0
  {
    Traffic(ss, ls, i);
    StoredConserved(ss, ls, i);
    LossExactly(ss, ls, i);
    forall j | 0 <= j < i
      ensures !Drops(ss[j], ls[j]) && !Makes(ss[j], ls[j])
    {
      SingleReady(ss, ls, j);
    }
  }

  /** Two senders and room for one message: both test, both commit, both are told success,
      and the second message is gone. */
  lemma TwoSendersLose() returns (ss: seq<State<nat>>, ls: seq<Label<nat>>)
    ensures Run(ss, ls) && |ls| == 6 && |ss[4].senders| == |ss[5].senders| == 2
    ensures ls[4] == SendStep(0) && Send(ss[4], 0).1 == Some(MsgQueueResult.Success)
    ensures ls[5] == SendStep(1) && Send(ss[5], 1).1 == Some(MsgQueueResult.Success)
    ensures ss[6].queue == [7] && ss[6].dropped == [8]
  {
    var s0 := State<nat>.State(1, [], None, [Sender.Out, Sender.Out], [], 0, [], [], [], 0);
    ls := [CallSend(0, 7, 0), CallSend(1, 8, 0), SendStep(0), SendStep(1), SendStep(0), SendStep(1)];
    var s1 := After(s0, ls[0]);
    var s2 := After(s1, ls[1]);
    var s3 := After(s2, ls[2]);
    var s4 := After(s3, ls[3]);
    var s5 := After(s4, ls[4]);
    ss := [s0, s1, s2, s3, s4, s5, After(s5, ls[5])];
  }

  // --------------------------------------------------------------- the inner mutex

  /** Sender p holds the inner mutex and is not in the loop, the only place it lets go. */
  ghost predicate Kept<T>(s: State<T>, p: nat) {
    p < |s.senders| && s.owner == Some(p) && !s.senders[p].Loop?
  }

  lemma KeptStep<T>(s: State<T>, l: Label<T>, s': State<T>, p: nat)
    requires Step(s, l, s') && Kept(s, p)
    requires l.SendStep? ==> l.p < |s.senders| && (s.senders[l.p].Loop? ==> l.p == p)
    ensures Kept(s', p)
  {}

  /** Only the owner of the mutex is in the loop. */
  ghost predicate LoopOwns<T>(s: State<T>) {
    forall p | 0 <= p < |s.senders| && s.senders[p].Loop? :: s.owner == Some(p)
  }

  lemma {:induction false} LoopOwnsInRun<T>(ss: seq<State<T>>, ls: seq<Label<T>>, i: nat)
    requires Run(ss, ls) && i < |ss|
    ensures LoopOwns(ss[i])
  {
    if i > 0 {
      LoopOwnsInRun(ss, ls, i - 1);
      assert Step(ss[i - 1], ls[i - 1], ss[i]);
    }
  }

  /** A send that waited and succeeded never gives the mutex back, and from then on no
      send ever gets into the waiting loop again, whoever sends. */
  lemma {:induction false} KeptForever<T>(ss: seq<State<T>>, ls: seq<Label<T>>, i: nat, j: nat, p: nat)
    requires Run(ss, ls) && i <= j < |ss| && Kept(ss[i], p)
    ensures Kept(ss[j], p) && forall q | 0 <= q < |ss[j].senders| :: !ss[j].senders[q].Loop?
  {
    LoopOwnsInRun(ss, ls, j);
    if i < j {
      KeptForever(ss, ls, i, j - 1, p);
      assert Step(ss[j - 1], ls[j - 1], ss[j]);
      KeptStep(ss[j - 1], ls[j - 1], ss[j], p);
    }
  }

  /** A send by p that finds the queue full and may wait is told Timeout without waiting
      exactly when p already holds the mutex. */
  lemma TimeoutAtOnce<T>(s: State<T>, p: nat, m: T, timeout: nat)
    requires p < |s.senders| && s.senders[p] == Sender.Test(m, timeout) && timeout != 0
    requires |s.queue| == s.cap
    ensures var s1 := Send(s, p).0;
      Send(s, p).1 == None && p < |s1.senders| &&
      (Send(s1, p).1 == Some(MsgQueueResult.Timeout) <==> s.owner == Some(p))
  {}

  /** The first waiting send that succeeds leaves its sender holding the mutex. */
  lemma WaitKeeps<T>(ss: seq<State<T>>, ls: seq<Label<T>>, i: nat, p: nat)
    requires Run(ss, ls) && i < |ls| && ls[i] == SendStep(p) && p < |ss[i].senders|
    requires ss[i].senders[p].Loop? && |ss[i].queue| != ss[i].cap
    ensures Kept(ss[i + 1], p) && ss[i + 1].senders[p].Commit?
    ensures LastMessage(ls, p, i) == Some(ss[i + 1].senders[p].m)
  {
    LoopOwnsInRun(ss, ls, i);
    MessageCarried(ss, ls, i, p);
    assert Step(ss[i], ls[i], ss[i + 1]);
  }

  // ------------------------------------------------------------------------- the class

  class MessageQueue<T> {
    const queue: Fifo<T>

    ghost predicate Valid()
      reads this, queue, queue.buffer
    {
      queue.Valid()
    }

    /** The queue as a state in which nobody sends or receives. */
    ghost function View(): State<T>
      requires Valid()
      reads this, queue, queue.buffer
    {
      State(queue.MAX_ITEMS, queue.Contents(), None, [], [], 0, [], [], [], 0)
    }

    constructor (maxMessages: nat, noMessage: T)
      requires 0 < maxMessages
      ensures Valid() && Init(View()) && View().cap == maxMessages && queue.none == noMessage
      ensures fresh(queue) && fresh(queue.buffer)
    {
      queue := new Fifo<T>(maxMessages, noMessage);
    }

    /** The critical section of send. */
    method CommitSend(message: T)
      requires Valid()
      modifies queue`tail, queue`size, queue`written, queue.buffer
      ensures Valid() && View().queue == Store(old(View()), message).queue
    {
      queue.Enqueue(message);
    }

    /** The critical section of receive. */
    method CommitReceive() returns (message: T)
      requires Valid()
      modifies queue`head, queue`size
      ensures Valid() && View().queue == Fetch(old(View())).queue
      ensures message == if old(View()).queue == [] then queue.none else old(View()).queue[0]
    {
      ghost var was := queue.Contents();
      message := queue.Dequeue();
      if was != [] { assert was[0] == message && queue.Contents() == was[1..]; }
    }

    method SendISR(message: T) returns (r: MsgQueueResult)
      requires Valid()
      modifies queue`tail, queue`size, queue`written, queue.buffer
      ensures Valid() && View().queue == FromISR(old(View()), message).0.queue
      ensures r == FromISR(old(View()), message).1
    {
      var full := queue.IsFull();
      if full {
        return ErrorQueueFull;
      }
      CommitSend(message);
      r := MsgQueueResult.Success;
    }

    /** send by a task that nothing interrupts; None: it has to wait. */
    method TrySend(message: T, timeout: nat) returns (r: Option<MsgQueueResult>)
      requires Valid()
      modifies queue`tail, queue`size, queue`written, queue.buffer
      ensures Valid()
      ensures r == Some(MsgQueueResult.Success) ==> View().queue == old(View()).queue + [message]
      ensures r != Some(MsgQueueResult.Success) ==> View().queue == old(View()).queue
      ensures r == Some(ErrorQueueFull) <==> |old(View()).queue| == View().cap && timeout == 0
      ensures r == None <==> |old(View()).queue| == View().cap && timeout != 0
      ensures r.None? || r.value in {MsgQueueResult.Success, ErrorQueueFull}
    {
      var full := queue.IsFull();
      if full {
        if timeout == 0 {
          return Some(ErrorQueueFull);
        }
        return None;
      }
      CommitSend(message);
      r := Some(MsgQueueResult.Success);
    }

    /** receive by a task that nothing interrupts; None: it has to wait. */
    method TryReceive(timeout: nat, inISR: bool) returns (r: Option<MsgQueueResult>, message: T)
      requires Valid()
      modifies queue`head, queue`size
      ensures Valid()
      ensures r == Some(MsgQueueResult.ErrorCalledFromISR) <==> inISR
      ensures r == Some(MsgQueueResult.Success) <==> !inISR && old(View()).queue != []
      ensures r == Some(ErrorQueueEmpty) <==> !inISR && old(View()).queue == [] && timeout == 0
      ensures r == Some(MsgQueueResult.Success) ==> [message] + View().queue == old(View()).queue
      ensures r != Some(MsgQueueResult.Success) ==> View().queue == old(View()).queue
    {
      message := queue.none;
      if inISR {
        return Some(MsgQueueResult.ErrorCalledFromISR), message;
      }
      var empty := queue.IsEmpty();
      if empty {
        if timeout == 0 {
          return Some(ErrorQueueEmpty), message;
        }
        return None, message;
      }
      message := CommitReceive();
      r := Some(MsgQueueResult.Success);
    }
  }
}
