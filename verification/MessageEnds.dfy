/** How the calls of the message queue end, over whole runs of any number of tasks: each
    result exactly when, in terms of the arguments of the call and of the clock. */
module MessageEnds {
  import opened Blocking
  import opened MessageQueues

  // ------------------------------------------------------------------------- receive

  /** The present call of receive by a task: its timeout, the tick count at its first step,
      and whether one of its steps has found a message. */
  datatype ReceiveCall = ReceiveCall(timeout: nat, began: Option<nat>, found: bool)

  function ReceiveCallAfter<T>(h: ReceiveCall, s: State<T>, l: Label<T>, c: nat): ReceiveCall {
    match l
    case CallReceive(d, timeout) => if d == c then ReceiveCall(timeout, None, false) else h
    case ReceiveStep(d) =>
      if d == c then
        ReceiveCall(h.timeout, if h.began.None? then Some(s.ticks) else h.began, h.found || s.queue != [])
      else h
    case _ => h
  }

  /** The call of receiver c that is under way after the first i steps. */
  function ReceiveCallOf<T>(ss: seq<State<T>>, ls: seq<Label<T>>, c: nat, i: nat): ReceiveCall
    requires i <= |ls| < |ss|
  {
    if i == 0 then ReceiveCall(0, None, false)
    else ReceiveCallAfter(ReceiveCallOf(ss, ls, c, i - 1), ss[i - 1], ls[i - 1], c)
  }

  /** The place of a receiver fits its call so far. */
  ghost predicate ReceiverFits(r: Receiver, h: ReceiveCall) {
    match r
    case Out => true
    case Test(timeout) => h == ReceiveCall(timeout, None, false)
    case Loop(timeout, end) =>
      h.timeout == timeout != 0 && h.began.Some? && end == h.began.value + timeout && !h.found
    case Commit => h.began.Some? && h.found
  }

  lemma ReceiverFitsStep<T>(s: State<T>, l: Label<T>, s': State<T>, c: nat, h: ReceiveCall)
    requires Step(s, l, s') && c < |s.receivers| && ReceiverFits(s.receivers[c], h)
    ensures |s'.receivers| == |s.receivers| && ReceiverFits(s'.receivers[c], ReceiveCallAfter(h, s, l, c))
  {
    if l.ReceiveStep? {
      ReceiveFits(s, l.c, c, h);
    } else if l.SendStep? {
      SendKeepsReceivers(s, l.p);
    }
  }

  lemma ReceiveFits<T>(s: State<T>, d: nat, c: nat, h: ReceiveCall)
    requires d < |s.receivers| && c < |s.receivers| && ReceiverFits(s.receivers[c], h)
    ensures var s' := Receive(s, d).0;
      |s'.receivers| == |s.receivers| && ReceiverFits(s'.receivers[c], ReceiveCallAfter(h, s, ReceiveStep(d), c))
  {}

  lemma SendKeepsReceivers<T>(s: State<T>, p: nat)
    requires p < |s.senders|
    ensures Send(s, p).0.receivers == s.receivers
  {}

  lemma {:induction false} ReceiverFitsInRun<T>(ss: seq<State<T>>, ls: seq<Label<T>>, c: nat, i: nat)
    requires Run(ss, ls) && i < |ss| && c < |ss[0].receivers|
    ensures c < |ss[i].receivers| && |ss[i].receivers| == |ss[0].receivers|
    ensures ReceiverFits(ss[i].receivers[c], ReceiveCallOf(ss, ls, c, i))
  {
    if i > 0 {
      var h := i - 1;
      ReceiverFitsInRun(ss, ls, c, h);
      ReceiverFitsStep(ss[h], ls[h], ss[h + 1], c, ReceiveCallOf(ss, ls, c, h));
    }
  }

  /** How one step of a call of receive ends it, or not: it succeeds after a step that found a
      message; it fails at its first step on an empty queue with timeout zero; it times out
      when it has found nothing, and finds nothing now, later than its finite timeout after
      its first step; and otherwise it is still under way. */
  ghost predicate ReceiveOutcome<T>(s: State<T>, c: nat, h: ReceiveCall)
    requires c < |s.receivers|
  {
    var (s', r) := Receive(s, c);
    && (r == Some(MsgQueueResult.Success) <==> h.found)
    && (r == Some(ErrorQueueEmpty) <==> h.began.None? && s.queue == [] && h.timeout == 0)
    && (r == Some(MsgQueueResult.Timeout) <==>
          !h.found && h.began.Some? && s.queue == [] && Late(h.timeout, h.began.value, s.ticks))
    && (r.None? || r.value in {MsgQueueResult.Success, ErrorQueueEmpty, MsgQueueResult.Timeout})
    && c < |s'.receivers| && (r.Some? <==> s'.receivers[c].Out?)
    && (!h.found ==> s'.queue == s.queue)
  }

  lemma ReceiveStepEnds<T>(s: State<T>, c: nat, h: ReceiveCall)
    requires c < |s.receivers| && !s.receivers[c].Out? && ReceiverFits(s.receivers[c], h)
    ensures ReceiveOutcome(s, c, h)
  {}

  lemma ReceiveEnds<T>(ss: seq<State<T>>, ls: seq<Label<T>>, j: nat, c: nat)
    requires Run(ss, ls) && j < |ls| && ls[j] == ReceiveStep(c) && c < |ss[0].receivers|
    ensures c < |ss[j].receivers|
    ensures !ss[j].receivers[c].Out? ==> ReceiveOutcome(ss[j], c, ReceiveCallOf(ss, ls, c, j))
  {
    ReceiverFitsInRun(ss, ls, c, j);
    if !ss[j].receivers[c].Out? { ReceiveStepEnds(ss[j], c, ReceiveCallOf(ss, ls, c, j)); }
  }

  // ---------------------------------------------------------------------------- send

  /** The present call of send by a task: its timeout, the tick count when it last came to the
      inner mutex, and the one when it first got it. */
  datatype SendCall = SendCall(timeout: nat, tried: Option<nat>, took: Option<nat>)

  /** A step that ends at the mutex came to it, unless it was there before; one that ends in
      the loop got it. */
  ghost function SendCallAfter<T>(h: SendCall, s: State<T>, l: Label<T>, s': State<T>, p: nat): SendCall
    requires p < |s.senders| && p < |s'.senders|
  {
    match l
    case CallSend(q, _, timeout) => if q == p then SendCall(timeout, None, None) else h
    case SendStep(q) =>
      if q != p then h
      else if s'.senders[p].Lock? && !s.senders[p].Lock? then h.(tried := Some(s.ticks))
      else if s'.senders[p].Loop? && !s.senders[p].Loop? && h.took.None? then h.(took := Some(s.ticks))
      else h
    case _ => h
  }

  ghost function SendCallOf<T>(ss: seq<State<T>>, ls: seq<Label<T>>, p: nat, i: nat): SendCall
    requires i <= |ls| < |ss| && forall j | 0 <= j <= i :: p < |ss[j].senders|
  {
    if i == 0 then SendCall(0, None, None)
    else SendCallAfter(SendCallOf(ss, ls, p, i - 1), ss[i - 1], ls[i - 1], ss[i], p)
  }

  ghost predicate SenderFits<T>(r: Sender<T>, h: SendCall) {
    match r
    case Out => true
    case Test(_, timeout) => h == SendCall(timeout, None, None)
    case Lock(_, timeout, until, deadline) =>
      && h.timeout == timeout != 0 && h.tried.Some? && until == h.tried.value + timeout
      && deadline == (if h.took.Some? then Some(h.took.value + timeout) else None)
    case Loop(_, timeout, end) => h.timeout == timeout != 0 && h.took.Some? && end == h.took.value + timeout
    case Unlocked(_, timeout, end) => h.timeout == timeout != 0 && h.took.Some? && end == h.took.value + timeout
    case Commit(_) => true
  }

  lemma OwnSendFits<T>(s: State<T>, p: nat, h: SendCall)
    requires p < |s.senders| && SenderFits(s.senders[p], h)
    ensures var s' := Send(s, p).0;
      |s'.senders| == |s.senders| && SenderFits(s'.senders[p], SendCallAfter(h, s, SendStep(p), s', p))
  {}

  lemma OtherSendFits<T>(s: State<T>, l: Label<T>, s': State<T>, p: nat)
    requires Step(s, l, s') && p < |s.senders| && l != SendStep(p) && !(l.CallSend? && l.p == p)
    ensures |s'.senders| == |s.senders| && s'.senders[p] == s.senders[p]
  {}

  lemma SenderFitsStep<T>(s: State<T>, l: Label<T>, s': State<T>, p: nat, h: SendCall)
    requires Step(s, l, s') && p < |s.senders| && SenderFits(s.senders[p], h)
    ensures |s'.senders| == |s.senders| && SenderFits(s'.senders[p], SendCallAfter(h, s, l, s', p))
  {
    if l == SendStep(p) {
      OwnSendFits(s, p, h);
    } else if !(l.CallSend? && l.p == p) {
      OtherSendFits(s, l, s', p);
    }
  }

  lemma {:induction false} SenderFitsInRun<T>(ss: seq<State<T>>, ls: seq<Label<T>>, p: nat, i: nat)
    requires Run(ss, ls) && i < |ss| && p < |ss[0].senders|
    ensures forall j | 0 <= j <= i :: p < |ss[j].senders|
    ensures SenderFits(ss[i].senders[p], SendCallOf(ss, ls, p, i))
  {
    if i > 0 {
      var h := i - 1;
      SenderFitsInRun(ss, ls, p, h);
      SenderFitsStep(ss[h], ls[h], ss[h + 1], p, SendCallOf(ss, ls, p, h));
    }
  }

  /** How one step of a call of send ends it, or not. */
  ghost predicate SendOutcome<T>(s: State<T>, p: nat, h: SendCall)
    requires p < |s.senders|
  {
    var (s', r) := Send(s, p);
    var at, full := s.senders[p], |s.queue| == s.cap;
    && (r == Some(MsgQueueResult.Success) <==> at.Commit?)
    && (r == Some(ErrorQueueFull) <==> at.Test? && full && h.timeout == 0)
    && (r == Some(MsgQueueResult.Timeout) <==>
          || (at.Lock? && s.owner == Some(p))
          || (at.Lock? && s.owner.Some? && h.tried.Some? && Late(h.timeout, h.tried.value, s.ticks))
          || (at.Unlocked? && h.took.Some? && Late(h.timeout, h.took.value, s.ticks)))
    && (r.None? || r.value in {MsgQueueResult.Success, ErrorQueueFull, MsgQueueResult.Timeout})
    && p < |s'.senders| && (r.Some? <==> s'.senders[p].Out?)
    && (s'.senders[p].Commit? <==> (at.Test? || at.Loop?) && !full)
    && (s'.senders[p].Lock? <==>
          || (at.Test? && full && h.timeout != 0)
          || (at.Lock? && s.owner.Some? && r.None?)
          || (at.Unlocked? && r.None?))
    && (s'.senders[p].Loop? <==> at.Lock? && s.owner.None?)
    && (s'.senders[p].Unlocked? <==> at.Loop? && full)
    && s'.owner == (if s'.senders[p].Loop? then Some(p) else if s'.senders[p].Unlocked? then None else s.owner)
    && (!at.Commit? ==> s'.queue == s.queue)
  }

  lemma SendStepEnds<T>(s: State<T>, p: nat, h: SendCall)
    requires p < |s.senders| && !s.senders[p].Out? && SenderFits(s.senders[p], h)
    ensures SendOutcome(s, p, h)
  {}

  lemma SendEnds<T>(ss: seq<State<T>>, ls: seq<Label<T>>, j: nat, p: nat)
    requires Run(ss, ls) && j < |ls| && ls[j] == SendStep(p) && p < |ss[0].senders|
    ensures forall i | 0 <= i <= j :: p < |ss[i].senders|
    ensures !ss[j].senders[p].Out? ==> SendOutcome(ss[j], p, SendCallOf(ss, ls, p, j))
  {
    SenderFitsInRun(ss, ls, p, j);
    if !ss[j].senders[p].Out? { SendStepEnds(ss[j], p, SendCallOf(ss, ls, p, j)); }
  }
}
