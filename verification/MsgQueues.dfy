/**
 The message queue as a bounded FIFO: the reference for kernel/msg_q.c.  One
 wait queue serves both senders and receivers.
 */
module MsgQueues {
  import opened Memory
  import opened WaitQueues
  import opened Wrappers

  type Msg = seq<Byte>

  datatype Pending = Sending(msg: Msg) | Receiving

  type Waiters = seq<Waiter<Pending>>

  /** left and entered are history: the messages that have come in, and those that have gone out again,
      delivered to a thread or purged. */
  datatype Queue = Queue(
    maxMsgs: nat,
    messages: seq<Msg>,
    waiters: Waiters,
    entered: seq<Msg>,
    left: seq<Msg>)

  datatype Result =
    | Done
    | NoMsg    // -ENOMSG
    | Blocked  // the caller is pended

  /** What a call returns: the message a get has taken, and the waiter it has made ready: a receiver
      that now holds the message put, or a sender whose message was taken in. */
  datatype Outcome = Outcome(result: Result, msg: Msg, woken: Option<ThreadId>)

  function Empty(maxMsgs: nat): Queue { Queue(maxMsgs, [], [], [], []) }

  /** k_msgq_put. */
  function Put(q: Queue, tid: ThreadId, prio: int, msg: Msg, noWait: bool): (Queue, Outcome) {
    if |q.messages| < q.maxMsgs then
      if q.waiters != [] then
        (q.(waiters := q.waiters[1..], entered := q.entered + [msg], left := q.left + [msg]),
         Outcome(Done, msg, Some(q.waiters[0].tid)))
      else (q.(messages := q.messages + [msg], entered := q.entered + [msg]), Outcome(Done, msg, None))
    else if noWait then (q, Outcome(NoMsg, msg, None))
    else (q.(waiters := Pend(q.waiters, Waiter(tid, prio, Sending(msg)))), Outcome(Blocked, msg, None))
  }

  /** k_msgq_get. */
  function Get(q: Queue, tid: ThreadId, prio: int, noWait: bool): (Queue, Outcome) {
    if q.messages != [] then
      var q1 := q.(messages := q.messages[1..], left := q.left + [q.messages[0]]);
      if q.waiters != [] && q.waiters[0].desc.Sending? then
        var msg := q.waiters[0].desc.msg;
        (q1.(waiters := q.waiters[1..], messages := q1.messages + [msg], entered := q.entered + [msg]),
         Outcome(Done, q.messages[0], Some(q.waiters[0].tid)))
      else (q1, Outcome(Done, q.messages[0], None))
    else if noWait then (q, Outcome(NoMsg, [], None))
    else (q.(waiters := Pend(q.waiters, Waiter(tid, prio, Receiving))), Outcome(Blocked, [], None))
  }

  /** k_msgq_purge: everyone who waits fails, and what is queued is dropped. */
  function Purge(q: Queue): Queue {
    q.(waiters := [], messages := [], left := q.left + q.messages)
  }

  datatype Event =
    | EPut(tid: ThreadId, prio: int, msg: Msg, noWait: bool)
    | EGet(tid: ThreadId, prio: int, noWait: bool)
    | EPurge
    | ETimeout(tid: ThreadId)

  function Step(q: Queue, e: Event): Queue {
    match e
    case EPut(tid, prio, msg, noWait) => Put(q, tid, prio, msg, noWait).0
    case EGet(tid, prio, noWait) => Get(q, tid, prio, noWait).0
    case EPurge => Purge(q)
    case ETimeout(tid) => q.(waiters := Unpend(q.waiters, tid))
  }

  function Run(q: Queue, es: seq<Event>): Queue
    decreases |es|
  {
    if es == [] then q else Run(Step(q, es[0]), es[1..])
  }

  ghost predicate AllSending(ws: Waiters) { forall w :: w in ws ==> w.desc.Sending? }

  ghost predicate AllReceiving(ws: Waiters) { forall w :: w in ws ==> w.desc.Receiving? }

  /** Senders wait only before a full queue, receivers only before an empty one. */
  ghost predicate OneRole(q: Queue) {
    q.waiters == [] || (AllReceiving(q.waiters) && q.messages == [])
    || (AllSending(q.waiters) && |q.messages| == q.maxMsgs)
  }

  /** First in, first out. */
  ghost predicate Fifo(q: Queue) { q.entered == q.left + q.messages }

  ghost predicate Inv(q: Queue) { |q.messages| <= q.maxMsgs && (q.maxMsgs >= 1 ==> OneRole(q)) && Fifo(q) }

  lemma StepInv(q: Queue, e: Event)
    requires Inv(q)
    ensures Inv(Step(q, e))
  {
    match e
    case EPut(tid, prio, msg, noWait) =>
      hide Pend;
      if |q.messages| < q.maxMsgs && q.waiters != [] {
        assert q.waiters[0] in q.waiters;
        assert q.entered + [msg] == (q.left + [msg]) + q.messages;
      }
    case EGet(tid, prio, noWait) => GetInv(q, tid, prio, noWait);
    case EPurge =>
      assert q.left + q.messages == (q.left + q.messages) + [];
    case ETimeout(tid) =>
      hide Unpend;
  }

  lemma GetInv(q: Queue, tid: ThreadId, prio: int, noWait: bool)
    requires Inv(q)
    ensures Inv(Get(q, tid, prio, noWait).0)
  {
    hide Pend;
    if q.messages != [] {
      var rest := q.messages[1..];
      assert q.left + q.messages == (q.left + [q.messages[0]]) + rest;
      if q.waiters != [] {
        assert q.waiters[0] in q.waiters;
        var msg := q.waiters[0].desc.msg;
        Associative(q.left + [q.messages[0]], rest, [msg]);
      }
    }
  }

  lemma {:induction false} EveryRun(q: Queue, es: seq<Event>)
    requires Inv(q)
    ensures Inv(Run(q, es)) && Run(q, es).maxMsgs == q.maxMsgs
    decreases |es|
  {
    if es != [] {
      StepInv(q, es[0]);
      EveryRun(Step(q, es[0]), es[1..]);
    }
  }

  // ---------------------------------------------------------------- what the calls return

  /** The answer to a put. It is done exactly when there is room: the message has come in last, and if a
      receiver waits the first one is made ready and has it, else it is queued. Without room the call
      fails if it may not wait, changing nothing, and otherwise waits with its message. */
  lemma PutAnswers(q: Queue, tid: ThreadId, prio: int, msg: Msg, noWait: bool)
    requires Inv(q)
    ensures var (q', out) := Put(q, tid, prio, msg, noWait);
            var room := |q.messages| < q.maxMsgs;
            && out.result == (if room then Done else if noWait then NoMsg else Blocked)
            && q'.entered == q.entered + (if room then [msg] else [])
            && q'.left == q.left + (if room && q.waiters != [] then [msg] else [])
            && out.woken == (if room && q.waiters != [] then Some(q.waiters[0].tid) else None)
            && (out.woken.Some? ==> q.waiters[0].desc.Receiving? && q'.waiters == q.waiters[1..])
            && (out.woken.None? ==>
                  q'.waiters == if out.result == Blocked then Pend(q.waiters, Waiter(tid, prio, Sending(msg)))
                                else q.waiters)
            && (out.result == NoMsg ==> q' == q)
  {
    hide Pend;
    if q.waiters != [] {
      assert q.waiters[0] in q.waiters;
    }
  }

  /** The answer to a get. It is done exactly when a message is queued: it is the one that has been in
      longest, and if a sender waits the first one is made ready and its message comes in last. */
  lemma GetAnswers(q: Queue, tid: ThreadId, prio: int, noWait: bool)
    requires Inv(q)
    ensures var (q', out) := Get(q, tid, prio, noWait);
            var some := |q.left| < |q.entered|;
            && out.result == (if some then Done else if noWait then NoMsg else Blocked)
            && (some ==> out.msg == q.entered[|q.left|])
            && q'.left == q.left + (if some then [out.msg] else [])
            && out.woken == (if some && q.waiters != [] then Some(q.waiters[0].tid) else None)
            && (out.woken.Some? ==>
                  q.waiters[0].desc.Sending? && q'.entered == q.entered + [q.waiters[0].desc.msg] &&
                  q'.waiters == q.waiters[1..])
            && (out.woken.None? ==>
                  && q'.entered == q.entered
                  && q'.waiters == if out.result == Blocked then Pend(q.waiters, Waiter(tid, prio, Receiving))
                                   else q.waiters)
            && (out.result == NoMsg ==> q' == q)
  {
    hide Pend;
    if q.waiters != [] {
      assert q.waiters[0] in q.waiters;
    }
  }

  /** The messages that a call reports as handed to a receiver, or purges, ... */
  ghost function HandedBy(q: Queue, e: Event): seq<Msg> {
    match e
    case EPut(tid, prio, msg, noWait) => if Put(q, tid, prio, msg, noWait).1.woken.Some? then [msg] else []
    case EGet(tid, prio, noWait) =>
      var out := Get(q, tid, prio, noWait).1;
      if out.result == Done then [out.msg] else []
    case EPurge => q.messages
    case ETimeout(_) => []
  }

  /** ... and those it reports as taken from a sender, a waiting one's when it is made ready. */
  ghost function AcceptedBy(q: Queue, e: Event): seq<Msg> {
    match e
    case EPut(tid, prio, msg, noWait) => if Put(q, tid, prio, msg, noWait).1.result == Done then [msg] else []
    case EGet(tid, prio, noWait) =>
      if Get(q, tid, prio, noWait).1.woken.Some? && q.waiters != [] && q.waiters[0].desc.Sending?
      then [q.waiters[0].desc.msg] else []
    case EPurge => []
    case ETimeout(_) => []
  }

  ghost function Handed(q: Queue, es: seq<Event>): seq<Msg>
    decreases |es|
  {
    if es == [] then [] else HandedBy(q, es[0]) + Handed(Step(q, es[0]), es[1..])
  }

  ghost function Accepted(q: Queue, es: seq<Event>): seq<Msg>
    decreases |es|
  {
    if es == [] then [] else AcceptedBy(q, es[0]) + Accepted(Step(q, es[0]), es[1..])
  }

  lemma StepReports(q: Queue, e: Event)
    requires Inv(q)
    ensures Step(q, e).left == q.left + HandedBy(q, e) && Step(q, e).entered == q.entered + AcceptedBy(q, e)
  {
    match e
    case EPut(tid, prio, msg, noWait) => PutAnswers(q, tid, prio, msg, noWait); hide Put;
    case EGet(tid, prio, noWait) => GetAnswers(q, tid, prio, noWait); hide Get;
    case EPurge =>
    case ETimeout(tid) =>
  }

  lemma {:induction false} RunReports(q: Queue, es: seq<Event>)
    requires Inv(q)
    ensures Run(q, es).left == q.left + Handed(q, es) && Run(q, es).entered == q.entered + Accepted(q, es)
    decreases |es|
  {
    if es != [] {
      StepInv(q, es[0]);
      StepReports(q, es[0]);
      hide Step, Inv, HandedBy, AcceptedBy;
      var q' := Step(q, es[0]);
      RunReports(q', es[1..]);
      Associative(q.left, HandedBy(q, es[0]), Handed(q', es[1..]));
      Associative(q.entered, AcceptedBy(q, es[0]), Accepted(q', es[1..]));
    }
  }

  /** First in, first out, by what the calls report: in every run the messages received (or purged) are,
      in order, the messages accepted, but for those still queued, which are never more than there is
      room for. */
  lemma ReceivedInOrder(maxMsgs: nat, es: seq<Event>)
    ensures var q := Run(Empty(maxMsgs), es);
            Accepted(Empty(maxMsgs), es) == Handed(Empty(maxMsgs), es) + q.messages && |q.messages| <= maxMsgs
  {
    EveryRun(Empty(maxMsgs), es);
    RunReports(Empty(maxMsgs), es);
    var a, h := Accepted(Empty(maxMsgs), es), Handed(Empty(maxMsgs), es);
    assert [] + a == a && [] + h == h;
    hide Run, Accepted, Handed;
  }

  lemma {:induction false} RunByPriority(q: Queue, es: seq<Event>)
    requires ByPriority(q.waiters)
    ensures ByPriority(Run(q, es).waiters)
    decreases |es|
  {
    if es != [] {
      StepByPriority(q, es[0]);
      hide Step, ByPriority;
      RunByPriority(Step(q, es[0]), es[1..]);
    }
  }

  lemma StepByPriority(q: Queue, e: Event)
    requires ByPriority(q.waiters)
    ensures ByPriority(Step(q, e).waiters)
  {
    if q.waiters != [] {
      OrderedTail(q.waiters);
    }
    match e
    case EPut(tid, prio, msg, _) => PendByPriority(q.waiters, Waiter(tid, prio, Sending(msg)));
    case EGet(tid, prio, _) => PendByPriority(q.waiters, Waiter(tid, prio, Receiving));
    case EPurge =>
    case ETimeout(tid) => UnpendByPriority(q.waiters, tid);
  }

  /** The waiter that a put or a get makes ready, the first, is one of the best priority. */
  lemma BestWaiterFirst(maxMsgs: nat, es: seq<Event>, w: Waiter<Pending>)
    ensures var q := Run(Empty(maxMsgs), es); w in q.waiters ==> q.waiters[0].prio <= w.prio
  {
    RunByPriority(Empty(maxMsgs), es);
    var q := Run(Empty(maxMsgs), es);
    if w in q.waiters {
      FirstIsBest(q.waiters, q.waiters[0].prio, w);
    }
  }

  /** All waiters have one role through every run exactly when the queue can hold a message. */
  lemma OneRoleExact(maxMsgs: nat)
    ensures (forall es :: OneRole(Run(Empty(maxMsgs), es))) <==> maxMsgs >= 1
  {
    if maxMsgs >= 1 {
      forall es: seq<Event>
        ensures OneRole(Run(Empty(maxMsgs), es))
      {
        EveryRun(Empty(maxMsgs), es);
      }
    } else {
      BothWait();
    }
  }

  /** With no room at all a sender and a receiver wait side by side. */
  lemma BothWait()
    ensures !OneRole(Run(Empty(0), [EPut(0, 0, [], false), EGet(1, 0, false)]))
  {
    var q0 := Empty(0);
    var es := [EPut(0, 0, [], false), EGet(1, 0, false)];
    assert es[1..] == [EGet(1, 0, false)] && es[1..][1..] == [];
    var a: Waiter<Pending>, b: Waiter<Pending> := Waiter(0, 0, Sending([])), Waiter(1, 0, Receiving);
    assert Pend([], a) == [a];
    var q1 := Step(q0, es[0]);
    assert q1.waiters == [a];
    var q2 := Step(q1, es[1]);
    assert a in q2.waiters && b in q2.waiters;
    assert Run(q0, es) == Run(q1, es[1..]) == Run(q2, []);
  }
}
