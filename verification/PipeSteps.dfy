/**
 A pipe call as the kernel makes it: it takes the waiters it can satisfy off
 the wait queue, copies with interrupts enabled, and takes the lock again only
 to wait itself.  Between these steps waiting threads may time out, also the
 one thread that the call serves in part and leaves in the queue.  Every such
 run does what module Pipes says of whole calls, each timeout that fell into a
 call coming behind it.
 */
module PipeSteps {
  import opened Memory
  import opened Pipes
  import opened WaitQueues

  /** How many of the first readers get all they need from n bytes. */
  function Served(rs: Readers, n: nat): (k: nat)
    ensures k <= |rs|
  {
    if rs == [] || rs[0].desc.need > n then 0 else 1 + Served(rs[1..], n - rs[0].desc.need)
  }

  /** How many of the first writers get rid of all they have when n bytes are wanted. */
  function Emptied(ws: Writers, n: nat): (k: nat)
    ensures k <= |ws|
  {
    if ws == [] || |ws[0].desc.data| > n then 0 else 1 + Emptied(ws[1..], n - |ws[0].desc.data|)
  }

  /** The threads a call has pointers to: the first k and, if there is one, the next. */
  function Touched<D>(q: seq<Waiter<D>>, k: nat): seq<Waiter<D>>
    requires k <= |q|
  {
    if k < |q| then q[..k + 1] else q
  }

  /** The descriptor of w written back; a thread that has left the queue is not found. */
  function Replace<D>(q: seq<Waiter<D>>, w: Waiter<D>): (r: seq<Waiter<D>>)
    ensures |r| == |q|
  {
    if q == [] then [] else if q[0].tid == w.tid then [q[0].(desc := w.desc)] + q[1..] else [q[0]] + Replace(q[1..], w)
  }

  function Refresh<D>(q: seq<Waiter<D>>, left: seq<Waiter<D>>): seq<Waiter<D>> {
    if left == [] then q else Replace(q, left[0])
  }

  /** How far the call in progress has come. */
  datatype Phase =
    | Idle
    | PutCopying(tid: ThreadId, prio: int, data: seq<Byte>, noWait: bool, readers: Readers)
    | PutPending(tid: ThreadId, prio: int, put: Outgoing)
    | GetCopying(tid: ThreadId, prio: int, want: nat, noWait: bool, writers: Writers)
    | GetPending(tid: ThreadId, prio: int, get: Incoming)

  datatype State = State(pipe: Pipe, phase: Phase)

  /** The first part of a call: up to where it gives the lock back. */
  function Prepare(p: Pipe, call: Event): State
    requires call.PutCall? || call.GetCall?
  {
    match call
    case PutCall(tid, prio, data, minXfer, noWait) =>
      if minXfer > |data| || (noWait && PutCapacity(p, |data|) < minXfer) then State(p, Idle)
      else
        var k := Served(p.readers, |data|);
        State(p.(readers := p.readers[k..]), PutCopying(tid, prio, data, noWait, Touched(p.readers, k)))
    case GetCall(tid, prio, want, minXfer, noWait) =>
      if minXfer > want || (noWait && GetCapacity(p, want) < minXfer) then State(p, Idle)
      else
        var k := Emptied(p.writers, want);
        State(p.(writers := p.writers[k..]), GetCopying(tid, prio, want, noWait, Touched(p.writers, k)))
  }

  /** The copies of a put: what is left for the readers it touched, and of its own bytes. */
  function PutCopied(p: Pipe, data: seq<Byte>, readers: Readers): (Pipe, seq<Byte>) {
    var (left, direct, over) := Feed(readers, data);
    PutRest(p, data, Refresh(p.readers, left), direct, over)
  }

  function GetCopied(p: Pipe, want: nat, writers: Writers): (Pipe, seq<Byte>) {
    var n := Min(want, |p.ring|);
    var (left1, direct) := Drain(writers, want - n);
    var ring1 := p.ring[n..];
    var (left2, refill) := Drain(left1, if |ring1| <= p.size then p.size - |ring1| else 0);
    AfterGet(p, want, p.ring[..n], ring1, direct, Refresh(p.writers, left2), refill)
  }

  /** The copies, and the return of a call that does not have to wait. */
  function Copied(st: State): State {
    match st.phase
    case PutCopying(tid, prio, data, noWait, readers) =>
      var (p, rem) := PutCopied(st.pipe, data, readers);
      State(p, if rem == [] || noWait then Idle else PutPending(tid, prio, Outgoing(st.pipe.next, rem)))
    case GetCopying(tid, prio, want, noWait, writers) =>
      var (p, got) := GetCopied(st.pipe, want, writers);
      State(p, if |got| >= want || noWait then Idle else GetPending(tid, prio, Incoming(st.pipe.next, want - |got|)))
    case _ => st
  }

  /** The caller, under the lock again, starts to wait. */
  function Pended(st: State): State {
    match st.phase
    case PutPending(tid, prio, put) => State(st.pipe.(writers := Pend(st.pipe.writers, Waiter(tid, prio, put))), Idle)
    case GetPending(tid, prio, get) => State(st.pipe.(readers := Pend(st.pipe.readers, Waiter(tid, prio, get))), Idle)
    case _ => st
  }

  datatype SplitEvent = Begin(call: Event) | Copy | Wait | Timeout(e: Event)

  predicate Away(p: Pipe, tid: ThreadId) {
    (forall w :: w in p.writers ==> w.tid != tid) && (forall r :: r in p.readers ==> r.tid != tid)
  }

  /** Calls are made by threads that do not wait, one at a time as the scheduler is
      locked; the caller cannot time out before it waits. */
  predicate Legal(st: State, e: SplitEvent) {
    match e
    case Begin(call) => st.phase.Idle? && (call.PutCall? || call.GetCall?) && Away(st.pipe, call.tid)
    case Copy => st.phase.PutCopying? || st.phase.GetCopying?
    case Wait => st.phase.PutPending? || st.phase.GetPending?
    case Timeout(e) => (e.WriterTimeout? || e.ReaderTimeout?) && (!st.phase.Idle? ==> e.tid != st.phase.tid)
  }

  function SplitStep(st: State, e: SplitEvent): State
    requires Legal(st, e)
  {
    match e
    case Begin(call) => Prepare(st.pipe, call)
    case Copy => Copied(st)
    case Wait => Pended(st)
    case Timeout(e) => st.(pipe := Step(st.pipe, e))
  }

  /** The pipe once the call in progress is over, if nothing more comes between. */
  function Completed(st: State): Pipe { Pended(Copied(st)).pipe }

  // ---------------------------------------------------------------- a call left alone is the whole call

  lemma FeedOne(r: Waiter<Incoming>, rs: Readers, data: seq<Byte>)
    requires 0 < r.desc.need <= |data|
    ensures var (left, ps, over) := Feed(rs, data[r.desc.need..]);
            Feed([r] + rs, data) == (left, [Piece(r.desc.req, data[..r.desc.need])] + ps, over)
  {
    assert ([r] + rs)[1..] == rs;
  }

  /** A reader that gets only part of what it needs. */
  function Part(r: Waiter<Incoming>, data: seq<Byte>): Waiter<Incoming>
    requires r.desc.need > |data|
  {
    if data == [] then r else r.(desc := Incoming(r.desc.req, r.desc.need - |data|))
  }

  lemma FeedPart(rs: Readers, data: seq<Byte>)
    requires rs != [] && rs[0].desc.need > |data|
    ensures Feed(rs, data) == ([Part(rs[0], data)] + rs[1..], if data == [] then []
                                                              else [Piece(rs[0].desc.req, data)], [])
  {
    if data == [] {
      assert rs == [rs[0]] + rs[1..];
    }
  }

  lemma {:induction false} ServedFeeds(rs: Readers, data: seq<Byte>)
    requires HaveNeed(rs)
    ensures var k := Served(rs, |data|);
            var touched := Touched(rs, k);
            var (left, ps, over) := Feed(touched, data);
            && Feed(rs, data) == (left + rs[|touched|..], ps, over)
            && (if k == |rs| then left == [] else |left| == 1 && left[0] == rs[k].(desc := left[0].desc))
  {
    var k := Served(rs, |data|);
    var touched := Touched(rs, k);
    if rs == [] {
      FeedNobody(data);
      assert [] + rs[0..] == rs;
    } else if rs[0].desc.need > |data| {
      assert touched == [rs[0]] && [rs[0]][1..] == [];
      FeedPart(rs, data);
      FeedPart([rs[0]], data);
      hide Feed;
      assert [Part(rs[0], data)] + [] == [Part(rs[0], data)];
    } else {
      var rest := data[rs[0].desc.need..];
      ServedFeeds(rs[1..], rest);
      var t := Touched(rs[1..], k - 1);
      assert touched == [rs[0]] + t && rs == [rs[0]] + rs[1..];
      assert rs[|touched|..] == rs[1..][|t|..];
      hide Feed, Served, Touched, HaveNeed;
      FeedOne(rs[0], rs[1..], data);
      FeedOne(rs[0], t, data);
    }
  }

  lemma {:induction false} EmptiedDrains(ws: Writers, n: nat)
    requires HaveData(ws)
    ensures var k := Emptied(ws, n);
            var left := Drain(Touched(ws, k), n).0;
            && HaveData(Touched(ws, k))
            && (if k == |ws| then left == [] && Offered(ws) <= n
                else |left| == 1 && left[0] == ws[k].(desc := left[0].desc) && n < Offered(Touched(ws, k)))
  {
    var k := Emptied(ws, n);
    var touched := Touched(ws, k);
    if ws == [] {
    } else if |ws[0].desc.data| > n {
      assert touched == [ws[0]] && [ws[0]][1..] == [];
    } else {
      EmptiedDrains(ws[1..], n - |ws[0].desc.data|);
      assert touched[1..] == Touched(ws[1..], k - 1) && touched[0] == ws[0];
    }
  }

  lemma {:induction false} DrainPrefix(ws: Writers, rest: Writers, n: nat)
    requires HaveData(ws) && n <= Offered(ws)
    ensures Drain(ws + rest, n) == (Drain(ws, n).0 + rest, Drain(ws, n).1)
  {
    if ws == [] {
      assert ws + rest == rest;
    } else if n > 0 {
      assert (ws + rest)[1..] == ws[1..] + rest;
      if |ws[0].desc.data| <= n {
        DrainPrefix(ws[1..], rest, n - |ws[0].desc.data|);
      } else {
        Associative(Drain(ws, n).0[..1], ws[1..], rest);
      }
    }
  }

  lemma {:induction false} DrainTwice(ws: Writers, a: nat, b: nat)
    requires HaveData(ws)
    ensures Drain(Drain(ws, a).0, b).0 == Drain(ws, a + b).0
    ensures HaveData(Drain(ws, a).0) && (a <= Offered(ws) ==> Offered(Drain(ws, a).0) == Offered(ws) - a)
  {
    if ws != [] && a > 0 {
      var d := ws[0].desc;
      if |d.data| <= a {
        DrainTwice(ws[1..], a - |d.data|, b);
      } else {
        var one := Drain(ws, a).0;
        assert one[1..] == ws[1..];
        if b >= |d.data| - a {
          assert one[0].desc.data == d.data[a..];
        } else {
          assert d.data[a..][b..] == d.data[a + b..];
        }
      }
    }
  }

  lemma RefreshHead<D>(q: seq<Waiter<D>>, k: nat, left: seq<Waiter<D>>)
    requires k <= |q|
    requires if k == |q| then left == [] else |left| == 1 && left[0] == q[k].(desc := left[0].desc)
    ensures Refresh(q[k..], left) == left + q[|Touched(q, k)|..]
  {
    if k < |q| {
      assert q[k..][1..] == q[k + 1..];
    }
  }

  lemma PutRestFrame(p: Pipe, before: Readers, data: seq<Byte>, rs: Readers, direct: seq<Piece>, left: seq<Byte>)
    ensures PutRest(p.(readers := before), data, rs, direct, left) == PutRest(p, data, rs, direct, left)
  {
  }

  lemma PutBytesCompletes(p: Pipe, data: seq<Byte>)
    requires Queues(p)
    ensures var k := Served(p.readers, |data|);
            PutCopied(p.(readers := p.readers[k..]), data, Touched(p.readers, k)) == PutBytes(p, data)
  {
    hide Feed, Touched, Served, Refresh, HaveData, HaveNeed, PutRest;
    var k := Served(p.readers, |data|);
    ServedFeeds(p.readers, data);
    var (left, direct, over) := Feed(Touched(p.readers, k), data);
    RefreshHead(p.readers, k, left);
    PutRestFrame(p, p.readers[k..], data, Feed(p.readers, data).0, direct, over);
  }

  lemma PutCompletes(p: Pipe, call: Event)
    requires Queues(p) && call.PutCall?
    ensures Completed(Prepare(p, call)) == Step(p, call)
  {
    PutBytesCompletes(p, call.data);
    hide PutCopied, PutBytes, Touched, Served, Pend, Queues;
  }

  /** Draining only the touched writers, once for the caller and once for the ring. */
  lemma TouchedDrains(ws: Writers, want: nat, a: nat, b: nat)
    requires HaveData(ws) && a + b == want
    ensures var touched := Touched(ws, Emptied(ws, want));
            var rest := ws[|touched|..];
            var (left1, direct) := Drain(touched, a);
            var (left2, refill) := Drain(left1, b);
            && Drain(ws, a) == (left1 + rest, direct)
            && Drain(left1 + rest, b) == (left2 + rest, refill)
            && left2 + rest == Refresh(ws[Emptied(ws, want)..], left2)
  {
    var k := Emptied(ws, want);
    var touched := Touched(ws, k);
    var rest := ws[|touched|..];
    EmptiedDrains(ws, want);
    DrainTwice(touched, a, b);
    assert ws == touched + rest;
    hide Drain, Offered, HaveData, Refresh, Emptied, Touched;
    var left1 := Drain(touched, a).0;
    RefreshHead(ws, k, Drain(left1, b).0);
    if rest == [] {
      assert touched + rest == touched && left1 + rest == left1 && Drain(left1, b).0 + rest == Drain(left1, b).0;
    } else {
      assert k < |ws| by { TouchedAll(ws, k); }
      DrainPrefix(touched, rest, a);
      DrainPrefix(left1, rest, b);
    }
  }

  lemma TouchedAll<D>(q: seq<Waiter<D>>, k: nat)
    requires k <= |q|
    ensures k == |q| ==> Touched(q, k) == q
  {
  }

  lemma GetBytesCompletes(p: Pipe, want: nat)
    requires Queues(p)
    ensures var k := Emptied(p.writers, want);
            GetCopied(p.(writers := p.writers[k..]), want, Touched(p.writers, k)) == GetBytes(p, want)
  {
    hide Drain, Emptied, HaveData, HaveNeed, Refresh;
    var n := Min(want, |p.ring|);
    if p.writers == [] {
      NoWriters(want);
      DrainNobody(want - n);
      DrainNobody(p.size - |p.ring[n..]|);
    } else {
      TouchedDrains(p.writers, want, want - n, n);
      hide Touched;
    }
  }

  lemma NoWriters(want: nat)
    ensures Emptied([], want) == 0 && Refresh<Outgoing>([], []) == []
  {
  }

  lemma GetCompletes(p: Pipe, call: Event)
    requires Queues(p) && call.GetCall?
    ensures Completed(Prepare(p, call)) == Step(p, call)
  {
    GetBytesCompletes(p, call.want);
    hide GetCopied, GetBytes, Touched, Emptied, Pend, Queues;
  }

  // ---------------------------------------------------------------- a timeout inside a call is one behind it

  ghost predicate Lined(p: Pipe) {
    ByPriority(p.writers) && ByPriority(p.readers) && DistinctThreads(p.writers) && DistinctThreads(p.readers)
  }

  lemma {:induction false} ReplaceUnpend<D(!new)>(q: seq<Waiter<D>>, w: Waiter<D>, tid: ThreadId)
    requires DistinctThreads(q)
    ensures Unpend(Replace(q, w), tid) == Replace(Unpend(q, tid), w)
  {
    if q != [] {
      ReplaceUnpend(q[1..], w, tid);
      if q[0].tid == w.tid == tid {
        NotFound(q[1..], w);
      } else if q[0].tid == w.tid {
        assert Replace(q, w)[1..] == q[1..];
      } else if q[0].tid != tid {
        assert Replace(q, w)[1..] == Replace(q[1..], w);
      }
    }
  }

  lemma {:induction false} NotFound<D>(q: seq<Waiter<D>>, w: Waiter<D>)
    requires w.tid !in Tids(q)
    ensures Replace(q, w) == q
  {
    if q != [] {
      NotFound(q[1..], w);
    }
  }

  lemma RefreshUnpend<D(!new)>(q: seq<Waiter<D>>, left: seq<Waiter<D>>, tid: ThreadId)
    requires DistinctThreads(q)
    ensures Unpend(Refresh(q, left), tid) == Refresh(Unpend(q, tid), left)
  {
    if left != [] {
      ReplaceUnpend(q, left[0], tid);
    }
  }

  lemma {:induction false} ReplaceLined<D>(q: seq<Waiter<D>>, w: Waiter<D>, prio: int)
    ensures OrderedFrom(Replace(q, w), prio) <==> OrderedFrom(q, prio)
    ensures Tids(Replace(q, w)) == Tids(q) && (DistinctThreads(Replace(q, w)) <==> DistinctThreads(q))
  {
    if q != [] {
      assert Replace(q, w)[1..] == if q[0].tid == w.tid then q[1..] else Replace(q[1..], w);
      ReplaceLined(q[1..], w, q[0].prio);
    }
  }

  lemma RefreshLined<D>(q: seq<Waiter<D>>, left: seq<Waiter<D>>)
    ensures ByPriority(q) ==> ByPriority(Refresh(q, left))
    ensures Tids(Refresh(q, left)) == Tids(q) && (DistinctThreads(q) ==> DistinctThreads(Refresh(q, left)))
  {
    if left != [] && q != [] {
      ReplaceLined(q, left[0], q[0].prio);
    }
  }

  /** A timeout while the caller is about to wait. */
  lemma PendingCommutes(st: State, e: Event)
    requires Lined(st.pipe) && (st.phase.PutPending? || st.phase.GetPending?) && Legal(st, Timeout(e))
    ensures Pended(st.(pipe := Step(st.pipe, e))).pipe == Step(Pended(st).pipe, e)
  {
    hide Pend, Unpend, ByPriority, DistinctThreads;
    match st.phase
    case PutPending(tid, prio, put) => UnpendPend(st.pipe.writers, Waiter(tid, prio, put), e.tid);
    case GetPending(tid, prio, get) => UnpendPend(st.pipe.readers, Waiter(tid, prio, get), e.tid);
  }

  lemma PutCopyCommutes(p: Pipe, data: seq<Byte>, readers: Readers, e: Event)
    requires DistinctThreads(p.readers) && (e.WriterTimeout? || e.ReaderTimeout?)
    ensures var (p', rem) := PutCopied(p, data, readers);
            PutCopied(Step(p, e), data, readers) == (Step(p', e), rem)
  {
    hide Feed, Unpend, Refresh, DistinctThreads;
    RefreshUnpend(p.readers, Feed(readers, data).0, e.tid);
  }

  lemma GetCopyCommutes(p: Pipe, want: nat, writers: Writers, e: Event)
    requires DistinctThreads(p.writers) && (e.WriterTimeout? || e.ReaderTimeout?)
    ensures var (p', got) := GetCopied(p, want, writers);
            GetCopied(Step(p, e), want, writers) == (Step(p', e), got)
  {
    hide Drain, Unpend, Refresh, DistinctThreads, Bytes;
    var n := Min(want, |p.ring|);
    var left1 := Drain(writers, want - n).0;
    RefreshUnpend(p.writers, Drain(left1, if |p.ring[n..]| <= p.size then p.size - |p.ring[n..]| else 0).0, e.tid);
  }

  lemma StepNext(p: Pipe, e: Event)
    requires e.WriterTimeout? || e.ReaderTimeout?
    ensures Step(p, e).next == p.next
  {
  }

  /** A timeout while the call copies. */
  lemma CopyingCommutes(st: State, e: Event)
    requires Lined(st.pipe) && (st.phase.PutCopying? || st.phase.GetCopying?) && Legal(st, Timeout(e))
    ensures Copied(st.(pipe := Step(st.pipe, e))) == Copied(st).(pipe := Step(Copied(st).pipe, e))
  {
    StepNext(st.pipe, e);
    hide PutCopied, GetCopied, Step;
    match st.phase
    case PutCopying(tid, prio, data, noWait, readers) => PutCopyCommutes(st.pipe, data, readers, e);
    case GetCopying(tid, prio, want, noWait, writers) => GetCopyCommutes(st.pipe, want, writers, e);
  }

  lemma CopiedLined(st: State)
    requires Lined(st.pipe)
    ensures Lined(Copied(st).pipe)
  {
    hide Feed, Drain, Refresh, ByPriority, DistinctThreads, Bytes;
    match st.phase
    case PutCopying(tid, prio, data, noWait, readers) =>
      RefreshLined(st.pipe.readers, Feed(readers, data).0);
    case GetCopying(tid, prio, want, noWait, writers) =>
      var p := st.pipe;
      var n := Min(want, |p.ring|);
      var left1 := Drain(writers, want - n).0;
      RefreshLined(p.writers, Drain(left1, if |p.ring[n..]| <= p.size then p.size - |p.ring[n..]| else 0).0);
    case _ =>
  }

  lemma CopiedPhase(st: State)
    ensures var phase := Copied(st).phase;
            phase.Idle? || ((phase.PutPending? || phase.GetPending?) && !st.phase.Idle? && phase.tid == st.phase.tid)
  {
    hide PutCopied, GetCopied;
  }

  /** Wherever a timeout falls into a call, the call ends as if it had come behind it. */
  lemma TimeoutCommutes(st: State, e: Event)
    requires Lined(st.pipe) && Legal(st, Timeout(e))
    ensures Completed(st.(pipe := Step(st.pipe, e))) == Step(Completed(st), e)
  {
    CopiedLined(st);
    CopiedPhase(st);
    hide Lined, Step;
    if st.phase.PutCopying? || st.phase.GetCopying? {
      CopyingCommutes(st, e);
      hide Copied;
      if !Copied(st).phase.Idle? {
        PendingCommutes(Copied(st), e);
      }
    } else if !st.phase.Idle? {
      PendingCommutes(st, e);
    }
  }

  // ---------------------------------------------------------------- every interleaving

  ghost predicate Good(st: State) {
    Lined(st.pipe) && (!st.phase.Idle? ==> Away(st.pipe, st.phase.tid)) && Inv(Completed(st))
  }

  lemma {:induction false} AwayTids<D>(q: seq<Waiter<D>>, tid: ThreadId)
    ensures tid in Tids(q) <==> exists w :: w in q && w.tid == tid
  {
    if q != [] {
      AwayTids(q[1..], tid);
      assert q == [q[0]] + q[1..];
    }
  }

  lemma {:induction false} SuffixLined<D>(q: seq<Waiter<D>>, k: nat)
    requires k <= |q|
    ensures ByPriority(q) ==> ByPriority(q[k..])
    ensures DistinctThreads(q) ==> DistinctThreads(q[k..])
    decreases k
  {
    if k > 0 {
      if ByPriority(q) {
        OrderedTail(q);
      }
      SuffixLined(q[1..], k - 1);
      assert q[1..][k - 1..] == q[k..];
    }
  }

  lemma TimeoutLined(p: Pipe, e: Event)
    requires Lined(p) && (e.WriterTimeout? || e.ReaderTimeout?)
    ensures Lined(Step(p, e)) && forall tid :: Away(p, tid) ==> Away(Step(p, e), tid)
  {
    UnpendByPriority(p.writers, e.tid);
    UnpendByPriority(p.readers, e.tid);
    UnpendTids(p.writers, e.tid);
    UnpendTids(p.readers, e.tid);
    hide ByPriority, DistinctThreads, Tids;
  }

  lemma PendLined<D(!new)>(q: seq<Waiter<D>>, w: Waiter<D>)
    requires ByPriority(q) && DistinctThreads(q) && forall x :: x in q ==> x.tid != w.tid
    ensures ByPriority(Pend(q, w)) && DistinctThreads(Pend(q, w))
  {
    AwayTids(q, w.tid);
    PendByPriority(q, w);
    PendTids(q, w);
  }

  lemma PendedLined(st: State)
    requires Lined(st.pipe) && (!st.phase.Idle? ==> Away(st.pipe, st.phase.tid))
    ensures Lined(Pended(st).pipe)
  {
    hide ByPriority, DistinctThreads, Pend;
    match st.phase
    case PutPending(tid, prio, put) => PendLined(st.pipe.writers, Waiter(tid, prio, put));
    case GetPending(tid, prio, get) => PendLined(st.pipe.readers, Waiter(tid, prio, get));
    case _ =>
  }

  lemma {:induction false} ReplaceAway<D>(q: seq<Waiter<D>>, w: Waiter<D>, tid: ThreadId)
    requires forall x :: x in q ==> x.tid != tid
    ensures forall x :: x in Replace(q, w) ==> x.tid != tid
  {
    if q != [] {
      ReplaceAway(q[1..], w, tid);
    }
  }

  lemma CopiedAway(st: State, tid: ThreadId)
    requires Away(st.pipe, tid)
    ensures Away(Copied(st).pipe, tid)
  {
    hide Feed, Drain, Bytes, Replace;
    match st.phase
    case PutCopying(_, _, data, _, readers) =>
      var left := Feed(readers, data).0;
      if left != [] {
        ReplaceAway(st.pipe.readers, left[0], tid);
      }
    case GetCopying(_, _, want, _, writers) =>
      var p := st.pipe;
      var n := Min(want, |p.ring|);
      var left1 := Drain(writers, want - n).0;
      var left2 := Drain(left1, if |p.ring[n..]| <= p.size then p.size - |p.ring[n..]| else 0).0;
      if left2 != [] {
        ReplaceAway(p.writers, left2[0], tid);
      }
    case _ =>
  }

  lemma PreparedGood(p: Pipe, call: Event)
    requires Lined(p) && Inv(p) && (call.PutCall? || call.GetCall?) && Away(p, call.tid)
    ensures Good(Prepare(p, call)) && Completed(Prepare(p, call)) == Step(p, call)
  {
    hide Queues, Conserved, Accounts, Completed, PutsOwn, GetsOwn, Touched;
    StepInv(p, call);
    if call.PutCall? {
      PutCompletes(p, call);
      SuffixLined(p.readers, Served(p.readers, |call.data|));
    } else {
      GetCompletes(p, call);
      SuffixLined(p.writers, Emptied(p.writers, call.want));
    }
    hide Step, ByPriority, DistinctThreads, Served, Emptied;
  }

  /** One step of a split call, against the whole calls. */
  function Calls(e: SplitEvent): seq<Event> {
    match e
    case Begin(call) => [call]
    case Timeout(e) => [e]
    case _ => []
  }

  lemma RunOne(p: Pipe, e: Event)
    ensures Run(p, [e]) == Step(p, e)
  {
    assert [e][1..] == [];
    assert Run(Step(p, e), []) == Step(p, e);
  }

  lemma CopyGood(st: State)
    requires Good(st) && Legal(st, Copy)
    ensures Good(Copied(st)) && Completed(Copied(st)) == Completed(st)
  {
    hide Inv, Lined, Away;
    CopiedLined(st);
    CopiedPhase(st);
    CopiedAway(st, st.phase.tid);
    hide Copied, Pend;
    assert Copied(Copied(st)) == Copied(st) by { CopiedTwice(st); }
  }

  lemma CopiedTwice(st: State)
    ensures Copied(Copied(st)) == Copied(st)
  {
    hide PutCopied, GetCopied;
  }

  lemma WaitGood(st: State)
    requires Good(st) && Legal(st, Wait)
    ensures Good(Pended(st)) && Completed(Pended(st)) == Completed(st)
  {
    hide Inv, Away;
    PendedLined(st);
    hide Lined, Pend;
  }

  lemma TimeoutGood(st: State, e: Event)
    requires Good(st) && Legal(st, Timeout(e))
    ensures var st' := st.(pipe := Step(st.pipe, e)); Good(st') && Completed(st') == Step(Completed(st), e)
  {
    hide Inv, Step, Completed;
    TimeoutLined(st.pipe, e);
    TimeoutCommutes(st, e);
    StepInv(Completed(st), e);
    hide Away, Lined;
  }

  lemma SplitStepGood(st: State, e: SplitEvent)
    requires Good(st) && Legal(st, e)
    ensures Good(SplitStep(st, e)) && Completed(SplitStep(st, e)) == Run(Completed(st), Calls(e))
  {
    match e
    case Begin(call) => RunOne(st.pipe, call); BeginGood(st, call);
    case Copy => RunNothing(Completed(st)); CopyGood(st);
    case Wait => RunNothing(Completed(st)); WaitGood(st);
    case Timeout(t) => RunOne(Completed(st), t); TimeoutGood(st, t);
    hide Good, Completed, Run, Prepare, Copied, Pended, Step;
  }

  lemma BeginGood(st: State, call: Event)
    requires Good(st) && Legal(st, Begin(call))
    ensures Good(Prepare(st.pipe, call)) && Completed(Prepare(st.pipe, call)) == Step(Completed(st), call)
  {
    assert Completed(st) == st.pipe;
    hide Inv, Lined, Away, Prepare, Step;
    PreparedGood(st.pipe, call);
  }

  lemma RunNothing(p: Pipe)
    ensures Run(p, []) == p
  {
  }

  ghost predicate LegalRun(st: State, es: seq<SplitEvent>)
    decreases |es|
  {
    es == [] || (Legal(st, es[0]) && LegalRun(SplitStep(st, es[0]), es[1..]))
  }

  function SplitRun(st: State, es: seq<SplitEvent>): State
    requires LegalRun(st, es)
    decreases |es|
  {
    if es == [] then st else SplitRun(SplitStep(st, es[0]), es[1..])
  }

  /** The whole calls and the timeouts of a split run, each in its place: a timeout
      that falls into a call comes behind it. */
  function AllCalls(es: seq<SplitEvent>): seq<Event> {
    if es == [] then [] else Calls(es[0]) + AllCalls(es[1..])
  }

  lemma {:induction false} RunAppend(p: Pipe, a: seq<Event>, b: seq<Event>)
    ensures Run(p, a + b) == Run(Run(p, a), b)
    decreases |a|
  {
    if a == [] {
      assert a + b == b;
    } else {
      assert (a + b)[0] == a[0] && (a + b)[1..] == a[1..] + b;
      RunAppend(Step(p, a[0]), a[1..], b);
    }
  }

  /** Every split run does what the run of whole calls does. */
  lemma {:induction false} SplitRefines(st: State, es: seq<SplitEvent>)
    requires Good(st) && LegalRun(st, es)
    ensures Good(SplitRun(st, es)) && Completed(SplitRun(st, es)) == Run(Completed(st), AllCalls(es))
    decreases |es|
  {
    hide Good, Completed, SplitStep, Legal;
    if es == [] {
      RunNothing(Completed(st));
    } else {
      SplitStepGood(st, es[0]);
      SplitRefines(SplitStep(st, es[0]), es[1..]);
      RunAppend(Completed(st), Calls(es[0]), AllCalls(es[1..]));
      hide Run;
    }
  }

  /** Completing the call in progress gives p, which is what the pipe is if there is none. */
  ghost predicate SplitKept(st: State, p: Pipe) {
    Inv(p) && Completed(st) == p && (st.phase.Idle? ==> st.pipe == p)
  }

  /** So what holds through every run of whole calls holds whenever no call is in
      progress, whatever timeouts fell into the calls. */
  lemma SplitFromIdle(p: Pipe, es: seq<SplitEvent>)
    requires Inv(p) && Lined(p) && LegalRun(State(p, Idle), es)
    ensures SplitKept(SplitRun(State(p, Idle), es), Run(p, AllCalls(es)))
  {
    SplitRefines(State(p, Idle), es);
    hide Inv, Run, SplitRun;
  }
}
