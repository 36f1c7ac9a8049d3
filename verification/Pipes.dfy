/**
 Pipes as streams: the reference for kernel/pipes.c.  A put feeds the waiting
 readers and then the ring; a get drains the ring, then the waiting writers,
 and lets the writers refill the ring.  Every request is numbered, and the
 pipe remembers which bytes were taken from and delivered to which request.
 */
module Pipes {
  import opened Memory
  import opened WaitQueues

  /** A blocked put: its request and the bytes not yet taken from it. */
  datatype Outgoing = Outgoing(req: nat, data: seq<Byte>)

  /** A blocked get: its request and how many bytes it still needs. */
  datatype Incoming = Incoming(req: nat, need: nat)

  datatype Piece = Piece(req: nat, bytes: seq<Byte>)

  type Writers = seq<Waiter<Outgoing>>
  type Readers = seq<Waiter<Incoming>>

  datatype Pipe = Pipe(
    size: nat,
    ring: seq<Byte>,
    writers: Writers,
    readers: Readers,
    next: nat,
    taken: seq<Piece>,
    delivered: seq<Piece>,
    offered: map<nat, seq<Byte>>,
    wanted: map<nat, nat>)

  datatype Result =
    | Invalid                  // -EINVAL: the minimum exceeds the request
    | Refused                  // -EIO: would have to wait for the minimum
    | Moved(count: nat)        // done without waiting
    | Blocked                  // the calling thread is now pended

  function Min(a: nat, b: nat): nat { if a < b then a else b }

  // ---------------------------------------------------------------- moving bytes

  function Bytes(ps: seq<Piece>): seq<Byte> {
    if ps == [] then [] else ps[0].bytes + Bytes(ps[1..])
  }

  /** Takes up to n bytes from the writers in order; a writer with nothing left is done and leaves. */
  function Drain(ws: Writers, n: nat): (r: (Writers, seq<Piece>)) {
    if ws == [] || n == 0 then (ws, [])
    else
      var w := ws[0].desc;
      if |w.data| <= n then
        var (rest, ps) := Drain(ws[1..], n - |w.data|);
        (rest, [Piece(w.req, w.data)] + ps)
      else
        ([ws[0].(desc := Outgoing(w.req, w.data[n..]))] + ws[1..], [Piece(w.req, w.data[..n])])
  }

  /** Hands bytes to the readers in order; returns the readers left, what each got, and the bytes left. */
  function Feed(rs: Readers, data: seq<Byte>): (r: (Readers, seq<Piece>, seq<Byte>)) {
    if rs == [] || data == [] then (rs, [], data)
    else
      var d := rs[0].desc;
      if d.need <= |data| then
        var (rest, ps, left) := Feed(rs[1..], data[d.need..]);
        (rest, [Piece(d.req, data[..d.need])] + ps, left)
      else
        ([rs[0].(desc := Incoming(d.req, d.need - |data|))] + rs[1..], [Piece(d.req, data)], [])
  }

  function Offered(ws: Writers): nat {
    if ws == [] then 0 else |ws[0].desc.data| + Offered(ws[1..])
  }

  function Needed(rs: Readers): nat {
    if rs == [] then 0 else rs[0].desc.need + Needed(rs[1..])
  }

  // ---------------------------------------------------------------- the calls

  function Space(p: Pipe): nat { if |p.ring| <= p.size then p.size - |p.ring| else 0 }

  /** How many of n bytes a put could pass on without waiting. */
  function PutCapacity(p: Pipe, n: nat): nat { Min(n, Needed(p.readers) + Space(p)) }

  function GetCapacity(p: Pipe, n: nat): nat { Min(n, |p.ring| + Offered(p.writers)) }

  /** The pipe after a put: direct went to readers, kept to the ring, of the bytes moved from the request. */
  function AfterPut(p: Pipe, data: seq<Byte>, rs: Readers, direct: seq<Piece>, kept: seq<Byte>, moved: seq<Byte>)
    : Pipe {
    p.(readers := rs, ring := p.ring + kept, next := p.next + 1,
       taken := p.taken + [Piece(p.next, moved)],
       delivered := p.delivered + direct, offered := p.offered[p.next := data])
  }

  /** The bytes left over by the readers go to the ring as far as they fit. */
  function PutRest(p: Pipe, data: seq<Byte>, rs: Readers, direct: seq<Piece>, left: seq<Byte>): (Pipe, seq<Byte>) {
    var k := Min(|left|, Space(p));
    var rem := left[k..];
    (AfterPut(p, data, rs, direct, left[..k], if |rem| <= |data| then data[..|data| - |rem|] else []), rem)
  }

  function PutBytes(p: Pipe, data: seq<Byte>): (r: (Pipe, seq<Byte>)) {
    var (rs, direct, left) := Feed(p.readers, data);
    PutRest(p, data, rs, direct, left)
  }

  /** k_pipe_put up to the point where it returns or the caller blocks. */
  function Put(p: Pipe, tid: ThreadId, prio: int, data: seq<Byte>, minXfer: nat, noWait: bool): (Pipe, Result) {
    if minXfer > |data| then (p, Invalid)
    else if noWait && PutCapacity(p, |data|) < minXfer then (p, Refused)
    else
      var (p', rem) := PutBytes(p, data);
      if rem == [] || noWait then (p', Moved(if |rem| <= |data| then |data| - |rem| else 0))
      else (p'.(writers := Pend(p'.writers, Waiter(tid, prio, Outgoing(p.next, rem)))), Blocked)
  }

  /** The pipe after a get: head came from the ring, which then held ring1 and was refilled. */
  function AfterGet(p: Pipe, want: nat, head: seq<Byte>, ring1: seq<Byte>, direct: seq<Piece>, ws: Writers,
                    refill: seq<Piece>): (Pipe, seq<Byte>) {
    var got := head + Bytes(direct);
    (p.(ring := ring1 + Bytes(refill), writers := ws, next := p.next + 1,
        taken := p.taken + direct + refill, delivered := p.delivered + [Piece(p.next, got)],
        wanted := p.wanted[p.next := want]), got)
  }

  function GetBytes(p: Pipe, want: nat): (r: (Pipe, seq<Byte>)) {
    var n := Min(want, |p.ring|);
    var (ws1, direct) := Drain(p.writers, want - n);
    var ring1 := p.ring[n..];
    var (ws2, refill) := Drain(ws1, if |ring1| <= p.size then p.size - |ring1| else 0);
    AfterGet(p, want, p.ring[..n], ring1, direct, ws2, refill)
  }

  /** k_pipe_get up to the point where it returns or the caller blocks. */
  function Get(p: Pipe, tid: ThreadId, prio: int, want: nat, minXfer: nat, noWait: bool): (Pipe, Result) {
    if minXfer > want then (p, Invalid)
    else if noWait && GetCapacity(p, want) < minXfer then (p, Refused)
    else
      var (p', got) := GetBytes(p, want);
      if |got| >= want || noWait then (p', Moved(|got|))
      else (p'.(readers := Pend(p'.readers, Waiter(tid, prio, Incoming(p.next, want - |got|)))), Blocked)
  }

  datatype Event =
    | PutCall(tid: ThreadId, prio: int, data: seq<Byte>, minXfer: nat, noWait: bool)
    | GetCall(tid: ThreadId, prio: int, want: nat, minXfer: nat, noWait: bool)
    | WriterTimeout(tid: ThreadId)
    | ReaderTimeout(tid: ThreadId)

  function Step(p: Pipe, e: Event): Pipe {
    match e
    case PutCall(tid, prio, data, minXfer, noWait) => Put(p, tid, prio, data, minXfer, noWait).0
    case GetCall(tid, prio, want, minXfer, noWait) => Get(p, tid, prio, want, minXfer, noWait).0
    case WriterTimeout(tid) => p.(writers := Unpend(p.writers, tid))
    case ReaderTimeout(tid) => p.(readers := Unpend(p.readers, tid))
  }

  function Run(p: Pipe, es: seq<Event>): Pipe
    decreases |es|
  {
    if es == [] then p else Run(Step(p, es[0]), es[1..])
  }

  function Fresh(size: nat): Pipe {
    Pipe(size, [], [], [], 0, [], [], map[], map[])
  }

  // ---------------------------------------------------------------- the wait-queue invariant

  ghost predicate HaveData(ws: Writers) {
    ws == [] || (ws[0].desc.data != [] && HaveData(ws[1..]))
  }

  ghost predicate HaveNeed(rs: Readers) {
    rs == [] || (rs[0].desc.need > 0 && HaveNeed(rs[1..]))
  }

  /** Writers wait only behind a full ring, readers only before an empty one, never both, and nobody
      waits who has nothing left to transfer. */
  ghost predicate Queues(p: Pipe) {
    && |p.ring| <= p.size
    && (p.writers != [] ==> |p.ring| == p.size && p.readers == [])
    && (p.readers != [] ==> p.ring == [] && p.writers == [])
    && HaveData(p.writers) && HaveNeed(p.readers)
  }

  lemma {:induction false} DrainCounts(ws: Writers, n: nat)
    requires HaveData(ws)
    ensures var (rest, ps) := Drain(ws, n);
            && |Bytes(ps)| == Min(n, Offered(ws)) && (rest == [] || |Bytes(ps)| == n)
            && (ws == [] ==> rest == []) && HaveData(rest)
  {
    if ws != [] && n != 0 {
      var d := ws[0].desc;
      if |d.data| <= n {
        DrainCounts(ws[1..], n - |d.data|);
        BytesCons(Piece(d.req, d.data), Drain(ws[1..], n - |d.data|).1);
      } else {
        BytesCons(Piece(d.req, d.data[..n]), []);
        assert Drain(ws, n).0[1..] == ws[1..];
      }
    }
  }

  lemma {:induction false} FeedCounts(rs: Readers, data: seq<Byte>)
    requires HaveNeed(rs)
    ensures var (rest, ps, left) := Feed(rs, data);
            && Bytes(ps) + left == data && (rest == [] || left == [])
            && |left| == |data| - Min(|data|, Needed(rs))
            && (rs == [] ==> ps == []) && HaveNeed(rest)
  {
    if rs != [] && data != [] {
      var d := rs[0].desc;
      if d.need <= |data| {
        FeedCounts(rs[1..], data[d.need..]);
        var (rest, ps, left) := Feed(rs[1..], data[d.need..]);
        BytesCons(Piece(d.req, data[..d.need]), ps);
        Associative(data[..d.need], Bytes(ps), left);
        assert data[..d.need] + data[d.need..] == data;
      } else {
        BytesCons(Piece(d.req, data), []);
        assert Feed(rs, data).0[1..] == rs[1..];
      }
    }
  }

  lemma BytesCons(x: Piece, ps: seq<Piece>)
    ensures Bytes([x] + ps) == x.bytes + Bytes(ps) && Bytes([x]) == x.bytes
  {
    assert ([x] + ps)[1..] == ps && [x][1..] == [];
  }

  lemma PutBytesFacts(p: Pipe, data: seq<Byte>)
    requires Queues(p)
    ensures var (p', rem) := PutBytes(p, data);
            && Queues(p') && p'.size == p.size && p'.writers == p.writers && |rem| == |data| - PutCapacity(p, |data|)
            && (rem != [] ==> |p'.ring| == p.size && p'.readers == [])
  {
    hide HaveData, HaveNeed, Feed, Needed;
    FeedCounts(p.readers, data);
    FeedNobody(data);
  }

  lemma FeedNobody(data: seq<Byte>)
    ensures Feed([], data) == ([], [], data) && Needed([]) == 0
  {
  }

  lemma DrainNobody(n: nat)
    ensures Drain([], n) == ([], []) && Bytes([]) == []
  {
  }

  lemma DrainNothing(ws: Writers)
    ensures Drain(ws, 0) == (ws, [])
  {
  }

  lemma GetBytesFacts(p: Pipe, want: nat)
    requires Queues(p)
    ensures var (p', got) := GetBytes(p, want);
            && Queues(p') && p'.readers == p.readers && |got| == GetCapacity(p, want)
            && (|got| < want ==> p'.ring == [] && p'.writers == [])
  {
    hide HaveData, HaveNeed, Drain, Offered, Bytes;
    var n := Min(want, |p.ring|);
    DrainCounts(p.writers, want - n);
    var ws1 := Drain(p.writers, want - n).0;
    DrainCounts(ws1, p.size - |p.ring[n..]|);
    DrainNobody(p.size);
  }

  lemma {:induction false} PendData(ws: Writers, w: Waiter<Outgoing>)
    requires HaveData(ws) && w.desc.data != []
    ensures HaveData(Pend(ws, w))
  {
    if ws == [] || w.prio < ws[0].prio {
      assert Pend(ws, w)[1..] == ws;
    } else {
      PendData(ws[1..], w);
      assert Pend(ws, w)[1..] == Pend(ws[1..], w);
    }
  }

  lemma {:induction false} PendNeed(rs: Readers, w: Waiter<Incoming>)
    requires HaveNeed(rs) && w.desc.need > 0
    ensures HaveNeed(Pend(rs, w))
  {
    if rs == [] || w.prio < rs[0].prio {
      assert Pend(rs, w)[1..] == rs;
    } else {
      PendNeed(rs[1..], w);
      assert Pend(rs, w)[1..] == Pend(rs[1..], w);
    }
  }

  lemma {:induction false} UnpendData(ws: Writers, tid: ThreadId)
    requires HaveData(ws)
    ensures HaveData(Unpend(ws, tid))
  {
    if ws != [] && ws[0].tid != tid {
      UnpendData(ws[1..], tid);
      assert Unpend(ws, tid)[1..] == Unpend(ws[1..], tid);
    }
  }

  lemma {:induction false} UnpendNeed(rs: Readers, tid: ThreadId)
    requires HaveNeed(rs)
    ensures HaveNeed(Unpend(rs, tid))
  {
    if rs != [] && rs[0].tid != tid {
      UnpendNeed(rs[1..], tid);
      assert Unpend(rs, tid)[1..] == Unpend(rs[1..], tid);
    }
  }

  lemma PutKeepsQueues(p: Pipe, tid: ThreadId, prio: int, data: seq<Byte>, minXfer: nat, noWait: bool)
    requires Queues(p)
    ensures Queues(Put(p, tid, prio, data, minXfer, noWait).0)
  {
    hide HaveData, HaveNeed, PutBytes;
    PutBytesFacts(p, data);
    var (p', rem) := PutBytes(p, data);
    if rem != [] {
      PendData(p'.writers, Waiter(tid, prio, Outgoing(p.next, rem)));
    }
  }

  lemma GetKeepsQueues(p: Pipe, tid: ThreadId, prio: int, want: nat, minXfer: nat, noWait: bool)
    requires Queues(p)
    ensures Queues(Get(p, tid, prio, want, minXfer, noWait).0)
  {
    hide HaveData, HaveNeed, GetBytes;
    GetBytesFacts(p, want);
    var (p', got) := GetBytes(p, want);
    if |got| < want {
      PendNeed(p'.readers, Waiter(tid, prio, Incoming(p.next, want - |got|)));
    }
  }

  /** A call that does not wait moves what it can, and never less than its minimum when it is let in. */
  lemma NoWaitMovesMinimum(p: Pipe, tid: ThreadId, prio: int, data: seq<Byte>, want: nat, minXfer: nat)
    requires Queues(p)
    ensures minXfer <= |data| ==>
              Put(p, tid, prio, data, minXfer, true).1
              == if PutCapacity(p, |data|) < minXfer then Refused else Moved(PutCapacity(p, |data|))
    ensures minXfer <= want ==>
              Get(p, tid, prio, want, minXfer, true).1
              == if GetCapacity(p, want) < minXfer then Refused else Moved(GetCapacity(p, want))
  {
    hide Queues, PutBytes, GetBytes;
    PutBytesFacts(p, data);
    GetBytesFacts(p, want);
  }

  // ---------------------------------------------------------------- conservation of the stream

  ghost predicate Conserved(p: Pipe) {
    Bytes(p.taken) == Bytes(p.delivered) + p.ring
  }

  lemma {:induction false} BytesAppend(a: seq<Piece>, b: seq<Piece>)
    ensures Bytes(a + b) == Bytes(a) + Bytes(b)
  {
    if a == [] {
      assert a + b == b;
    } else {
      BytesAppend(a[1..], b);
      assert (a + b)[1..] == a[1..] + b;
      Associative(a[0].bytes, Bytes(a[1..]), Bytes(b));
    }
  }

  lemma BytesAppend1(a: seq<Piece>, x: Piece)
    ensures Bytes(a + [x]) == Bytes(a) + x.bytes
  {
    BytesAppend(a, [x]);
    BytesCons(x, []);
  }

  lemma PutShuffle(d: seq<Byte>, ring: seq<Byte>, direct: seq<Byte>, kept: seq<Byte>)
    requires direct == [] || ring == []
    ensures (d + ring) + (direct + kept) == (d + direct) + (ring + kept)
  {
  }

  lemma GetShuffle(d: seq<Byte>, head: seq<Byte>, tail: seq<Byte>, direct: seq<Byte>, refill: seq<Byte>)
    requires direct == [] || tail == []
    ensures (d + (head + tail)) + direct + refill == (d + (head + direct)) + (tail + refill)
  {
  }

  lemma PutConserves(p: Pipe, data: seq<Byte>)
    requires Queues(p) && Conserved(p)
    ensures Conserved(PutBytes(p, data).0)
  {
    hide HaveData, HaveNeed, Feed, Bytes;
    FeedCounts(p.readers, data);
    FeedNobody(data);
    var (rs, direct, left) := Feed(p.readers, data);
    var k := Min(|left|, Space(p));
    var piece := Piece(p.next, Bytes(direct) + left[..k]);
    assert data[..|data| - |left[k..]|] == Bytes(direct) + left[..k];
    BytesAppend1(p.taken, piece);
    BytesAppend(p.delivered, direct);
    DrainNobody(0);
    PutShuffle(Bytes(p.delivered), p.ring, Bytes(direct), left[..k]);
  }

  lemma GetConserves(p: Pipe, want: nat)
    requires Queues(p) && Conserved(p)
    ensures Conserved(GetBytes(p, want).0)
  {
    hide HaveData, HaveNeed, Bytes, Drain;
    var n := Min(want, |p.ring|);
    var (ws1, direct) := Drain(p.writers, want - n);
    var (ws2, refill) := Drain(ws1, p.size - |p.ring[n..]|);
    DrainNobody(0);
    DrainNothing(p.writers);
    BytesAppend(p.taken + direct, refill);
    BytesAppend(p.taken, direct);
    BytesAppend1(p.delivered, Piece(p.next, p.ring[..n] + Bytes(direct)));
    assert p.ring == p.ring[..n] + p.ring[n..];
    GetShuffle(Bytes(p.delivered), p.ring[..n], p.ring[n..], Bytes(direct), Bytes(refill));
  }

  // ---------------------------------------------------------------- every request gets what is its own

  /** The bytes of one request among the pieces, in order. */
  function Of(ps: seq<Piece>, req: nat): seq<Byte> {
    if ps == [] then [] else (if ps[0].req == req then ps[0].bytes else []) + Of(ps[1..], req)
  }

  function DataOf(ws: Writers, req: nat): seq<Byte> {
    if ws == [] then [] else (if ws[0].desc.req == req then ws[0].desc.data else []) + DataOf(ws[1..], req)
  }

  function NeedOf(rs: Readers, req: nat): nat {
    if rs == [] then 0 else (if rs[0].desc.req == req then rs[0].desc.need else 0) + NeedOf(rs[1..], req)
  }

  ghost function Reqs(ps: seq<Piece>): set<nat> {
    if ps == [] then {} else {ps[0].req} + Reqs(ps[1..])
  }

  ghost function Puts(ws: Writers): set<nat> {
    if ws == [] then {} else {ws[0].desc.req} + Puts(ws[1..])
  }

  ghost function Gets(rs: Readers): set<nat> {
    if rs == [] then {} else {rs[0].desc.req} + Gets(rs[1..])
  }

  ghost predicate DistinctPuts(ws: Writers) {
    ws == [] || (ws[0].desc.req !in Puts(ws[1..]) && DistinctPuts(ws[1..]))
  }

  ghost predicate DistinctGets(rs: Readers) {
    rs == [] || (rs[0].desc.req !in Gets(rs[1..]) && DistinctGets(rs[1..]))
  }

  /** What was taken from a put, followed by what it waits to give, is a prefix of its data, and all of
      it while it waits. */
  ghost predicate PutsOwn(p: Pipe) {
    && DistinctPuts(p.writers) && Puts(p.writers) <= p.offered.Keys && Reqs(p.taken) <= p.offered.Keys
    && forall r {:trigger PutOwn(p, r)} :: r in p.offered ==> PutOwn(p, r)
  }

  ghost predicate PutOwn(p: Pipe, r: nat)
    requires r in p.offered
  {
    && r < p.next
    && Of(p.taken, r) + DataOf(p.writers, r) <= p.offered[r]
    && (r in Puts(p.writers) ==> Of(p.taken, r) + DataOf(p.writers, r) == p.offered[r])
  }

  /** What was delivered to a get and what it waits for never exceed what it asked for, and make it up
      while it waits. */
  ghost predicate GetsOwn(p: Pipe) {
    && DistinctGets(p.readers) && Gets(p.readers) <= p.wanted.Keys && Reqs(p.delivered) <= p.wanted.Keys
    && forall r {:trigger GetOwn(p, r)} :: r in p.wanted ==> GetOwn(p, r)
  }

  ghost predicate GetOwn(p: Pipe, r: nat)
    requires r in p.wanted
  {
    && r < p.next
    && |Of(p.delivered, r)| + NeedOf(p.readers, r) <= p.wanted[r]
    && (r in Gets(p.readers) ==> |Of(p.delivered, r)| + NeedOf(p.readers, r) == p.wanted[r])
  }

  lemma {:induction false} OfAppend(a: seq<Piece>, b: seq<Piece>, req: nat)
    ensures Of(a + b, req) == Of(a, req) + Of(b, req)
  {
    if a == [] {
      assert a + b == b;
    } else {
      OfAppend(a[1..], b, req);
      assert (a + b)[1..] == a[1..] + b;
      Associative(if a[0].req == req then a[0].bytes else [], Of(a[1..], req), Of(b, req));
    }
  }

  lemma {:induction false} ReqsAppend(a: seq<Piece>, b: seq<Piece>)
    ensures Reqs(a + b) == Reqs(a) + Reqs(b)
  {
    if a == [] {
      assert a + b == b;
    } else {
      ReqsAppend(a[1..], b);
      assert (a + b)[1..] == a[1..] + b;
    }
  }

  lemma {:induction false} OfNone(ps: seq<Piece>, req: nat)
    requires req !in Reqs(ps)
    ensures Of(ps, req) == []
  {
    if ps != [] {
      OfNone(ps[1..], req);
    }
  }

  lemma OneMore(ps: seq<Piece>, x: Piece, req: nat)
    ensures Of(ps + [x], req) == Of(ps, req) + (if x.req == req then x.bytes else [])
    ensures Reqs(ps + [x]) == Reqs(ps) + {x.req}
  {
    OfAppend(ps, [x], req);
    ReqsAppend(ps, [x]);
    assert [x][1..] == [];
  }

  lemma {:induction false} DataOfNone(ws: Writers, req: nat)
    requires req !in Puts(ws)
    ensures DataOf(ws, req) == []
  {
    if ws != [] {
      DataOfNone(ws[1..], req);
    }
  }

  lemma {:induction false} NeedOfNone(rs: Readers, req: nat)
    requires req !in Gets(rs)
    ensures NeedOf(rs, req) == 0
  {
    if rs != [] {
      NeedOfNone(rs[1..], req);
    }
  }

  /** Draining moves each writer's bytes from what it offers to what was taken, and invents none. */
  lemma {:induction false} DrainOwn(ws: Writers, n: nat, req: nat)
    ensures var (rest, ps) := Drain(ws, n);
            && Of(ps, req) + DataOf(rest, req) == DataOf(ws, req)
            && Puts(rest) <= Puts(ws) && Reqs(ps) <= Puts(ws)
            && (DistinctPuts(ws) ==> DistinctPuts(rest))
  {
    if ws != [] && n != 0 {
      var d := ws[0].desc;
      var own := (x: seq<Byte>) => if d.req == req then x else [];
      if |d.data| <= n {
        DrainOwn(ws[1..], n - |d.data|, req);
        var (rest, ps) := Drain(ws[1..], n - |d.data|);
        assert ([Piece(d.req, d.data)] + ps)[1..] == ps;
        Associative(own(d.data), Of(ps, req), DataOf(rest, req));
      } else {
        var (rest, ps) := Drain(ws, n);
        assert ps[1..] == [] && rest[1..] == ws[1..];
        Associative(own(d.data[..n]), own(d.data[n..]), DataOf(ws[1..], req));
        assert own(d.data[..n]) + own(d.data[n..]) == own(d.data);
        assert own(d.data[..n]) + [] == own(d.data[..n]);
      }
    }
  }

  lemma {:induction false} FeedOwn(rs: Readers, data: seq<Byte>, req: nat)
    ensures var (rest, ps, left) := Feed(rs, data);
            && |Of(ps, req)| + NeedOf(rest, req) == NeedOf(rs, req)
            && Gets(rest) <= Gets(rs) && Reqs(ps) <= Gets(rs)
            && (DistinctGets(rs) ==> DistinctGets(rest))
  {
    if rs != [] && data != [] {
      var d := rs[0].desc;
      if d.need <= |data| {
        FeedOwn(rs[1..], data[d.need..], req);
        var ps := Feed(rs[1..], data[d.need..]).1;
        assert ([Piece(d.req, data[..d.need])] + ps)[1..] == ps;
      } else {
        var (rest, ps, left) := Feed(rs, data);
        assert ps[1..] == [] && rest[1..] == rs[1..];
      }
    }
  }

  /** What was taken from a request and what it still offers stay together. */
  lemma DrainBalance(taken: seq<Piece>, ws: Writers, n: nat, req: nat)
    ensures var (rest, ps) := Drain(ws, n);
            Of(taken + ps, req) + DataOf(rest, req) == Of(taken, req) + DataOf(ws, req)
  {
    hide Drain, Of, DataOf;
    var (rest, ps) := Drain(ws, n);
    DrainOwn(ws, n, req);
    OfAppend(taken, ps, req);
    Associative(Of(taken, req), Of(ps, req), DataOf(rest, req));
  }

  lemma FeedBalance(delivered: seq<Piece>, rs: Readers, data: seq<Byte>, req: nat)
    ensures var (rest, ps, left) := Feed(rs, data);
            |Of(delivered + ps, req)| + NeedOf(rest, req) == |Of(delivered, req)| + NeedOf(rs, req)
  {
    hide Feed, Of, NeedOf;
    FeedOwn(rs, data, req);
    OfAppend(delivered, Feed(rs, data).1, req);
  }

  /** Draining keeps every put's account straight. */
  lemma DrainAccounts(p: Pipe, n: nat)
    requires PutsOwn(p)
    ensures var (rest, ps) := Drain(p.writers, n);
            PutsOwn(p.(writers := rest, taken := p.taken + ps))
  {
    hide Drain, Of, DataOf, Puts, Reqs, DistinctPuts;
    var (rest, ps) := Drain(p.writers, n);
    var p' := p.(writers := rest, taken := p.taken + ps);
    DrainOwn(p.writers, n, 0);
    ReqsAppend(p.taken, ps);
    forall r | r in p'.offered
      ensures PutOwn(p', r)
    {
      assert PutOwn(p, r);
      DrainBalance(p.taken, p.writers, n, r);
    }
  }

  lemma FeedAccounts(p: Pipe, data: seq<Byte>)
    requires GetsOwn(p)
    ensures var (rest, ps, left) := Feed(p.readers, data);
            GetsOwn(p.(readers := rest, delivered := p.delivered + ps))
  {
    hide Feed, Of, NeedOf, Gets, Reqs, DistinctGets;
    var (rest, ps, left) := Feed(p.readers, data);
    var p' := p.(readers := rest, delivered := p.delivered + ps);
    FeedOwn(p.readers, data, 0);
    ReqsAppend(p.delivered, ps);
    forall r | r in p'.wanted
      ensures GetOwn(p', r)
    {
      assert GetOwn(p, r);
      FeedBalance(p.delivered, p.readers, data, r);
    }
  }

  /** A put files its own request: what is taken from it at once is a prefix of its data. */
  lemma PutFiles(p: Pipe, data: seq<Byte>, k: nat)
    requires PutsOwn(p) && k <= |data|
    ensures var p' := p.(next := p.next + 1, taken := p.taken + [Piece(p.next, data[..k])],
                         offered := p.offered[p.next := data]);
            PutsOwn(p') && Of(p'.taken, p.next) == data[..k] && p.next !in Puts(p.writers)
  {
    hide Of, DataOf, Puts, Reqs, DistinctPuts;
    var x := Piece(p.next, data[..k]);
    var p' := p.(next := p.next + 1, taken := p.taken + [x], offered := p.offered[p.next := data]);
    NextPutUnused(p);
    OfNone(p.taken, p.next);
    DataOfNone(p.writers, p.next);
    OneMore(p.taken, x, p.next);
    assert [] + data[..k] == data[..k] && data[..k] + [] == data[..k];
    forall r | r in p'.offered
      ensures PutOwn(p', r)
    {
      OneMore(p.taken, x, r);
      if r != p.next {
        assert PutOwn(p, r);
        assert Of(p.taken, r) + [] == Of(p.taken, r);
      }
    }
  }

  lemma NextPutUnused(p: Pipe)
    requires PutsOwn(p)
    ensures p.next !in p.offered && p.next !in Puts(p.writers) && p.next !in Reqs(p.taken)
  {
    forall r | r in p.offered
      ensures r < p.next
    {
      assert PutOwn(p, r);
    }
  }

  lemma NextGetUnused(p: Pipe)
    requires GetsOwn(p)
    ensures p.next !in p.wanted && p.next !in Gets(p.readers) && p.next !in Reqs(p.delivered)
  {
    forall r | r in p.wanted
      ensures r < p.next
    {
      assert GetOwn(p, r);
    }
  }

  lemma GetFiles(p: Pipe, want: nat, got: seq<Byte>)
    requires GetsOwn(p) && |got| <= want
    ensures var p' := p.(next := p.next + 1, delivered := p.delivered + [Piece(p.next, got)],
                         wanted := p.wanted[p.next := want]);
            GetsOwn(p') && Of(p'.delivered, p.next) == got && p.next !in Gets(p.readers)
  {
    hide Of, NeedOf, Gets, Reqs, DistinctGets;
    var x := Piece(p.next, got);
    var p' := p.(next := p.next + 1, delivered := p.delivered + [x], wanted := p.wanted[p.next := want]);
    NextGetUnused(p);
    OfNone(p.delivered, p.next);
    NeedOfNone(p.readers, p.next);
    OneMore(p.delivered, x, p.next);
    assert [] + got == got;
    forall r | r in p'.wanted
      ensures GetOwn(p', r)
    {
      OneMore(p.delivered, x, r);
      if r != p.next {
        assert GetOwn(p, r);
        assert Of(p.delivered, r) + [] == Of(p.delivered, r);
      }
    }
  }

  lemma {:induction false} PendPuts(ws: Writers, w: Waiter<Outgoing>, req: nat)
    requires w.desc.req !in Puts(ws)
    ensures Puts(Pend(ws, w)) == Puts(ws) + {w.desc.req}
    ensures DistinctPuts(ws) ==> DistinctPuts(Pend(ws, w))
    ensures DataOf(Pend(ws, w), req) == if req == w.desc.req then w.desc.data else DataOf(ws, req)
  {
    if ws == [] || w.prio < ws[0].prio {
      assert Pend(ws, w)[1..] == ws;
      if req == w.desc.req {
        DataOfNone(ws, req);
      }
    } else {
      PendPuts(ws[1..], w, req);
      assert Pend(ws, w)[1..] == Pend(ws[1..], w);
    }
  }

  lemma {:induction false} PendGets(rs: Readers, w: Waiter<Incoming>, req: nat)
    requires w.desc.req !in Gets(rs)
    ensures Gets(Pend(rs, w)) == Gets(rs) + {w.desc.req}
    ensures DistinctGets(rs) ==> DistinctGets(Pend(rs, w))
    ensures NeedOf(Pend(rs, w), req) == if req == w.desc.req then w.desc.need else NeedOf(rs, req)
  {
    if rs == [] || w.prio < rs[0].prio {
      assert Pend(rs, w)[1..] == rs;
      if req == w.desc.req {
        NeedOfNone(rs, req);
      }
    } else {
      PendGets(rs[1..], w, req);
      assert Pend(rs, w)[1..] == Pend(rs[1..], w);
    }
  }

  lemma {:induction false} UnpendPuts(ws: Writers, tid: ThreadId, req: nat)
    requires DistinctPuts(ws)
    ensures Puts(Unpend(ws, tid)) <= Puts(ws) && DistinctPuts(Unpend(ws, tid))
    ensures DataOf(Unpend(ws, tid), req) == if req in Puts(Unpend(ws, tid)) then DataOf(ws, req) else []
  {
    if ws != [] {
      if ws[0].tid != tid {
        UnpendPuts(ws[1..], tid, req);
        assert Unpend(ws, tid)[1..] == Unpend(ws[1..], tid);
        if req == ws[0].desc.req {
          DataOfNone(ws[1..], req);
        }
      } else if req !in Puts(ws[1..]) {
        DataOfNone(ws[1..], req);
      }
    }
  }

  lemma {:induction false} UnpendGets(rs: Readers, tid: ThreadId, req: nat)
    requires DistinctGets(rs)
    ensures Gets(Unpend(rs, tid)) <= Gets(rs) && DistinctGets(Unpend(rs, tid))
    ensures NeedOf(Unpend(rs, tid), req) == if req in Gets(Unpend(rs, tid)) then NeedOf(rs, req) else 0
  {
    if rs != [] {
      if rs[0].tid != tid {
        UnpendGets(rs[1..], tid, req);
        assert Unpend(rs, tid)[1..] == Unpend(rs[1..], tid);
        if req == rs[0].desc.req {
          NeedOfNone(rs[1..], req);
        }
      } else if req !in Gets(rs[1..]) {
        NeedOfNone(rs[1..], req);
      }
    }
  }

  /** The caller of a put waits with what was not taken from it. */
  lemma PutPends(p: Pipe, w: Waiter<Outgoing>)
    requires PutsOwn(p) && w.desc.req in p.offered && w.desc.req !in Puts(p.writers)
    requires Of(p.taken, w.desc.req) + w.desc.data == p.offered[w.desc.req]
    ensures PutsOwn(p.(writers := Pend(p.writers, w)))
  {
    hide Of, DataOf, Puts, Reqs, DistinctPuts, Pend;
    var p' := p.(writers := Pend(p.writers, w));
    PendPuts(p.writers, w, w.desc.req);
    forall r | r in p'.offered
      ensures PutOwn(p', r)
    {
      assert PutOwn(p, r);
      PendPuts(p.writers, w, r);
    }
  }

  lemma GetPends(p: Pipe, w: Waiter<Incoming>)
    requires GetsOwn(p) && w.desc.req in p.wanted && w.desc.req !in Gets(p.readers)
    requires |Of(p.delivered, w.desc.req)| + w.desc.need == p.wanted[w.desc.req]
    ensures GetsOwn(p.(readers := Pend(p.readers, w)))
  {
    hide Of, NeedOf, Gets, Reqs, DistinctGets, Pend;
    var p' := p.(readers := Pend(p.readers, w));
    PendGets(p.readers, w, w.desc.req);
    forall r | r in p'.wanted
      ensures GetOwn(p', r)
    {
      assert GetOwn(p, r);
      PendGets(p.readers, w, r);
    }
  }

  lemma WriterLeaves(p: Pipe, tid: ThreadId)
    requires PutsOwn(p)
    ensures PutsOwn(p.(writers := Unpend(p.writers, tid)))
  {
    hide Of, DataOf, Puts, Reqs, DistinctPuts, Unpend;
    var p' := p.(writers := Unpend(p.writers, tid));
    UnpendPuts(p.writers, tid, 0);
    forall r | r in p'.offered
      ensures PutOwn(p', r)
    {
      assert PutOwn(p, r);
      UnpendPuts(p.writers, tid, r);
      assert Of(p.taken, r) + [] == Of(p.taken, r);
    }
  }

  lemma ReaderLeaves(p: Pipe, tid: ThreadId)
    requires GetsOwn(p)
    ensures GetsOwn(p.(readers := Unpend(p.readers, tid)))
  {
    hide Of, NeedOf, Gets, Reqs, DistinctGets, Unpend;
    var p' := p.(readers := Unpend(p.readers, tid));
    UnpendGets(p.readers, tid, 0);
    forall r | r in p'.wanted
      ensures GetOwn(p', r)
    {
      assert GetOwn(p, r);
      UnpendGets(p.readers, tid, r);
    }
  }

  /** Whatever else changes. */
  lemma SameGets(p: Pipe, q: Pipe)
    requires GetsOwn(p) && q.readers == p.readers && q.delivered == p.delivered && q.wanted == p.wanted
    requires p.next <= q.next
    ensures GetsOwn(q)
  {
    forall r | r in q.wanted
      ensures GetOwn(q, r)
    {
      assert GetOwn(p, r);
    }
  }

  lemma SamePuts(p: Pipe, q: Pipe)
    requires PutsOwn(p) && q.writers == p.writers && q.taken == p.taken && q.offered == p.offered && p.next <= q.next
    ensures PutsOwn(q)
  {
    forall r | r in q.offered
      ensures PutOwn(q, r)
    {
      assert PutOwn(p, r);
    }
  }

  // ---------------------------------------------------------------- every run

  ghost predicate Accounts(p: Pipe) {
    PutsOwn(p) && GetsOwn(p)
  }

  ghost predicate Inv(p: Pipe) {
    Queues(p) && Conserved(p) && Accounts(p)
  }

  lemma PutBytesAccounts(p: Pipe, data: seq<Byte>)
    requires Queues(p) && Accounts(p)
    ensures var (p', rem) := PutBytes(p, data);
            && Accounts(p') && p.next in p'.offered && p.next !in Puts(p'.writers)
            && Of(p'.taken, p.next) + rem == p'.offered[p.next] == data
  {
    hide HaveData, HaveNeed, Feed, Bytes, Of, PutsOwn, GetsOwn, Puts;
    FeedCounts(p.readers, data);
    var (rs, direct, left) := Feed(p.readers, data);
    var k := Min(|left|, Space(p));
    var n := |data| - |left[k..]|;
    PutFiles(p, data, n);
    FeedAccounts(p, data);
    Suffix(Bytes(direct), left, k);
    var p' := PutBytes(p, data).0;
    var q := p.(next := p.next + 1, taken := p.taken + [Piece(p.next, data[..n])],
                offered := p.offered[p.next := data]);
    SamePuts(q, p');
    SameGets(p.(readers := rs, delivered := p.delivered + direct), p');
  }

  lemma Suffix(a: seq<Byte>, b: seq<Byte>, k: nat)
    requires k <= |b|
    ensures (a + b)[..|a + b| - |b[k..]|] + b[k..] == a + b
  {
  }

  lemma GetBytesAccounts(p: Pipe, want: nat)
    requires Queues(p) && Accounts(p)
    ensures var (p', got) := GetBytes(p, want);
            && Accounts(p') && p.next in p'.wanted && p.next !in Gets(p'.readers)
            && |got| <= want && Of(p'.delivered, p.next) == got && p'.wanted[p.next] == want
  {
    hide HaveData, HaveNeed, Drain, Bytes, Of, PutsOwn, GetsOwn, Gets;
    GetBytesFacts(p, want);
    var (p', got) := GetBytes(p, want);
    var n := Min(want, |p.ring|);
    DrainAccounts(p, want - n);
    var (ws1, direct) := Drain(p.writers, want - n);
    var q := p.(writers := ws1, taken := p.taken + direct);
    DrainAccounts(q, p.size - |p.ring[n..]|);
    var (ws2, refill) := Drain(ws1, p.size - |p.ring[n..]|);
    GetFiles(p, want, got);
    SamePuts(q.(writers := ws2, taken := q.taken + refill), p');
    var q' := p.(next := p.next + 1, delivered := p.delivered + [Piece(p.next, got)],
                 wanted := p.wanted[p.next := want]);
    SameGets(q', p');
  }

  lemma PutInv(p: Pipe, tid: ThreadId, prio: int, data: seq<Byte>, minXfer: nat, noWait: bool)
    requires Inv(p)
    ensures Inv(Put(p, tid, prio, data, minXfer, noWait).0)
  {
    hide Queues, PutBytes, PutsOwn, GetsOwn, PutCapacity, Of, Puts, Bytes, Pend;
    PutKeepsQueues(p, tid, prio, data, minXfer, noWait);
    PutConserves(p, data);
    PutBytesAccounts(p, data);
    var (p', rem) := PutBytes(p, data);
    var w := Waiter(tid, prio, Outgoing(p.next, rem));
    PutPends(p', w);
    SameGets(p', p'.(writers := Pend(p'.writers, w)));
  }

  lemma GetInv(p: Pipe, tid: ThreadId, prio: int, want: nat, minXfer: nat, noWait: bool)
    requires Inv(p)
    ensures Inv(Get(p, tid, prio, want, minXfer, noWait).0)
  {
    hide Queues, GetBytes, PutsOwn, GetsOwn, GetCapacity, Of, Gets, Bytes, Pend;
    GetKeepsQueues(p, tid, prio, want, minXfer, noWait);
    GetConserves(p, want);
    GetBytesAccounts(p, want);
    var (p', got) := GetBytes(p, want);
    var w := Waiter(tid, prio, Incoming(p.next, want - |got|));
    GetPends(p', w);
    SamePuts(p', p'.(readers := Pend(p'.readers, w)));
  }

  // ---------------------------------------------------------------- what a call answers

  /** How far a put can go without waiting: what the readers need and what the ring has room for. */
  ghost function Room(p: Pipe): nat
    requires Queues(p)
  {
    Needed(p.readers) + p.size - |p.ring|
  }

  /** How much a get can have without waiting: what the ring holds and what the writers offer. */
  ghost function Stock(p: Pipe): nat { |p.ring| + Offered(p.writers) }

  /** The answer to a put. It is invalid exactly when the minimum exceeds the request, and refused
      exactly when it may not wait and there is no room for its minimum; both change nothing. It blocks
      exactly when it may wait and there is no room for all of it; the caller then waits with the bytes
      that had no room. Otherwise it has moved what there was room for. The bytes moved are the next
      ones of the stream, and they are filed under this request. */
  lemma PutAnswers(p: Pipe, tid: ThreadId, prio: int, data: seq<Byte>, minXfer: nat, noWait: bool)
    requires Inv(p)
    ensures var (p', res) := Put(p, tid, prio, data, minXfer, noWait);
            var n := Min(|data|, Room(p));
            && (res == Invalid <==> |data| < minXfer)
            && (res == Refused <==> minXfer <= |data| && noWait && Room(p) < minXfer)
            && (res == Blocked <==> minXfer <= |data| && !noWait && Room(p) < |data|)
            && (res.Moved? ==> res.count == n)
            && (res == Invalid || res == Refused ==> p' == p)
            && (res == Blocked || res.Moved? ==>
                  && Of(p'.taken, p.next) == data[..n] && Bytes(p'.taken) == Bytes(p.taken) + data[..n]
                  && p'.offered == p.offered[p.next := data])
            && p'.writers
               == if res == Blocked then Pend(p.writers, Waiter(tid, prio, Outgoing(p.next, data[n..]))) else p.writers
  {
    hide Queues, PutBytes, PutsOwn, GetsOwn, Of, Puts, Bytes, Pend, Needed;
    RoomIs(p, |data|);
    PutBytesFacts(p, data);
    PutBytesAccounts(p, data);
    PutBytesFiles(p, data);
    var rem := PutBytes(p, data).1;
    SuffixIs(Of(PutBytes(p, data).0.taken, p.next), rem, data);
  }

  lemma RoomIs(p: Pipe, n: nat)
    requires Queues(p)
    ensures PutCapacity(p, n) == Min(n, Room(p)) && GetCapacity(p, n) == Min(n, Stock(p))
  {
  }

  lemma SuffixIs(a: seq<Byte>, b: seq<Byte>, c: seq<Byte>)
    requires a + b == c
    ensures a == c[..|c| - |b|] && b == c[|c| - |b|..]
  {
  }

  lemma PutBytesFiles(p: Pipe, data: seq<Byte>)
    requires Queues(p) && Accounts(p)
    ensures var p' := PutBytes(p, data).0;
            Bytes(p'.taken) == Bytes(p.taken) + Of(p'.taken, p.next) && p'.offered == p.offered[p.next := data]
  {
    hide HaveData, HaveNeed, Feed, Bytes, Of, Reqs, GetsOwn;
    FeedCounts(p.readers, data);
    var (rs, direct, left) := Feed(p.readers, data);
    var piece := Piece(p.next, data[..|data| - |left[Min(|left|, Space(p))..]|]);
    BytesAppend1(p.taken, piece);
    OneMore(p.taken, piece, p.next);
    NextPutUnused(p);
    OfNone(p.taken, p.next);
    assert [] + piece.bytes == piece.bytes;
  }

  lemma GetBytesFiles(p: Pipe, want: nat)
    requires Queues(p)
    ensures var (p', got) := GetBytes(p, want);
            Bytes(p'.delivered) == Bytes(p.delivered) + got && p'.wanted == p.wanted[p.next := want]
  {
    hide HaveData, HaveNeed, Drain, Bytes;
    BytesAppend1(p.delivered, Piece(p.next, GetBytes(p, want).1));
  }

  /** The answer to a get, the other way round: it has what is in stock, and waits for what is missing. */
  lemma GetAnswers(p: Pipe, tid: ThreadId, prio: int, want: nat, minXfer: nat, noWait: bool)
    requires Inv(p)
    ensures var (p', res) := Get(p, tid, prio, want, minXfer, noWait);
            var n, got := Min(want, Stock(p)), Of(p'.delivered, p.next);
            && (res == Invalid <==> want < minXfer)
            && (res == Refused <==> minXfer <= want && noWait && Stock(p) < minXfer)
            && (res == Blocked <==> minXfer <= want && !noWait && Stock(p) < want)
            && (res.Moved? ==> res.count == n)
            && (res == Invalid || res == Refused ==> p' == p)
            && (res == Blocked || res.Moved? ==>
                  && |got| == n && Bytes(p'.delivered) == Bytes(p.delivered) + got
                  && p'.wanted == p.wanted[p.next := want])
            && p'.readers
               == if res == Blocked then Pend(p.readers, Waiter(tid, prio, Incoming(p.next, want - n))) else p.readers
  {
    hide Queues, GetBytes, PutsOwn, GetsOwn, Of, Gets, Bytes, Pend, Offered;
    RoomIs(p, want);
    GetBytesFacts(p, want);
    GetBytesAccounts(p, want);
    GetBytesFiles(p, want);
  }

  /** A waiting call that leaves the queue other than by its timeout has had its whole request moved. */
  lemma LeavesSatisfied(p: Pipe, e: Event, r: nat)
    requires Inv(p)
    ensures r in Puts(p.writers) && !e.WriterTimeout? && r !in Puts(Step(p, e).writers) ==>
              r in p.offered && Of(Step(p, e).taken, r) == p.offered[r]
    ensures r in Gets(p.readers) && !e.ReaderTimeout? && r !in Gets(Step(p, e).readers) ==>
              r in p.wanted && |Of(Step(p, e).delivered, r)| == p.wanted[r]
    ensures e.WriterTimeout? || e.ReaderTimeout? ==>
              Step(p, e).taken == p.taken && Step(p, e).delivered == p.delivered
  {
    match e
    case PutCall(tid, prio, data, minXfer, noWait) => PutSatisfies(p, tid, prio, data, minXfer, noWait, r);
    case GetCall(tid, prio, want, minXfer, noWait) => GetSatisfies(p, tid, prio, want, minXfer, noWait, r);
    case WriterTimeout(tid) =>
    case ReaderTimeout(tid) =>
  }

  lemma PutSatisfies(p: Pipe, tid: ThreadId, prio: int, data: seq<Byte>, minXfer: nat, noWait: bool, r: nat)
    requires Inv(p)
    ensures var p' := Put(p, tid, prio, data, minXfer, noWait).0;
            && (r in Puts(p.writers) ==> r in Puts(p'.writers))
            && (r in Gets(p.readers) && r !in Gets(p'.readers) ==>
                  r in p.wanted && |Of(p'.delivered, r)| == p.wanted[r])
  {
    hide HaveData, HaveNeed, Feed, Bytes, Of, NeedOf, DataOf, Gets, Puts, Reqs, DistinctGets, DistinctPuts, Pend;
    var (rs, direct, left) := Feed(p.readers, data);
    FeedBalance(p.delivered, p.readers, data, r);
    if r in Gets(p.readers) && r !in Gets(rs) {
      assert GetOwn(p, r);
      NeedOfNone(rs, r);
    }
    PutBytesAccounts(p, data);
    var (p', rem) := PutBytes(p, data);
    PendPuts(p'.writers, Waiter(tid, prio, Outgoing(p.next, rem)), r);
  }

  lemma GetSatisfies(p: Pipe, tid: ThreadId, prio: int, want: nat, minXfer: nat, noWait: bool, r: nat)
    requires Inv(p)
    ensures var p' := Get(p, tid, prio, want, minXfer, noWait).0;
            && (r in Gets(p.readers) ==> r in Gets(p'.readers))
            && (r in Puts(p.writers) && r !in Puts(p'.writers) ==>
                  r in p.offered && Of(p'.taken, r) == p.offered[r])
  {
    hide HaveData, HaveNeed, Drain, Bytes, Of, NeedOf, DataOf, Gets, Puts, Reqs, DistinctGets, DistinctPuts, Pend;
    var n := Min(want, |p.ring|);
    var (ws1, direct) := Drain(p.writers, want - n);
    var room := p.size - |p.ring[n..]|;
    var ws2 := Drain(ws1, room).0;
    DrainBalance(p.taken, p.writers, want - n, r);
    DrainBalance(p.taken + direct, ws1, room, r);
    if r in Puts(p.writers) && r !in Puts(ws2) {
      assert PutOwn(p, r);
      DataOfNone(ws2, r);
    }
    GetBytesAccounts(p, want);
    GetBytesFacts(p, want);
    var (p', got) := GetBytes(p, want);
    PendGets(p'.readers, Waiter(tid, prio, Incoming(p.next, want - |got|)), r);
  }

  lemma StepInv(p: Pipe, e: Event)
    requires Inv(p)
    ensures Inv(Step(p, e))
  {
    match e
    case PutCall(tid, prio, data, minXfer, noWait) => PutInv(p, tid, prio, data, minXfer, noWait);
    case GetCall(tid, prio, want, minXfer, noWait) => GetInv(p, tid, prio, want, minXfer, noWait);
    case WriterTimeout(tid) =>
      hide HaveData, HaveNeed, PutsOwn, GetsOwn, Bytes;
      UnpendData(p.writers, tid);
      WriterLeaves(p, tid);
      SameGets(p, Step(p, e));
    case ReaderTimeout(tid) =>
      hide HaveData, HaveNeed, PutsOwn, GetsOwn, Bytes;
      UnpendNeed(p.readers, tid);
      ReaderLeaves(p, tid);
      SamePuts(p, Step(p, e));
  }

  /** Whatever calls and timeouts happen, in whatever order. */
  lemma {:induction false} EveryRun(p: Pipe, es: seq<Event>)
    requires Inv(p)
    ensures Inv(Run(p, es))
    decreases |es|
  {
    if es != [] {
      StepInv(p, es[0]);
      EveryRun(Step(p, es[0]), es[1..]);
    }
  }

  /** The bytes taken are those delivered and those in the ring, in order; no put has had others taken from
      it than its own first ones, and no get has been given more than it wants. */
  ghost predicate Faithful(p: Pipe) {
    && Queues(p) && Bytes(p.taken) == Bytes(p.delivered) + p.ring
    && (forall r :: r in p.offered ==> Of(p.taken, r) <= p.offered[r])
    && (forall r :: r in p.wanted ==> |Of(p.delivered, r)| <= p.wanted[r])
  }

  lemma InvFaithful(p: Pipe)
    requires Inv(p)
    ensures Faithful(p)
  {
    hide Queues, Of, DataOf, NeedOf, Puts, Gets, Reqs, DistinctPuts, DistinctGets, Bytes;
    forall r | r in p.offered
      ensures Of(p.taken, r) <= p.offered[r]
    {
      assert PutOwn(p, r);
      assert Of(p.taken, r) <= Of(p.taken, r) + DataOf(p.writers, r);
    }
    forall r | r in p.wanted
      ensures |Of(p.delivered, r)| <= p.wanted[r]
    {
      assert GetOwn(p, r);
    }
  }

  lemma FreshInv(size: nat)
    ensures Inv(Fresh(size))
  {
  }

  lemma FromEmpty(size: nat, es: seq<Event>)
    ensures Faithful(Run(Fresh(size), es))
  {
    hide Inv, Faithful, Run, Fresh;
    FreshInv(size);
    EveryRun(Fresh(size), es);
    InvFaithful(Run(Fresh(size), es));
  }

  const EAGAIN := 11

  /** pipe_return_code: what a call that had to wait returns, from what its descriptor says is left. */
  function ReturnCode(minXfer: nat, remaining: nat, requested: nat): int
    requires remaining <= requested
  {
    if requested - remaining >= minXfer then 0 else -EAGAIN
  }

  /** What ReturnCode makes of the descriptor of request r: 0 exactly when its minimum has really been moved. */
  ghost predicate CodeReports(p: Pipe, r: nat, minXfer: nat) {
    && (r in Puts(p.writers) && r in p.offered ==>
          var left := |DataOf(p.writers, r)|;
          left <= |p.offered[r]| && (ReturnCode(minXfer, left, |p.offered[r]|) == 0 <==> |Of(p.taken, r)| >= minXfer))
    && (r in Gets(p.readers) && r in p.wanted ==>
          var left := NeedOf(p.readers, r);
          left <= p.wanted[r] && (ReturnCode(minXfer, left, p.wanted[r]) == 0 <==> |Of(p.delivered, r)| >= minXfer))
  }

  /** Whenever a waiting put or get gives up, in any state that a run leads to, its descriptor tells the
      truth: it succeeds exactly when its minimum has been taken or delivered. */
  lemma ReturnCodeReports(p: Pipe, r: nat, minXfer: nat)
    requires Inv(p)
    ensures CodeReports(p, r, minXfer)
  {
    hide Queues, Conserved, Of, DataOf, NeedOf, Puts, Gets, Reqs, DistinctPuts, DistinctGets;
    if r in p.offered {
      assert PutOwn(p, r);
    }
    if r in p.wanted {
      assert GetOwn(p, r);
    }
  }
}
