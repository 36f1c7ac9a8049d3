/**
 Mailboxes (kernel/mailbox.c): a message and a receiver meet when each accepts
 the other.  Every message has a number; the mailbox remembers what became of
 each, and which asynchronous descriptor carries it.
 */
module Mailboxes {
  import opened Lists
  import opened Memory
  import opened WaitQueues
  import opened Wrappers

  datatype Who = AnyThread | Only(tid: ThreadId)

  /** A message to send; async is the descriptor of an asynchronous one. */
  datatype Tx = Tx(id: nat, async: Option<nat>, source: ThreadId, target: Who, data: seq<Byte>, info: int)

  /** A request to receive at most room bytes; now says that the data is wanted at once. */
  datatype Rx = Rx(receiver: ThreadId, source: Who, room: nat, info: int, now: bool)

  /** A message that has been received but not disposed of: the receiver knows
      its source, its info and its size; the sender gets the receiver's info. */
  datatype Letter = Letter(tx: Tx, receiver: ThreadId, size: nat, rxInfo: int, txInfo: int)

  datatype Mbox = Mbox(
    txq: seq<Waiter<Tx>>,            // messages waiting for a receiver, by number
    rxq: seq<Waiter<Rx>>,            // requests waiting for a message, by number
    held: map<nat, Letter>,
    disposed: map<nat, seq<Byte>>,   // what the receiver took; the sender learns how much
    gone: set<nat>,                  // messages refused or timed out
    kinds: map<nat, Option<nat>>,    // the descriptor of each message, if asynchronous
    free: seq<nat>,                  // the stack of unused descriptors
    inUse: map<nat, nat>,            // the message each other descriptor carries
    total: nat,
    next: nat,                       // the next message
    nextRx: nat)                     // the next request

  /** The test of mbox_message_match. */
  predicate Compatible(tx: Tx, rx: Rx) {
    (tx.target.AnyThread? || tx.target == Only(rx.receiver)) && (rx.source.AnyThread? || rx.source == Only(tx.source))
  }

  /** What a match makes of the two descriptors. */
  function Match(tx: Tx, rx: Rx): Letter {
    Letter(tx, rx.receiver, if rx.room > |tx.data| then |tx.data| else rx.room, tx.info, rx.info)
  }

  function FirstReceiver(q: seq<Waiter<Rx>>, tx: Tx): (i: nat)
    ensures i <= |q| && (i < |q| ==> Compatible(tx, q[i].desc))
    ensures forall j :: 0 <= j < i ==> !Compatible(tx, q[j].desc)
  {
    if q == [] || Compatible(tx, q[0].desc) then 0 else 1 + FirstReceiver(q[1..], tx)
  }

  function FirstSender(q: seq<Waiter<Tx>>, rx: Rx): (i: nat)
    ensures i <= |q| && (i < |q| ==> Compatible(q[i].desc, rx))
    ensures forall j :: 0 <= j < i ==> !Compatible(q[j].desc, rx)
  {
    if q == [] || Compatible(q[0].desc, rx) then 0 else 1 + FirstSender(q[1..], rx)
  }

  /** mbox_message_put for a message that has just been given its number. */
  function MessagePut(m: Mbox, tx: Tx, prio: int, noWait: bool): Mbox {
    var i := FirstReceiver(m.rxq, tx);
    if i < |m.rxq| then m.(rxq := Unpend(m.rxq, m.rxq[i].tid), held := m.held[tx.id := Match(tx, m.rxq[i].desc)])
    else if noWait then m.(gone := m.gone + {tx.id})
    else m.(txq := Pend(m.txq, Waiter(tx.id, prio, tx)))
  }

  /** k_mbox_put. */
  function Put(m: Mbox, tid: ThreadId, prio: int, target: Who, data: seq<Byte>, info: int, noWait: bool): Mbox {
    MessagePut(m.(next := m.next + 1, kinds := m.kinds[m.next := None]), Tx(m.next, None, tid, target, data, info),
               prio, noWait)
  }

  /** k_mbox_async_put once it has got a descriptor. */
  function AsyncPut(m: Mbox, tid: ThreadId, prio: int, target: Who, data: seq<Byte>, info: int): Mbox
    requires m.free != []
  {
    var d := m.free[0];
    var m1 := m.(next := m.next + 1, kinds := m.kinds[m.next := Some(d)], free := m.free[1..],
                 inUse := m.inUse[d := m.next]);
    MessagePut(m1, Tx(m.next, Some(d), tid, target, data, info), prio, false)
  }

  /** mbox_message_dispose, the receiver having taken the first size bytes; nothing happens the second time. */
  function Dispose(m: Mbox, id: nat, discard: bool): Mbox {
    if id !in m.held then m
    else
      var letter := m.held[id];
      var bytes := if discard || letter.size > |letter.tx.data| then [] else letter.tx.data[..letter.size];
      var m1 := m.(held := m.held - {id}, disposed := m.disposed[id := bytes]);
      if letter.tx.async.None? then m1
      else m1.(free := [letter.tx.async.value] + m.free, inUse := m.inUse - {letter.tx.async.value})
  }

  /** k_mbox_get, with mbox_message_data_check where a message is there already. */
  function Get(m: Mbox, rx: Rx, prio: int, noWait: bool): Mbox {
    var m0 := m.(nextRx := m.nextRx + 1);
    var i := FirstSender(m.txq, rx);
    if i < |m.txq| then
      var tx := m.txq[i].desc;
      var m1 := m0.(txq := Unpend(m.txq, m.txq[i].tid), held := m.held[tx.id := Match(tx, rx)]);
      if rx.now || m1.held[tx.id].size == 0 then Dispose(m1, tx.id, false) else m1
    else if noWait then m0
    else m0.(rxq := Pend(m.rxq, Waiter(m.nextRx, prio, rx)))
  }

  datatype Event =
    | EPut(tid: ThreadId, prio: int, target: Who, data: seq<Byte>, info: int, noWait: bool)
    | EAsyncPut(tid: ThreadId, prio: int, target: Who, data: seq<Byte>, info: int)
    | EGet(rx: Rx, prio: int, noWait: bool)
    | EDispose(id: nat, discard: bool)   // k_mbox_data_get, or the check after a wait
    | ETxTimeout(id: nat)
    | ERxTimeout(id: nat)

  function Step(m: Mbox, e: Event): Mbox {
    match e
    case EPut(tid, prio, target, data, info, noWait) => Put(m, tid, prio, target, data, info, noWait)
    case EAsyncPut(tid, prio, target, data, info) =>
      if m.free == [] then m else AsyncPut(m, tid, prio, target, data, info)
    case EGet(rx, prio, noWait) => Get(m, rx, prio, noWait)
    case EDispose(id, discard) => Dispose(m, id, discard)
    case ETxTimeout(id) =>
      if id in m.kinds && m.kinds[id].None? && (exists w :: w in m.txq && w.tid == id)
      then m.(txq := Unpend(m.txq, id), gone := m.gone + {id}) else m
    case ERxTimeout(id) => m.(rxq := Unpend(m.rxq, id))
  }

  // ---------------------------------------------------------------- what every run keeps

  /** Nobody waits for whom the other side waits too. */
  ghost predicate NoMatchWaits(m: Mbox) {
    forall t, r :: t in m.txq && r in m.rxq ==> !Compatible(t.desc, r.desc)
  }

  /** In how many places a message is. */
  ghost function Fates(m: Mbox, id: nat): nat {
    One(id in Tids(m.txq)) + One(id in m.held) + One(id in m.disposed) + One(id in m.gone)
  }

  ghost predicate Shapes(m: Mbox) {
    && DistinctThreads(m.txq) && DistinctThreads(m.rxq)
    && (forall w :: w in m.txq ==> w.desc.id == w.tid)
    && (forall id :: id in m.held ==> m.held[id].tx.id == id && m.held[id].size <= |m.held[id].tx.data|)
    && (forall r :: r in Tids(m.rxq) ==> r < m.nextRx)
  }

  /** Each message waits, is held, was disposed of or is gone, and is so once; x has no fate yet. */
  ghost predicate OneFate(m: Mbox, x: Option<nat>) {
    forall id: nat :: Fates(m, id) == One(id < m.next && Some(id) != x)
  }

  ghost predicate Live(m: Mbox, id: nat) { id in Tids(m.txq) || id in m.held }

  /** Waiting and held messages know their descriptors. */
  ghost predicate Carried(m: Mbox) {
    && (forall w :: w in m.txq ==> w.tid in m.kinds && m.kinds[w.tid] == w.desc.async)
    && (forall id :: id in m.held ==> id in m.kinds && m.kinds[id] == m.held[id].tx.async)
  }

  /** An asynchronous message that is live, or is x. */
  ghost predicate Riding(m: Mbox, x: Option<nat>, id: nat) {
    id in m.kinds && m.kinds[id].Some? && (Live(m, id) || x == Some(id))
  }

  /** A descriptor carries exactly the one message it was taken for, until that is disposed of. */
  ghost predicate Lent(m: Mbox, x: Option<nat>) {
    && (forall d :: d in m.inUse ==> d < m.total && Riding(m, x, m.inUse[d]) && m.kinds[m.inUse[d]] == Some(d))
    && (forall id: nat :: Riding(m, x, id) ==> m.kinds[id].value in m.inUse && m.inUse[m.kinds[id].value] == id)
  }

  /** Every other descriptor is on the stack of free ones, once. */
  ghost predicate Stacked(m: Mbox) {
    forall d: nat :: Count(m.free, d) == One(d < m.total && d !in m.inUse)
  }

  ghost predicate Descriptors(m: Mbox, x: Option<nat>) { Carried(m) && Lent(m, x) && Stacked(m) }

  ghost predicate Inv(m: Mbox) {
    NoMatchWaits(m) && Shapes(m) && OneFate(m, None) && Descriptors(m, None)
  }

  /** The message tx has just been given its number and, if asynchronous, its descriptor. */
  ghost predicate Posting(m: Mbox, tx: Tx) {
    && NoMatchWaits(m) && Shapes(m) && OneFate(m, Some(tx.id)) && Descriptors(m, Some(tx.id))
    && tx.id < m.next && tx.id in m.kinds && m.kinds[tx.id] == tx.async
  }

  lemma PostingFresh(m: Mbox, tx: Tx)
    requires Posting(m, tx)
    ensures tx.id !in Tids(m.txq) && tx.id !in m.held && tx.id !in m.disposed && tx.id !in m.gone
  {
    assert Fates(m, tx.id) == 0;
    hide Shapes, Descriptors, NoMatchWaits;
  }

  /** Descriptors are none the wiser when the same asynchronous messages are live. */
  lemma DescriptorsFrame(m: Mbox, m': Mbox, x: Option<nat>, x': Option<nat>)
    requires Descriptors(m, x) && Carried(m') && m'.free == m.free && m'.inUse == m.inUse && m'.kinds == m.kinds
    requires m'.total == m.total
    requires forall id: nat :: Riding(m', x', id) <==> Riding(m, x, id)
    ensures Descriptors(m', x')
  {
    hide Riding, Carried, Count;
  }

  ghost predicate SameRiders(m: Mbox, m': Mbox, x: Option<nat>, x': Option<nat>) {
    forall id: nat :: id in m.kinds && m.kinds[id].Some? ==> (Live(m', id) || x' == Some(id)
       <==> Live(m, id) || x == Some(id))
  }

  lemma RidersFrame(m: Mbox, m': Mbox, x: Option<nat>, x': Option<nat>)
    requires Descriptors(m, x) && Carried(m') && m'.free == m.free && m'.inUse == m.inUse && m'.kinds == m.kinds
    requires m'.total == m.total
    requires SameRiders(m, m', x, x')
    ensures Descriptors(m', x')
  {
    forall id: nat
      ensures Riding(m', x', id) <==> Riding(m, x, id)
    {
      hide Live, Descriptors, Carried;
    }
    hide SameRiders;
    DescriptorsFrame(m, m', x, x');
  }

  /** A message gets its one fate. */
  lemma FateGiven(m: Mbox, m': Mbox, id: nat, a: set<nat>, b: set<nat>, c: set<nat>)
    requires OneFate(m, Some(id)) && id < m.next && m'.next == m.next && Fates(m, id) == 0
    requires Tids(m'.txq) == Tids(m.txq) + a && m'.held.Keys == m.held.Keys + b && m'.gone == m.gone + c
    requires m'.disposed == m.disposed
    requires (a == {id} && b == c == {}) || (b == {id} && a == c == {}) || (c == {id} && a == b == {})
    ensures OneFate(m', None)
  {
    forall i: nat
      ensures Fates(m', i) == One(i < m'.next && Some(i) != None)
    {
      assert Fates(m, i) == One(i < m.next && Some(i) != Some(id));
    }
    hide Fates;
  }

  /** A live message becomes another kind of live, or dies. */
  lemma FateChanged(m: Mbox, m': Mbox, id: nat, b: set<nat>, c: set<nat>)
    requires OneFate(m, None) && m'.next == m.next && id in Tids(m.txq) && m'.disposed == m.disposed
    requires Tids(m'.txq) == Tids(m.txq) - {id} && m'.held.Keys == m.held.Keys + b && m'.gone == m.gone + c
    requires (b == {id} && c == {}) || (c == {id} && b == {})
    ensures OneFate(m', None)
  {
    assert Fates(m, id) == One(id < m.next && Some(id) != None);
    forall i: nat
      ensures Fates(m', i) == One(i < m'.next && Some(i) != None)
    {
      assert Fates(m, i) == One(i < m.next && Some(i) != None);
    }
    hide Fates;
  }

  lemma CarriedOn(m: Mbox, m': Mbox, tx: Tx)
    requires Carried(m) && m'.kinds == m.kinds && tx.id in m.kinds && m.kinds[tx.id] == tx.async
    requires forall w :: w in m'.txq ==> w in m.txq || (w.tid == tx.id && w.desc == tx)
    requires forall id :: id in m'.held ==>
        (id in m.held && m'.held[id] == m.held[id]) || (id == tx.id && m'.held[id].tx == tx)
    ensures Carried(m')
  {
  }

  lemma SameRidersFrom(m: Mbox, m': Mbox, id: nat)
    requires forall i: nat :: Live(m', i) <==> Live(m, i) || i == id
    ensures SameRiders(m, m', Some(id), None)
  {
    hide Live;
  }

  /** The message is handed to a receiver that accepts it. */
  lemma PutMatches(m: Mbox, tx: Tx, m': Mbox, i: nat)
    requires Posting(m, tx) && i < |m.rxq|
    requires m' == m.(rxq := Unpend(m.rxq, m.rxq[i].tid), held := m.held[tx.id := Match(tx, m.rxq[i].desc)])
    ensures Inv(m')
  {
    PostingFresh(m, tx);
    assert Fates(m, tx.id) == 0;
    hide Fates;
    FateGiven(m, m', tx.id, {}, {tx.id}, {});
    hide OneFate;
    PutMatchesShapes(m, tx, m', i);
    hide Shapes, NoMatchWaits, Carried, Lent, Stacked, Unpend, Tids, SameRiders;
    CarriedOn(m, m', tx);
    SameRidersFrom(m, m', tx.id);
    RidersFrame(m, m', Some(tx.id), None);
  }

  lemma PutMatchesShapes(m: Mbox, tx: Tx, m': Mbox, i: nat)
    requires NoMatchWaits(m) && Shapes(m) && i < |m.rxq|
    requires m' == m.(rxq := Unpend(m.rxq, m.rxq[i].tid), held := m.held[tx.id := Match(tx, m.rxq[i].desc)])
    ensures NoMatchWaits(m') && Shapes(m')
  {
    UnpendTids(m.rxq, m.rxq[i].tid);
    hide Unpend, Tids, DistinctThreads, Compatible;
  }

  lemma PutRefused(m: Mbox, tx: Tx, m': Mbox)
    requires Posting(m, tx) && tx.async.None? && m' == m.(gone := m.gone + {tx.id})
    ensures Inv(m')
  {
    PostingFresh(m, tx);
    assert Fates(m, tx.id) == 0;
    hide Fates;
    FateGiven(m, m', tx.id, {}, {}, {tx.id});
    hide OneFate, Tids, DistinctThreads, Compatible;
    assert Shapes(m') && NoMatchWaits(m') && Carried(m');
    hide Shapes, NoMatchWaits, Carried;
    assert SameRiders(m, m', Some(tx.id), None);
    hide SameRiders;
    RidersFrame(m, m', Some(tx.id), None);
  }

  lemma PutWaits(m: Mbox, tx: Tx, prio: int, m': Mbox)
    requires Posting(m, tx) && FirstReceiver(m.rxq, tx) == |m.rxq|
    requires m' == m.(txq := Pend(m.txq, Waiter(tx.id, prio, tx)))
    ensures Inv(m')
  {
    PostingFresh(m, tx);
    assert Fates(m, tx.id) == 0;
    PendTids(m.txq, Waiter(tx.id, prio, tx));
    hide Fates, Pend;
    FateGiven(m, m', tx.id, {tx.id}, {}, {});
    hide OneFate;
    PutWaitsShapes(m, tx, prio, m');
    hide Shapes, NoMatchWaits, DistinctThreads, Carried, Lent, Stacked, Tids, SameRiders;
    CarriedOn(m, m', tx);
    SameRidersFrom(m, m', tx.id);
    RidersFrame(m, m', Some(tx.id), None);
  }

  lemma PutWaitsShapes(m: Mbox, tx: Tx, prio: int, m': Mbox)
    requires NoMatchWaits(m) && Shapes(m) && tx.id !in Tids(m.txq)
    requires FirstReceiver(m.rxq, tx) == |m.rxq| && m' == m.(txq := Pend(m.txq, Waiter(tx.id, prio, tx)))
    ensures NoMatchWaits(m') && Shapes(m')
  {
    PendTids(m.txq, Waiter(tx.id, prio, tx));
    hide Pend, Tids, DistinctThreads, Compatible, FirstReceiver;
    assert forall r :: r in m.rxq ==> !Compatible(tx, r.desc);
  }

  lemma MessagePutKeeps(m: Mbox, tx: Tx, prio: int, noWait: bool)
    requires Posting(m, tx) && (noWait ==> tx.async.None?)
    ensures Inv(MessagePut(m, tx, prio, noWait))
  {
    hide Posting, Inv, FirstReceiver;
    var i, m' := FirstReceiver(m.rxq, tx), MessagePut(m, tx, prio, noWait);
    if i < |m.rxq| {
      PutMatches(m, tx, m', i);
    } else if noWait {
      PutRefused(m, tx, m');
    } else {
      PutWaits(m, tx, prio, m');
    }
  }

  // ---------------------------------------------------------------- the other calls

  /** Giving a message its number touches nothing that waits. */
  lemma NumberedShapes(m: Mbox, m1: Mbox, kind: Option<nat>)
    requires NoMatchWaits(m) && Shapes(m) && Carried(m) && (forall w :: w in m.txq ==> w.tid != m.next)
    requires m.next !in m.held
    requires m1.txq == m.txq && m1.rxq == m.rxq && m1.held == m.held && m1.nextRx == m.nextRx
    requires m1.kinds == m.kinds[m.next := kind]
    ensures NoMatchWaits(m1) && Shapes(m1) && Carried(m1)
  {
    hide Tids, DistinctThreads, Compatible;
  }

  /** A message without a fate yet, and no descriptor either. */
  lemma PostingSync(m: Mbox, tx: Tx, m1: Mbox)
    requires Inv(m) && tx.id == m.next && tx.async.None?
    requires m1 == m.(next := m.next + 1, kinds := m.kinds[m.next := None])
    ensures Posting(m1, tx)
  {
    Unnumbered(m);
    hide NoMatchWaits, Shapes, OneFate, Carried, Lent, Stacked;
    NumberedShapes(m, m1, None);
    NextFate(m, m1);
    SyncDescriptors(m, m1);
  }

  lemma SyncDescriptors(m: Mbox, m1: Mbox)
    requires Lent(m, None) && Stacked(m) && !Live(m, m.next)
    requires m1 == m.(next := m.next + 1, kinds := m.kinds[m.next := None])
    ensures Lent(m1, Some(m.next)) && Stacked(m1)
  {
    assert forall i: nat :: Live(m1, i) <==> Live(m, i);
    hide Live, Count;
  }

  lemma Unnumbered(m: Mbox)
    requires Inv(m)
    ensures m.next !in Tids(m.txq) && m.next !in m.held && m.next !in m.disposed && m.next !in m.gone
    ensures !Live(m, m.next)
    ensures forall w :: w in m.txq ==> w.tid != m.next
  {
    assert Fates(m, m.next) == One(m.next < m.next && Some(m.next) != None);
    forall w | w in m.txq
      ensures w.tid != m.next
    {
      TidsMember(m.txq, w);
    }
  }

  lemma NextFate(m: Mbox, m1: Mbox)
    requires OneFate(m, None) && m1.next == m.next + 1 && m1.txq == m.txq && m1.held == m.held
    requires m1.disposed == m.disposed && m1.gone == m.gone
    ensures OneFate(m1, Some(m.next))
  {
    forall i: nat
      ensures Fates(m1, i) == One(i < m1.next && Some(i) != Some(m.next))
    {
      assert Fates(m, i) == One(i < m.next && Some(i) != None);
    }
    hide Fates;
  }

  lemma PostingAsync(m: Mbox, tx: Tx, m1: Mbox)
    requires Inv(m) && m.free != [] && tx.id == m.next && tx.async == Some(m.free[0])
    requires m1 == m.(next := m.next + 1, kinds := m.kinds[m.next := Some(m.free[0])], free := m.free[1..],
                      inUse := m.inUse[m.free[0] := m.next])
    ensures Posting(m1, tx)
  {
    Unnumbered(m);
    PopStacked(m, m1);
    hide NoMatchWaits, Shapes, OneFate, Carried, Lent, Stacked;
    NumberedShapes(m, m1, Some(m.free[0]));
    NextFate(m, m1);
    PopLent(m, m1);
  }

  lemma PopStacked(m: Mbox, m1: Mbox)
    requires Stacked(m) && m.free != [] && m1.free == m.free[1..] && m1.total == m.total
    requires m1.inUse.Keys == m.inUse.Keys + {m.free[0]}
    ensures Stacked(m1) && m.free[0] !in m.inUse && m.free[0] < m.total
  {
    CountAt(m.free, 0);
    assert Count(m.free, m.free[0]) == One(m.free[0] < m.total && m.free[0] !in m.inUse);
    forall d: nat
      ensures Count(m1.free, d) == One(d < m1.total && d !in m1.inUse)
    {
      assert Count(m.free, d) == One(d < m.total && d !in m.inUse);
    }
  }

  lemma PopLent(m: Mbox, m1: Mbox)
    requires Lent(m, None) && m.free != [] && m.free[0] !in m.inUse && m.free[0] < m.total && !Live(m, m.next)
    requires m1 == m.(next := m.next + 1, kinds := m.kinds[m.next := Some(m.free[0])], free := m.free[1..],
                      inUse := m.inUse[m.free[0] := m.next])
    ensures Lent(m1, Some(m.next))
  {
    assert forall i: nat :: Live(m1, i) <==> Live(m, i);
    hide Live;
  }

  lemma PutKeeps(m: Mbox, tid: ThreadId, prio: int, target: Who, data: seq<Byte>, info: int, noWait: bool)
    requires Inv(m)
    ensures Inv(Put(m, tid, prio, target, data, info, noWait))
    ensures m.free != [] ==> Inv(AsyncPut(m, tid, prio, target, data, info))
  {
    hide Inv, Posting, MessagePut;
    var tx, m1 := Tx(m.next, None, tid, target, data, info), m.(next := m.next + 1, kinds := m.kinds[m.next := None]);
    PostingSync(m, tx, m1);
    MessagePutKeeps(m1, tx, prio, noWait);
    if m.free != [] {
      var d := m.free[0];
      var m2 := m.(next := m.next + 1, kinds := m.kinds[m.next := Some(d)], free := m.free[1..],
                   inUse := m.inUse[d := m.next]);
      PostingAsync(m, tx.(async := Some(d)), m2);
      MessagePutKeeps(m2, tx.(async := Some(d)), prio, false);
    }
  }

  /** A held message disposed of: its one fate, and its descriptor back on the stack. */
  lemma DisposeKeeps(m: Mbox, id: nat, discard: bool)
    requires Inv(m)
    ensures Inv(Dispose(m, id, discard))
  {
    if id in m.held {
      var m' := Dispose(m, id, discard);
      DisposeFates(m, m', id);
      assert m.held[id].tx.id == id;
      DisposeShapes(m, m', id);
      hide NoMatchWaits, Shapes, OneFate, Carried;
      if m.held[id].tx.async.None? {
        DisposeSync(m, m', id);
      } else {
        DisposeAsync(m, m', id, m.held[id].tx.async.value);
      }
    }
  }

  lemma DisposeFates(m: Mbox, m': Mbox, id: nat)
    requires OneFate(m, None) && id in m.held && m'.next == m.next && m'.txq == m.txq && m'.gone == m.gone
    requires m'.held.Keys == m.held.Keys - {id} && m'.disposed.Keys == m.disposed.Keys + {id}
    ensures OneFate(m', None) && id !in Tids(m.txq)
  {
    assert Fates(m, id) == One(id < m.next && Some(id) != None);
    forall i: nat
      ensures Fates(m', i) == One(i < m'.next && Some(i) != None)
    {
      assert Fates(m, i) == One(i < m.next && Some(i) != None);
    }
    hide Fates;
  }

  lemma DisposeShapes(m: Mbox, m': Mbox, id: nat)
    requires NoMatchWaits(m) && Shapes(m) && Carried(m) && m'.txq == m.txq && m'.rxq == m.rxq && m'.nextRx == m.nextRx
    requires m'.held == m.held - {id} && m'.kinds == m.kinds
    ensures NoMatchWaits(m') && Shapes(m') && Carried(m')
  {
    hide Tids, DistinctThreads, Compatible;
  }

  lemma DisposeSync(m: Mbox, m': Mbox, id: nat)
    requires Carried(m) && Lent(m, None) && Stacked(m) && id in m.held && m.held[id].tx.async.None?
    requires m'.free == m.free && m'.inUse == m.inUse && m'.kinds == m.kinds && m'.total == m.total && m'.txq == m.txq
    requires m'.held == m.held - {id}
    ensures Lent(m', None) && Stacked(m')
  {
    hide Tids, Count;
    assert forall i: nat :: Riding(m', None, i) <==> Riding(m, None, i);
    hide Riding, Carried;
  }

  lemma DisposeAsync(m: Mbox, m': Mbox, id: nat, d: nat)
    requires Carried(m) && Lent(m, None) && Stacked(m) && id in m.held && m.held[id].tx.async == Some(d)
    requires id !in Tids(m.txq)
    requires m'.free == [d] + m.free && m'.inUse == m.inUse - {d} && m'.kinds == m.kinds && m'.total == m.total
    requires m'.txq == m.txq && m'.held == m.held - {id}
    ensures Lent(m', None) && Stacked(m')
  {
    hide Tids;
    assert Riding(m, None, id) && m.inUse[d] == id;
    assert forall i: nat :: Riding(m', None, i) <==> Riding(m, None, i) && i != id;
    PushStacked(m, m', d);
    hide Riding, Carried, Stacked;
  }

  lemma PushStacked(m: Mbox, m': Mbox, d: nat)
    requires Stacked(m) && d in m.inUse && d < m.total && m'.free == [d] + m.free && m'.inUse == m.inUse - {d}
    requires m'.total == m.total
    ensures Stacked(m')
  {
    forall e: nat
      ensures Count(m'.free, e) == One(e < m'.total && e !in m'.inUse)
    {
      assert m'.free[1..] == m.free;
      assert Count(m.free, e) == One(e < m.total && e !in m.inUse);
    }
  }

  /** A waiting message handed to a receiver. */
  lemma TakenKeeps(m: Mbox, rx: Rx, i: nat, m': Mbox)
    requires Inv(m) && i < |m.txq|
    requires m' == m.(nextRx := m.nextRx + 1, txq := Unpend(m.txq, m.txq[i].tid),
                      held := m.held[m.txq[i].desc.id := Match(m.txq[i].desc, rx)])
    ensures Inv(m')
  {
    var tx := m.txq[i].desc;
    assert m.txq[i] in m.txq && tx.id == m.txq[i].tid;
    TidsMember(m.txq, m.txq[i]);
    UnpendTids(m.txq, tx.id);
    assert tx.id in m.kinds && m.kinds[tx.id] == tx.async;
    TakenShapes(m, rx, i, m');
    hide NoMatchWaits, Shapes, Carried, Unpend, Tids, DistinctThreads;
    FateChanged(m, m', tx.id, {tx.id}, {});
    hide OneFate;
    CarriedOn(m, m', tx);
    assert forall k: nat :: Live(m', k) <==> Live(m, k);
    assert SameRiders(m, m', None, None);
    hide SameRiders;
    RidersFrame(m, m', None, None);
  }

  lemma TakenShapes(m: Mbox, rx: Rx, i: nat, m': Mbox)
    requires NoMatchWaits(m) && Shapes(m) && i < |m.txq| && m.txq[i].desc.id == m.txq[i].tid
    requires m' == m.(nextRx := m.nextRx + 1, txq := Unpend(m.txq, m.txq[i].tid),
                      held := m.held[m.txq[i].desc.id := Match(m.txq[i].desc, rx)])
    ensures NoMatchWaits(m') && Shapes(m')
  {
    UnpendTids(m.txq, m.txq[i].tid);
    hide Unpend, Tids, DistinctThreads, Compatible;
  }

  /** A request that finds no message waits for one, or gives up. */
  lemma AsksKeeps(m: Mbox, rx: Rx, prio: int, m': Mbox)
    requires Inv(m) && FirstSender(m.txq, rx) == |m.txq|
    requires m' == m.(nextRx := m.nextRx + 1)
      || m' == m.(nextRx := m.nextRx + 1, rxq := Pend(m.rxq, Waiter(m.nextRx, prio, rx)))
    ensures Inv(m')
  {
    AsksShapes(m, rx, prio, m');
    hide NoMatchWaits, Shapes;
    assert forall id: nat :: Fates(m', id) == Fates(m, id);
    hide Fates;
    assert OneFate(m', None);
    hide OneFate;
    assert Carried(m');
    hide Carried;
    assert SameRiders(m, m', None, None);
    hide SameRiders;
    RidersFrame(m, m', None, None);
  }

  lemma AsksShapes(m: Mbox, rx: Rx, prio: int, m': Mbox)
    requires NoMatchWaits(m) && Shapes(m) && FirstSender(m.txq, rx) == |m.txq|
    requires m' == m.(nextRx := m.nextRx + 1)
      || m' == m.(nextRx := m.nextRx + 1, rxq := Pend(m.rxq, Waiter(m.nextRx, prio, rx)))
    ensures NoMatchWaits(m') && Shapes(m')
  {
    PendTids(m.rxq, Waiter(m.nextRx, prio, rx));
    hide Pend, Tids, DistinctThreads, Compatible, FirstSender;
    assert forall t :: t in m.txq ==> !Compatible(t.desc, rx);
  }

  lemma GetKeeps(m: Mbox, rx: Rx, prio: int, noWait: bool)
    requires Inv(m)
    ensures Inv(Get(m, rx, prio, noWait))
  {
    hide Inv, FirstSender, Dispose, Match, Unpend, Pend;
    var i := FirstSender(m.txq, rx);
    if i < |m.txq| {
      var tx := m.txq[i].desc;
      var m1 := m.(nextRx := m.nextRx + 1, txq := Unpend(m.txq, m.txq[i].tid), held := m.held[tx.id := Match(tx, rx)]);
      TakenKeeps(m, rx, i, m1);
      DisposeKeeps(m1, tx.id, false);
    } else {
      AsksKeeps(m, rx, prio, Get(m, rx, prio, noWait));
    }
  }

  lemma TimeoutsKeep(m: Mbox, id: nat)
    requires Inv(m)
    ensures Inv(Step(m, ETxTimeout(id))) && Inv(Step(m, ERxTimeout(id)))
  {
    TxTimeoutKeeps(m, id);
    RxTimeoutKeeps(m, id);
  }

  lemma TxTimeoutKeeps(m: Mbox, id: nat)
    requires Inv(m)
    ensures Inv(Step(m, ETxTimeout(id)))
  {
    if id in m.kinds && m.kinds[id].None? && exists w :: w in m.txq && w.tid == id {
      var w :| w in m.txq && w.tid == id;
      TidsMember(m.txq, w);
      hide Inv;
      ExpiredKeeps(m, id, m.(txq := Unpend(m.txq, id), gone := m.gone + {id}));
    }
  }

  lemma ExpiredKeeps(m: Mbox, id: nat, m': Mbox)
    requires Inv(m) && id in m.kinds && m.kinds[id].None? && id in Tids(m.txq)
    requires m' == m.(txq := Unpend(m.txq, id), gone := m.gone + {id})
    ensures Inv(m')
  {
    UnpendTids(m.txq, id);
    UnpendShapes(m, m', id);
    ExpiredCarried(m, m', id);
    hide NoMatchWaits, Shapes, Unpend, Tids, DistinctThreads, Carried, Lent, Stacked;
    FateChanged(m, m', id, {}, {id});
    hide OneFate;
    ExpiredRiders(m, m', id);
    RidersFrame(m, m', None, None);
  }

  lemma ExpiredCarried(m: Mbox, m': Mbox, id: nat)
    requires Carried(m) && m' == m.(txq := Unpend(m.txq, id), gone := m.gone + {id})
    ensures Carried(m')
  {
    hide Unpend;
  }

  lemma ExpiredRiders(m: Mbox, m': Mbox, id: nat)
    requires id in m.kinds && m.kinds[id].None? && Tids(m'.txq) == Tids(m.txq) - {id} && m'.held == m.held
    ensures SameRiders(m, m', None, None)
  {
    hide Tids;
  }

  lemma UnpendShapes(m: Mbox, m': Mbox, id: nat)
    requires NoMatchWaits(m) && Shapes(m)
    requires m' == m.(txq := Unpend(m.txq, id), gone := m'.gone) || m' == m.(rxq := Unpend(m.rxq, id))
    ensures NoMatchWaits(m') && Shapes(m')
  {
    UnpendTids(m.txq, id);
    UnpendTids(m.rxq, id);
    hide Unpend, Tids, DistinctThreads, Compatible;
  }

  lemma RxTimeoutKeeps(m: Mbox, id: nat)
    requires Inv(m)
    ensures Inv(Step(m, ERxTimeout(id)))
  {
    var m' := Step(m, ERxTimeout(id));
    UnpendShapes(m, m', id);
    hide NoMatchWaits, Shapes, Unpend;
    assert forall k: nat :: Fates(m', k) == Fates(m, k);
    hide Fates;
    assert OneFate(m', None);
    hide OneFate;
    assert Carried(m');
    hide Carried;
    assert SameRiders(m, m', None, None);
    hide SameRiders;
    RidersFrame(m, m', None, None);
  }

  lemma StepKeeps(m: Mbox, e: Event)
    requires Inv(m)
    ensures Inv(Step(m, e))
  {
    hide Inv, Put, AsyncPut, Get, Dispose;
    match e
    case EPut(tid, prio, target, data, info, noWait) => PutKeeps(m, tid, prio, target, data, info, noWait);
    case EAsyncPut(tid, prio, target, data, info) => PutKeeps(m, tid, prio, target, data, info, false);
    case EGet(rx, prio, noWait) => GetKeeps(m, rx, prio, noWait);
    case EDispose(id, discard) => DisposeKeeps(m, id, discard);
    case ETxTimeout(id) => TimeoutsKeep(m, id);
    case ERxTimeout(id) => TimeoutsKeep(m, id);
  }

  function Run(m: Mbox, es: seq<Event>): Mbox
    decreases |es|
  {
    if es == [] then m else Run(Step(m, es[0]), es[1..])
  }

  lemma {:induction false} EveryRun(m: Mbox, es: seq<Event>)
    requires Inv(m)
    ensures Inv(Run(m, es))
    decreases |es|
  {
    if es != [] {
      StepKeeps(m, es[0]);
      hide Inv, Step;
      EveryRun(Step(m, es[0]), es[1..]);
    }
  }

  // ---------------------------------------------------------------- what that means

  /** A mailbox with n descriptors and nothing in it. */
  function Fresh(n: nat): Mbox { Mbox([], [], map[], map[], {}, map[], Stack(n), map[], n, 0, 0) }

  function Stack(n: nat): seq<nat> { if n == 0 then [] else [n - 1] + Stack(n - 1) }

  lemma {:induction false} StackCount(n: nat, d: nat)
    ensures Count(Stack(n), d) == One(d < n)
  {
    if n > 0 {
      StackCount(n - 1, d);
      assert Stack(n)[1..] == Stack(n - 1);
    }
  }

  lemma FreshInv(n: nat)
    ensures Inv(Fresh(n))
  {
    forall d: nat
      ensures Count(Stack(n), d) == One(d < n && d !in Fresh(n).inUse)
    {
      StackCount(n, d);
    }
    hide Stack, Count;
  }

  /** Matching is complete: through every run, no sender waits for a receiver that
      waits for it; and free and carrying descriptors always make up the pool. */
  lemma MatchingIsComplete(n: nat, es: seq<Event>)
    ensures var m := Run(Fresh(n), es);
            && (forall t, r :: t in m.txq && r in m.rxq ==> !Compatible(t.desc, r.desc))
            && |m.free| + |m.inUse.Keys| == m.total
  {
    FreshInv(n);
    EveryRun(Fresh(n), es);
    var m := Run(Fresh(n), es);
    FreeCount(m.free, m.inUse.Keys, m.total);
    hide Run;
  }

  lemma DisposedElsewhere(m: Mbox, id: nat)
    requires Inv(m) && id in m.disposed
    ensures id !in m.held && forall w :: w in m.txq ==> w.desc.id != id
  {
    assert Fates(m, id) == One(id < m.next && Some(id) != None);
    forall w | w in m.txq
      ensures w.desc.id != id
    {
      TidsMember(m.txq, w);
    }
  }

  lemma StepDisposed(m: Mbox, e: Event, id: nat)
    requires Inv(m) && id in m.disposed
    ensures id in Step(m, e).disposed && Step(m, e).disposed[id] == m.disposed[id]
  {
    DisposedElsewhere(m, id);
    hide Inv, Unpend, Pend, FirstSender, FirstReceiver, Match, Dispose;
    match e
    case EGet(rx, prio, noWait) => GetDisposed(m, rx, prio, noWait, id);
    case EDispose(other, discard) => DisposeDisposed(m, other, discard, id);
    case _ =>
  }

  lemma DisposeDisposed(m: Mbox, other: nat, discard: bool, id: nat)
    requires id in m.disposed && id !in m.held
    ensures id in Dispose(m, other, discard).disposed && Dispose(m, other, discard).disposed[id] == m.disposed[id]
  {
  }

  lemma GetDisposed(m: Mbox, rx: Rx, prio: int, noWait: bool, id: nat)
    requires id in m.disposed && id !in m.held && forall w :: w in m.txq ==> w.desc.id != id
    ensures var m' := Get(m, rx, prio, noWait); id in m'.disposed && m'.disposed[id] == m.disposed[id]
  {
    hide Unpend, Pend, FirstSender, Match, Dispose;
    var i := FirstSender(m.txq, rx);
    if i < |m.txq| {
      var tx := m.txq[i].desc;
      assert m.txq[i] in m.txq;
      var m1 := m.(nextRx := m.nextRx + 1, txq := Unpend(m.txq, m.txq[i].tid), held := m.held[tx.id := Match(tx, rx)]);
      DisposeDisposed(m1, tx.id, false, id);
    }
  }

  /** What became of a message stays: it is disposed of once, and with the same bytes for ever. */
  lemma {:induction false} DisposedOnce(m: Mbox, es: seq<Event>, id: nat)
    requires Inv(m) && id in m.disposed
    ensures id in Run(m, es).disposed && Run(m, es).disposed[id] == m.disposed[id] && id !in Run(m, es).held
    decreases |es|
  {
    if es == [] {
      DisposedElsewhere(m, id);
    } else {
      StepDisposed(m, es[0], id);
      StepKeeps(m, es[0]);
      hide Inv, Step;
      DisposedOnce(Step(m, es[0]), es[1..], id);
    }
  }
}
