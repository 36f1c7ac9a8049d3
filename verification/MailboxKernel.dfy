/**
 The code of kernel/mailbox.c on its own data: message descriptors that a match
 rewrites in place on both sides, wait queues of threads that carry them, and
 the array of unused asynchronous descriptors with its top.  A null
 _syncing_thread, not a table, says that a message has been disposed of.
 */
module MailboxKernel {
  import opened Lists
  import opened Mailboxes
  import opened Memory
  import opened WaitQueues
  import opened Wrappers

  /** Who waits for the message to be disposed of: a thread, or the dummy of a descriptor. */
  datatype Sender = Sender(id: nat, async: Option<nat>)

  /** struct k_mbox_msg; now says that the receiver passed a buffer, which stays on its stack. */
  datatype Msg = Msg(source: Who, target: Who, size: nat, info: int, data: seq<Byte>, syncing: Option<Sender>,
                     now: bool)

  // ---------------------------------------------------------------- what the descriptors mean

  function Named(w: Who): ThreadId { if w.Only? then w.tid else 0 }

  predicate Outgoing(m: Msg) { m.source.Only? && m.syncing.Some? && m.size == |m.data| }

  predicate Incoming(m: Msg) { m.target.Only? }

  function TxOf(m: Msg): Tx {
    var s := if m.syncing.Some? then m.syncing.value else Sender(0, None);
    Tx(s.id, s.async, Named(m.source), m.target, m.data, m.info)
  }

  function RxOf(m: Msg): Rx { Rx(Named(m.target), m.source, m.size, m.info, m.now) }

  /** Each side of a match knows the other, has its info, and the receiver has the data. */
  ghost predicate LetterIs(letter: Letter, tx: Msg, rx: Msg) {
    && rx.source == tx.source == Only(letter.tx.source) && rx.target == tx.target == Only(letter.receiver)
    && rx.info == letter.rxInfo && tx.info == letter.txInfo && rx.size == letter.size <= |letter.tx.data|
    && rx.data == letter.tx.data
    && rx.syncing == Some(Sender(letter.tx.id, letter.tx.async))
  }

  ghost function Described<S, T>(q: seq<Waiter<S>>, f: S -> T): (r: seq<Waiter<T>>)
    ensures |r| == |q|
  {
    if q == [] then [] else [Waiter(q[0].tid, q[0].prio, f(q[0].desc))] + Described(q[1..], f)
  }

  ghost predicate Queued(m: Mbox, txq: seq<Waiter<Msg>>, rxq: seq<Waiter<Msg>>) {
    && m.txq == Described(txq, TxOf) && m.rxq == Described(rxq, RxOf)
    && (forall w :: w in txq ==> Outgoing(w.desc)) && (forall w :: w in rxq ==> Incoming(w.desc))
  }

  /** The two descriptors of a message that has been received; once it has been disposed
      of, the sender's size is the number of bytes taken. */
  ghost predicate Passed(m: Mbox, sent: map<nat, Msg>, received: map<nat, Msg>) {
    && sent.Keys == m.held.Keys + m.disposed.Keys && received.Keys == sent.Keys
    && (forall id :: id in m.held ==> LetterIs(m.held[id], sent[id], received[id]))
    && (forall id :: id in m.disposed ==>
          received[id].syncing.None? && sent[id].size == |m.disposed[id]| && received[id].size <= |received[id].data|)
  }

  /** The stack grows upwards in the array. */
  ghost predicate StackIs(slots: seq<nat>, top: nat, m: Mbox) {
    && |slots| == m.total && top == |m.free| <= |slots|
    && forall i :: 0 <= i < top ==> slots[i] == m.free[top - 1 - i]
  }

  lemma {:induction false} DescribedAt<S, T>(q: seq<Waiter<S>>, f: S -> T, i: nat)
    requires i < |q|
    ensures Described(q, f)[i] == Waiter(q[i].tid, q[i].prio, f(q[i].desc))
  {
    if i > 0 {
      DescribedAt(q[1..], f, i - 1);
    }
  }

  lemma {:induction false} DescribedPend<S(!new), T(!new)>(q: seq<Waiter<S>>, f: S -> T, w: Waiter<S>)
    ensures Described(Pend(q, w), f) == Pend(Described(q, f), Waiter(w.tid, w.prio, f(w.desc)))
  {
    if q == [] || w.prio < q[0].prio {
      assert Pend(q, w)[1..] == q;
    } else {
      DescribedPend(q[1..], f, w);
      assert Pend(q, w)[1..] == Pend(q[1..], w);
      assert Described(q, f)[1..] == Described(q[1..], f);
    }
  }

  lemma {:induction false} DescribedUnpend<S(!new), T(!new)>(q: seq<Waiter<S>>, f: S -> T, tid: ThreadId)
    ensures Described(Unpend(q, tid), f) == Unpend(Described(q, f), tid)
  {
    if q != [] {
      DescribedUnpend(q[1..], f, tid);
      assert Described(q, f)[1..] == Described(q[1..], f);
      if q[0].tid != tid {
        assert Unpend(q, tid)[1..] == Unpend(q[1..], tid);
      }
    }
  }

  // ---------------------------------------------------------------- matching and searching

  /** mbox_message_match: succeeds exactly for compatible descriptors, and then
      exchanges what each side is to know. */
  method MessageMatch(tx: Msg, rx: Msg) returns (ok: bool, tx': Msg, rx': Msg)
    requires Outgoing(tx) && Incoming(rx)
    ensures ok <==> Compatible(TxOf(tx), RxOf(rx))
    ensures if ok then LetterIs(Match(TxOf(tx), RxOf(rx)), tx', rx') else tx' == tx && rx' == rx
    ensures rx'.now == rx.now
  {
    tx', rx' := tx, rx;
    ok := (tx.target.AnyThread? || tx.target == rx.target) && (rx.source.AnyThread? || rx.source == tx.source);
    if ok {
      rx' := rx'.(source := tx'.source);
      tx' := tx'.(target := rx'.target);
      var info := rx'.info;
      rx' := rx'.(info := tx'.info);
      tx' := tx'.(info := info);
      if rx'.size > tx'.size {
        rx' := rx'.(size := tx'.size);
      }
      rx' := rx'.(data := tx'.data, syncing := tx'.syncing);
    }
  }

  /** The walk over the waiting receivers in mbox_message_put. */
  method FindReceiver(rxq: seq<Waiter<Msg>>, tx: Msg) returns (i: nat, tx': Msg, rx': Msg)
    requires Outgoing(tx) && forall w :: w in rxq ==> Incoming(w.desc)
    ensures i == FirstReceiver(Described(rxq, RxOf), TxOf(tx)) <= |rxq|
    ensures i < |rxq| ==> LetterIs(Match(TxOf(tx), RxOf(rxq[i].desc)), tx', rx') && rx'.now == rxq[i].desc.now
  {
    hide Compatible, LetterIs, Match, Described, TxOf, RxOf;
    i, tx', rx' := 0, tx, tx;
    ghost var q := Described(rxq, RxOf);
    while i < |rxq|
      invariant i <= |rxq| && FirstReceiver(q, TxOf(tx)) >= i
    {
      var ok;
      DescribedAt(rxq, RxOf, i);
      ok, tx', rx' := MessageMatch(tx, rxq[i].desc);
      if ok {
        return;
      }
      i := i + 1;
    }
  }

  /** The walk over the waiting senders in k_mbox_get. */
  method FindSender(txq: seq<Waiter<Msg>>, rx: Msg) returns (i: nat, tx': Msg, rx': Msg)
    requires Incoming(rx) && forall w :: w in txq ==> Outgoing(w.desc)
    ensures i == FirstSender(Described(txq, TxOf), RxOf(rx)) <= |txq|
    ensures i < |txq| ==> LetterIs(Match(TxOf(txq[i].desc), RxOf(rx)), tx', rx') && rx'.now == rx.now
  {
    hide Compatible, LetterIs, Match, Described, TxOf, RxOf;
    i, tx', rx' := 0, rx, rx;
    ghost var q := Described(txq, TxOf);
    while i < |txq|
      invariant i <= |txq| && FirstSender(q, RxOf(rx)) >= i
    {
      var ok;
      DescribedAt(txq, TxOf, i);
      ok, tx', rx' := MessageMatch(txq[i].desc, rx);
      if ok {
        return;
      }
      i := i + 1;
    }
  }

  /** The thread whose timeout has expired, if it waits here. */
  method FindThread(txq: seq<Waiter<Msg>>, id: nat) returns (i: nat)
    ensures i <= |txq| && (i < |txq| ==> txq[i].tid == id)
    ensures i == |txq| ==> forall w :: w in Described(txq, TxOf) ==> w.tid != id
  {
    hide TxOf;
    i := 0;
    while i < |txq| && txq[i].tid != id
      invariant i <= |txq| && forall j :: 0 <= j < i ==> txq[j].tid != id
    {
      i := i + 1;
    }
    forall w | w in Described(txq, TxOf) && i == |txq|
      ensures w.tid != id
    {
      var j :| 0 <= j < |txq| && Described(txq, TxOf)[j] == w;
      DescribedAt(txq, TxOf, j);
    }
  }

  // ---------------------------------------------------------------- what each change does to the meaning

  lemma QueuedPendTx(m: Mbox, txq: seq<Waiter<Msg>>, rxq: seq<Waiter<Msg>>, w: Waiter<Msg>, m': Mbox)
    requires Queued(m, txq, rxq) && Outgoing(w.desc) && m'.txq == Pend(m.txq, Waiter(w.tid, w.prio, TxOf(w.desc)))
    requires m'.rxq == m.rxq
    ensures Queued(m', Pend(txq, w), rxq)
  {
    DescribedPend(txq, TxOf, w);
    hide Described, Pend, TxOf, Outgoing, Incoming;
  }

  lemma QueuedPendRx(m: Mbox, txq: seq<Waiter<Msg>>, rxq: seq<Waiter<Msg>>, w: Waiter<Msg>, m': Mbox)
    requires Queued(m, txq, rxq) && Incoming(w.desc) && m'.rxq == Pend(m.rxq, Waiter(w.tid, w.prio, RxOf(w.desc)))
    requires m'.txq == m.txq
    ensures Queued(m', txq, Pend(rxq, w))
  {
    DescribedPend(rxq, RxOf, w);
    hide Described, Pend, RxOf, Outgoing, Incoming;
  }

  lemma QueuedUnpendTx(m: Mbox, txq: seq<Waiter<Msg>>, rxq: seq<Waiter<Msg>>, tid: ThreadId, m': Mbox)
    requires Queued(m, txq, rxq) && m'.txq == Unpend(m.txq, tid) && m'.rxq == m.rxq
    ensures Queued(m', Unpend(txq, tid), rxq)
  {
    DescribedUnpend(txq, TxOf, tid);
    hide Described, Unpend, Outgoing, Incoming;
  }

  lemma QueuedUnpendRx(m: Mbox, txq: seq<Waiter<Msg>>, rxq: seq<Waiter<Msg>>, tid: ThreadId, m': Mbox)
    requires Queued(m, txq, rxq) && m'.rxq == Unpend(m.rxq, tid) && m'.txq == m.txq
    ensures Queued(m', txq, Unpend(rxq, tid))
  {
    DescribedUnpend(rxq, RxOf, tid);
    hide Described, Unpend, Outgoing, Incoming;
  }

  lemma PassedOn(m: Mbox, sent: map<nat, Msg>, received: map<nat, Msg>, id: nat, letter: Letter, tx: Msg, rx: Msg,
                 m': Mbox)
    requires Passed(m, sent, received) && id !in m.disposed && LetterIs(letter, tx, rx)
    requires m'.held == m.held[id := letter] && m'.disposed == m.disposed
    ensures Passed(m', sent[id := tx], received[id := rx])
  {
    hide LetterIs;
  }

  /** A message taken from its receiver's hands. */
  lemma PassedAway(m: Mbox, sent: map<nat, Msg>, received: map<nat, Msg>, id: nat, tx: Msg, rx: Msg, m': Mbox)
    requires Passed(m, sent, received) && id in m.held && id !in m.disposed && id in m'.disposed
    requires m'.held == m.held - {id} && m'.disposed == m.disposed[id := m'.disposed[id]]
    requires rx.syncing.None? && rx.size <= |rx.data| && tx.size == |m'.disposed[id]|
    ensures Passed(m', sent[id := tx], received[id := rx])
  {
    hide LetterIs;
  }

  lemma DisposeEffect(m: Mbox, id: nat, discard: bool)
    ensures var m', async := Dispose(m, id, discard), if id in m.held then m.held[id].tx.async else None;
            && m'.txq == m.txq && m'.rxq == m.rxq && m'.total == m.total && m'.next == m.next && m'.nextRx == m.nextRx
            && m'.free == (if async.Some? then [async.value] + m.free else m.free) && (id !in m.held ==> m' == m)
            && (id in m.held && m.held[id].size <= |m.held[id].tx.data| ==>
                  && m'.held == m.held - {id} && id in m'.disposed && m'.disposed == m.disposed[id := m'.disposed[id]]
                  && m'.disposed[id] == m.held[id].tx.data[..if discard then 0 else m.held[id].size])
  {
  }

  /** A descriptor in use leaves room on the stack for its return. */
  lemma RoomToPush(m: Mbox, id: nat)
    requires Mailboxes.Inv(m) && id in m.held && m.held[id].tx.async.Some?
    ensures |m.free| < m.total
  {
    assert m.kinds[id] == m.held[id].tx.async && Riding(m, None, id);
    var d := m.kinds[id].value;
    assert d in m.inUse;
    hide NoMatchWaits, Shapes, OneFate, Carried, Riding, Count;
    FreeCount(m.free, m.inUse.Keys, m.total);
    assert d in m.inUse.Keys;
  }

  lemma PushIs(slots: seq<nat>, top: nat, m: Mbox, d: nat, m': Mbox)
    requires StackIs(slots, top, m) && top < |slots| && m'.free == [d] + m.free && m'.total == m.total
    ensures StackIs(slots[top := d], top + 1, m')
  {
  }

  lemma PopIs(slots: seq<nat>, top: nat, m: Mbox, m': Mbox)
    requires StackIs(slots, top, m) && m.free != [] && m'.free == m.free[1..] && m'.total == m.total
    ensures top > 0 && slots[top - 1] == m.free[0] && StackIs(slots, top - 1, m')
  {
  }

  lemma Separate(m: Mbox, id: nat)
    requires Mailboxes.Inv(m)
    ensures id in m.held ==> id !in m.disposed && m.held[id].tx.id == id
  {
    assert Fates(m, id) == One(id < m.next && Some(id) != None);
    hide NoMatchWaits, Descriptors, Tids;
  }

  lemma QueueFacts(m: Mbox, txq: seq<Waiter<Msg>>, rxq: seq<Waiter<Msg>>)
    requires Queued(m, txq, rxq)
    ensures m.txq == Described(txq, TxOf) && m.rxq == Described(rxq, RxOf)
    ensures (forall w :: w in txq ==> Outgoing(w.desc)) && (forall w :: w in rxq ==> Incoming(w.desc))
  {
  }

  lemma QueuedFrame(m: Mbox, m': Mbox, txq: seq<Waiter<Msg>>, rxq: seq<Waiter<Msg>>)
    requires Queued(m, txq, rxq) && m'.txq == m.txq && m'.rxq == m.rxq
    ensures Queued(m', txq, rxq)
  {
  }

  lemma PassedFrame(m: Mbox, m': Mbox, sent: map<nat, Msg>, received: map<nat, Msg>)
    requires Passed(m, sent, received) && m'.held == m.held && m'.disposed == m.disposed
    ensures Passed(m', sent, received)
  {
  }

  lemma StackFrame(slots: seq<nat>, top: nat, m: Mbox, m': Mbox)
    requires StackIs(slots, top, m) && m'.free == m.free && m'.total == m.total
    ensures StackIs(slots, top, m')
  {
  }

  lemma StackSize(slots: seq<nat>, top: nat, m: Mbox)
    requires StackIs(slots, top, m)
    ensures |slots| == m.total && top == |m.free| <= |slots|
  {
  }

  /** A descriptor whose _syncing_thread is set is that of a held message, and no other is. */
  lemma PassedFacts(m: Mbox, sent: map<nat, Msg>, received: map<nat, Msg>, id: nat)
    requires Passed(m, sent, received) && id in received
    ensures id in sent && (id in m.held || id in m.disposed) && received[id].size <= |received[id].data|
    ensures id in m.held ==> received[id].syncing == Some(Sender(m.held[id].tx.id, m.held[id].tx.async)) &&
                             received[id].size == m.held[id].size && received[id].data == m.held[id].tx.data
    ensures id in m.disposed ==> received[id].syncing.None?
  {
  }

  lemma PassedAgain(m: Mbox, sent: map<nat, Msg>, received: map<nat, Msg>, id: nat, rx: Msg)
    requires Passed(m, sent, received) && id in received && id !in m.held && rx.syncing.None? && rx.size <= |rx.data|
    ensures Passed(m, sent, received[id := rx])
  {
    hide LetterIs;
  }

  ghost function Taken(m: Mbox, rx: Rx, i: nat): Mbox
    requires i < |m.txq|
  {
    m.(nextRx := m.nextRx + 1, txq := Unpend(m.txq, m.txq[i].tid),
       held := m.held[m.txq[i].desc.id := Match(m.txq[i].desc, rx)])
  }

  lemma LetterSender(letter: Letter, tx: Msg, rx: Msg)
    requires LetterIs(letter, tx, rx)
    ensures rx.syncing == Some(Sender(letter.tx.id, letter.tx.async)) && rx.size == letter.size
  {
  }

  lemma MatchSender(tx: Tx, rx: Rx)
    ensures Match(tx, rx).tx == tx
  {
  }

  lemma WaitsOnce(m: Mbox, i: nat)
    requires Mailboxes.Inv(m) && i < |m.txq|
    ensures m.txq[i].desc.id == m.txq[i].tid && m.txq[i].tid !in m.disposed
  {
    assert m.txq[i] in m.txq;
    TidsMember(m.txq, m.txq[i]);
    assert Fates(m, m.txq[i].tid) == One(m.txq[i].tid < m.next && Some(m.txq[i].tid) != None);
    hide NoMatchWaits, Descriptors, Tids;
  }

  lemma KindOf(m: Mbox, i: nat)
    requires Mailboxes.Inv(m) && i < |m.txq|
    ensures m.txq[i].tid in m.kinds && m.kinds[m.txq[i].tid] == m.txq[i].desc.async && m.txq[i] in m.txq
  {
    assert m.txq[i] in m.txq;
    hide NoMatchWaits, Shapes, OneFate, Lent, Stacked;
  }

  lemma {:induction false} StackAt(n: nat, i: nat)
    requires i <= n
    ensures |Stack(n)| == n && (i < n ==> Stack(n)[i] == n - 1 - i)
  {
    if n > 0 {
      StackAt(n - 1, if i > 0 then i - 1 else 0);
    }
  }

  class KMbox {
    var txq: seq<Waiter<Msg>>        // threads pended to send, with their swap_data
    var rxq: seq<Waiter<Msg>>        // threads pended to receive
    var sent: map<nat, Msg>          // transmit descriptors of received messages
    var received: map<nat, Msg>      // receive descriptors in the receivers' hands
    const slots: array<nat>          // async_msg_free
    var top: nat
    var next: nat
    var nextRx: nat
    ghost var model: Mbox

    ghost predicate Coupled() reads this, slots {
      && Queued(model, txq, rxq) && Passed(model, sent, received) && StackIs(slots[..], top, model)
      && next == model.next && nextRx == model.nextRx
    }

    ghost predicate Valid() reads this, slots { Mailboxes.Inv(model) && Coupled() }

    /** k_mbox_init and init_mbox_module: the descriptors are pushed one by one. */
    constructor (n: nat)
      ensures Valid() && model == Fresh(n) && fresh(slots)
    {
      slots := new nat[n](i => i);
      txq, rxq, sent, received, next, nextRx, top := [], [], map[], map[], 0, 0, n;
      model := Fresh(n);
      new;
      FreshInv(n);
      hide Mailboxes.Inv, Stack;
      forall i | 0 <= i < n
        ensures |Stack(n)| == n && slots[i] == Stack(n)[n - 1 - i]
      {
        StackAt(n, n - 1 - i);
      }
      StackAt(n, n);
    }

    /** mbox_message_put for a message whose number is taken but not used. */
    method PutMessage(tx: Msg, prio: int, noWait: bool)
      requires Coupled() && Outgoing(tx) && tx.syncing.value.id !in model.disposed
      modifies this
      ensures Coupled() && model == MessagePut(old(model), TxOf(tx), prio, noWait)
    {
      hide Queued, Passed, StackIs, LetterIs, Match, Pend, Unpend, FirstReceiver, Described, RxOf, Compatible;
      ghost var m := model;
      QueueFacts(m, txq, rxq);
      var i, tx', rx' := FindReceiver(rxq, tx);
      var id := tx.syncing.value.id;
      model := MessagePut(m, TxOf(tx), prio, noWait);
      if i < |rxq| {
        DescribedAt(rxq, RxOf, i);
        PassedOn(m, sent, received, id, Match(TxOf(tx), RxOf(rxq[i].desc)), tx', rx', model);
        QueuedUnpendRx(m, txq, rxq, rxq[i].tid, model);
        sent, received := sent[id := tx'], received[id := rx'];
        rxq := Unpend(rxq, rxq[i].tid);
      } else {
        PassedFrame(m, model, sent, received);
        if noWait {
          QueuedFrame(m, model, txq, rxq);
        } else {
          QueuedPendTx(m, txq, rxq, Waiter(id, prio, tx), model);
          txq := Pend(txq, Waiter(id, prio, tx));
        }
      }
      StackFrame(slots[..], top, m, model);
    }

    /** k_mbox_put. */
    method PutSync(tid: ThreadId, prio: int, target: Who, data: seq<Byte>, info: int, noWait: bool)
      requires Valid()
      modifies this
      ensures Valid() && model == Put(old(model), tid, prio, target, data, info, noWait)
    {
      ghost var m := model;
      hide Mailboxes.Inv, Queued, Passed, StackIs, MessagePut, Live, Tids;
      PutKeeps(m, tid, prio, target, data, info, noWait);
      Unnumbered(m);
      var tx := Msg(Only(tid), target, |data|, info, data, Some(Sender(next, None)), false);
      model := m.(next := m.next + 1, kinds := m.kinds[m.next := None]);
      QueuedFrame(m, model, txq, rxq);
      PassedFrame(m, model, sent, received);
      StackFrame(slots[..], top, m, model);
      next := next + 1;
      PutMessage(tx, prio, noWait);
    }

    /** k_mbox_async_put, a descriptor being free. */
    method PutAsync(tid: ThreadId, prio: int, target: Who, data: seq<Byte>, info: int)
      requires Valid() && model.free != []
      modifies this
      ensures Valid() && model == AsyncPut(old(model), tid, prio, target, data, info)
    {
      ghost var m := model;
      hide Mailboxes.Inv, Queued, Passed, StackIs, MessagePut, Live, Tids;
      PutKeeps(m, tid, prio, target, data, info, false);
      Unnumbered(m);
      model := m.(next := m.next + 1, kinds := m.kinds[m.next := Some(m.free[0])], free := m.free[1..],
                  inUse := m.inUse[m.free[0] := m.next]);
      PopIs(slots[..], top, m, model);
      QueuedFrame(m, model, txq, rxq);
      PassedFrame(m, model, sent, received);
      StackSize(slots[..], top, m);
      top := top - 1;
      var d := slots[top];
      var tx := Msg(Only(tid), target, |data|, info, data, Some(Sender(next, Some(d))), false);
      next := next + 1;
      PutMessage(tx, prio, false);
    }

    /** mbox_message_dispose for the descriptor rx, its size settled; nothing is left to
        do where _syncing_thread is null.  The stack has room for a returning descriptor. */
    method DisposeMessage(id: nat, rx: Msg, ghost discard: bool)
      requires Valid() && id in received && rx == received[id].(size := if discard then 0 else received[id].size)
      modifies this, slots
      ensures Valid() && model == Dispose(old(model), id, discard)
    {
      hide Mailboxes.Inv, Queued, Passed, StackIs, LetterIs, Dispose;
      ghost var m, slots0 := model, slots[..];
      PassedFacts(m, sent, received, id);
      Separate(m, id);
      DisposeKeeps(m, id, discard);
      DisposeEffect(m, id, discard);
      if rx.syncing.None? {
        PassedAgain(m, sent, received, id, rx);
        received := received[id := rx];
        return;
      }
      model := Dispose(m, id, discard);
      PassedAway(m, sent, received, id, sent[id].(size := rx.size), rx.(syncing := None), model);
      QueuedFrame(m, model, txq, rxq);
      received := received[id := rx.(syncing := None)];
      sent := sent[id := sent[id].(size := rx.size)];
      var sender := rx.syncing.value;
      if sender.async.Some? {
        RoomToPush(m, id);
        StackSize(slots0, top, m);
        PushIs(slots0, top, m, sender.async.value, model);
        slots[top] := sender.async.value;
        assert slots[..] == slots0[top := sender.async.value];
        top := top + 1;
      } else {
        StackFrame(slots0, top, m, model);
      }
    }

    /** k_mbox_data_get: the receiver takes the bytes that were settled at the match, or none. */
    method DataGet(id: nat, discard: bool) returns (bytes: seq<Byte>)
      requires Valid()
      modifies this, slots
      ensures Valid() && model == Dispose(old(model), id, discard)
      ensures (id in old(model.held) ==> bytes == model.disposed[id])
    {
      hide Mailboxes.Inv, Queued, StackIs, LetterIs;
      bytes := [];
      if id !in received {
        return;
      }
      PassedFacts(model, sent, received, id);
      hide Passed;
      var rx := received[id];
      if discard {
        rx := rx.(size := 0);
      } else if rx.size > 0 {
        bytes := rx.data[..rx.size];
      }
      DisposeMessage(id, rx, discard);
    }

    /** A waiting message taken out of the queue for a receiver that matches it. */
    method Deliver(rx: Rx, i: nat, tx': Msg, rx': Msg)
      requires Valid() && i < |txq| && LetterIs(Match(TxOf(txq[i].desc), rx), tx', rx')
      modifies this
      ensures Valid() && |old(model.txq)| == old(|txq|) && model == Taken(old(model), rx, i)
      ensures rx'.syncing.Some? && rx'.syncing.value.id in received && received[rx'.syncing.value.id] == rx'
    {
      ghost var m := model;
      hide LetterIs, Queued, Passed, StackIs, Match, Unpend, Mailboxes.Inv;
      QueueFacts(m, txq, rxq);
      DescribedAt(txq, TxOf, i);
      WaitsOnce(m, i);
      LetterSender(Match(TxOf(txq[i].desc), rx), tx', rx');
      MatchSender(TxOf(txq[i].desc), rx);
      var id := rx'.syncing.value.id;
      model := Taken(m, rx, i);
      TakenKeeps(m, rx, i, model);
      QueuedUnpendTx(m, txq, rxq, txq[i].tid, model);
      PassedOn(m, sent, received, id, Match(TxOf(txq[i].desc), rx), tx', rx', model);
      StackFrame(slots[..], top, m, model);
      sent, received := sent[id := tx'], received[id := rx'];
      txq := Unpend(txq, txq[i].tid);
      nextRx := nextRx + 1;
    }

    /** No message yet: the receiver waits with its descriptor, or gives up. */
    method Ask(rx: Rx, msg: Msg, prio: int, noWait: bool)
      requires Valid() && FirstSender(model.txq, rx) == |model.txq| && Incoming(msg) && RxOf(msg) == rx
      modifies this
      ensures Valid() && model == Get(old(model), rx, prio, noWait)
    {
      hide Queued, Passed, StackIs, Pend, Mailboxes.Inv, FirstSender;
      ghost var m := model;
      GetKeeps(m, rx, prio, noWait);
      model := if noWait then m.(nextRx := m.nextRx + 1)
               else m.(nextRx := m.nextRx + 1, rxq := Pend(m.rxq, Waiter(m.nextRx, prio, rx)));
      PassedFrame(m, model, sent, received);
      StackFrame(slots[..], top, m, model);
      if noWait {
        QueuedFrame(m, model, txq, rxq);
      } else {
        QueuedPendRx(m, txq, rxq, Waiter(nextRx, prio, msg), model);
        rxq := Pend(rxq, Waiter(nextRx, prio, msg));
      }
      nextRx := nextRx + 1;
    }

    /** k_mbox_get, with mbox_message_data_check where a message is there already. */
    method GetMessage(rx: Rx, prio: int, noWait: bool)
      requires Valid()
      modifies this, slots
      ensures Valid() && model == Get(old(model), rx, prio, noWait)
    {
      ghost var m := model;
      hide LetterIs, Queued, Passed, StackIs, Match, Unpend, Pend, Mailboxes.Inv, Dispose, FirstSender;
      QueueFacts(m, txq, rxq);
      var msg := Msg(rx.source, Only(rx.receiver), rx.room, rx.info, [], None, rx.now);
      var i, tx', rx' := FindSender(txq, msg);
      if i == |txq| {
        Ask(rx, msg, prio, noWait);
        return;
      }
      DescribedAt(txq, TxOf, i);
      LetterSender(Match(TxOf(txq[i].desc), rx), tx', rx');
      MatchSender(TxOf(txq[i].desc), rx);
      Deliver(rx, i, tx', rx');
      var id := rx'.syncing.value.id;
      if rx'.now {
        var _ := DataGet(id, false);
      } else if rx'.size == 0 {
        DisposeMessage(id, rx', false);
      }
    }

    /** A sender's timeout: a thread, never the dummy of a descriptor, leaves the queue. */
    method SenderTimedOut(id: nat)
      requires Valid()
      modifies this
      ensures Valid() && model == Step(old(model), ETxTimeout(id))
    {
      hide Queued, Passed, StackIs, Unpend, Mailboxes.Inv;
      ghost var m := model;
      TimeoutsKeep(m, id);
      QueueFacts(m, txq, rxq);
      var i := FindThread(txq, id);
      if i == |txq| {
        return;
      }
      DescribedAt(txq, TxOf, i);
      KindOf(m, i);
      if txq[i].desc.syncing.value.async.None? {
        model := m.(txq := Unpend(m.txq, id), gone := m.gone + {id});
        QueuedUnpendTx(m, txq, rxq, id, model);
        PassedFrame(m, model, sent, received);
        StackFrame(slots[..], top, m, model);
        txq := Unpend(txq, id);
      }
    }

    method ReceiverTimedOut(id: nat)
      requires Valid()
      modifies this
      ensures Valid() && model == Step(old(model), ERxTimeout(id))
    {
      hide Queued, Passed, StackIs, Unpend, Mailboxes.Inv;
      ghost var m := model;
      TimeoutsKeep(m, id);
      model := m.(rxq := Unpend(m.rxq, id));
      QueuedUnpendRx(m, txq, rxq, id, model);
      PassedFrame(m, model, sent, received);
      StackFrame(slots[..], top, m, model);
      rxq := Unpend(rxq, id);
    }

    /** Every call and timeout: the descriptors and the stack go through exactly the
        steps of the mailbox model.  A send that finds no descriptor keeps waiting for one. */
    method Execute(e: Event)
      requires Valid()
      modifies this, slots
      ensures Valid() && model == Step(old(model), e)
    {
      hide Queued, Passed, Mailboxes.Inv, Put, AsyncPut, Get, Dispose, Unpend;
      match e {
        case EPut(tid, prio, target, data, info, noWait) => PutSync(tid, prio, target, data, info, noWait);
        case EAsyncPut(tid, prio, target, data, info) =>
          if top > 0 {
            PutAsync(tid, prio, target, data, info);
          }
        case EGet(rx, prio, noWait) => GetMessage(rx, prio, noWait);
        case EDispose(id, discard) => var _ := DataGet(id, discard);
        case ETxTimeout(id) => SenderTimedOut(id);
        case ERxTimeout(id) => ReceiverTimedOut(id);
      }
    }
  }
}
