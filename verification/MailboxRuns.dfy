/**
 What mailbox messages bring (kernel/mailbox.c), over whole runs: every message
 received is one that was sent, to a receiver that both sides accept, the
 receiver gets exactly the bytes it has room for, and messages and requests are
 served by priority and, within a priority, in the order of the calls.
 */
module MailboxRuns {
  import opened Lists
  import opened Mailboxes
  import opened Memory
  import opened WaitQueues
  import opened Wrappers

  // ---------------------------------------------------------------- what is delivered

  /** The history of a run: what was sent, which request each message met, and which messages were
      discarded. */
  datatype Book = Book(sent: map<nat, Tx>, got: map<nat, Rx>, dropped: set<nat>)

  function NotePut(b: Book, m: Mbox, tx: Tx): Book {
    var i := FirstReceiver(m.rxq, tx);
    b.(sent := b.sent[tx.id := tx], got := if i < |m.rxq| then b.got[tx.id := m.rxq[i].desc] else b.got)
  }

  function Note(b: Book, m: Mbox, e: Event): Book {
    match e
    case EPut(tid, prio, target, data, info, noWait) => NotePut(b, m, Tx(m.next, None, tid, target, data, info))
    case EAsyncPut(tid, prio, target, data, info) =>
      if m.free == [] then b else NotePut(b, m, Tx(m.next, Some(m.free[0]), tid, target, data, info))
    case EGet(rx, prio, noWait) =>
      var i := FirstSender(m.txq, rx);
      if i < |m.txq| then b.(got := b.got[m.txq[i].desc.id := rx]) else b
    case EDispose(id, discard) => if id in m.held && discard then b.(dropped := b.dropped + {id}) else b
    case _ => b
  }

  function History(b: Book, m: Mbox, es: seq<Event>): Book
    decreases |es|
  {
    if es == [] then b else History(Note(b, m, es[0]), Step(m, es[0]), es[1..])
  }

  /** The message was sent and met a request; each side accepts the other. */
  ghost predicate Delivered(b: Book, id: nat) { id in b.sent && id in b.got && Compatible(b.sent[id], b.got[id]) }

  /** They do exactly when the receiver is the one the message names, if it names one, and the sender
      the one the request names. */
  lemma CompatibleExact(tx: Tx, rx: Rx)
    ensures Compatible(tx, rx)
       <==> && (forall t :: tx.target == Only(t) ==> rx.receiver == t)
            && (forall t :: rx.source == Only(t) ==> tx.source == t)
  {
    if tx.target.Only? {
      assert tx.target == Only(tx.target.tid);
    }
    if rx.source.Only? {
      assert rx.source == Only(rx.source.tid);
    }
  }

  /** What a request has room for. */
  function Share(tx: Tx, rx: Rx): (bytes: seq<Byte>)
    ensures bytes <= tx.data && |bytes| <= rx.room && (|bytes| == rx.room || bytes == tx.data)
  {
    tx.data[..if rx.room < |tx.data| then rx.room else |tx.data|]
  }

  /** Nothing waits, is held or was taken that was not sent; whoever has it was meant to, knows the
      sender's info and has as much of the data as it asked for. */
  ghost predicate Honest(m: Mbox, b: Book) {
    && (forall id: nat :: id in b.sent <==> id < m.next)
    && (forall w :: w in m.txq ==> w.tid in b.sent && w.desc == b.sent[w.tid])
    && (forall id :: id in m.held ==> Delivered(b, id) && LetterFor(m.held[id], b.sent[id], b.got[id]))
    && (forall id :: id in m.disposed ==>
         Delivered(b, id) && m.disposed[id] == if id in b.dropped then [] else Share(b.sent[id], b.got[id]))
    && (forall id :: id in b.dropped ==> id in m.disposed)
  }

  ghost predicate LetterFor(letter: Letter, tx: Tx, rx: Rx) {
    && letter.tx == tx && letter.receiver == rx.receiver && letter.size == |Share(tx, rx)|
    && letter.rxInfo == tx.info && letter.txInfo == rx.info
  }

  lemma MatchedLetter(tx: Tx, rx: Rx)
    ensures LetterFor(Match(tx, rx), tx, rx) && tx.data[..Match(tx, rx).size] == Share(tx, rx)
  {
  }

  lemma PutMatched(m: Mbox, b: Book, tx: Tx, rx: Rx, m': Mbox)
    requires Honest(m, b) && tx.id == m.next && Compatible(tx, rx)
    requires m'.next == m.next + 1 && m'.txq == m.txq && m'.held == m.held[tx.id := Match(tx, rx)]
    requires m'.disposed == m.disposed
    ensures Honest(m', b.(sent := b.sent[tx.id := tx], got := b.got[tx.id := rx]))
  {
    MatchedLetter(tx, rx);
    hide Match, Share, LetterFor, Compatible;
  }

  lemma PutUnmatched(m: Mbox, b: Book, tx: Tx, m': Mbox)
    requires Honest(m, b) && tx.id == m.next
    requires forall w :: w in m'.txq ==> w in m.txq || (w.tid == tx.id && w.desc == tx)
    requires m'.next == m.next + 1 && m'.held == m.held && m'.disposed == m.disposed
    ensures Honest(m', b.(sent := b.sent[tx.id := tx]))
  {
    hide Share, LetterFor, Compatible;
  }

  lemma PutHonest(m: Mbox, b: Book, tx: Tx, prio: int, noWait: bool, m1: Mbox)
    requires Honest(m, b) && tx.id == m.next
    requires m1.next == m.next + 1 && m1.txq == m.txq && m1.rxq == m.rxq && m1.held == m.held
    requires m1.disposed == m.disposed
    ensures Honest(MessagePut(m1, tx, prio, noWait), NotePut(b, m, tx))
  {
    hide Honest, FirstReceiver, Unpend, Pend, Match, Compatible;
    var i, m' := FirstReceiver(m.rxq, tx), MessagePut(m1, tx, prio, noWait);
    if i < |m.rxq| {
      PutMatched(m, b, tx, m.rxq[i].desc, m');
    } else {
      PutUnmatched(m, b, tx, m');
    }
  }

  lemma DisposeHonest(m: Mbox, b: Book, id: nat, discard: bool)
    requires Honest(m, b) && (id in m.held ==> id !in m.disposed)
    ensures Honest(Dispose(m, id, discard), Note(b, m, EDispose(id, discard)))
  {
    hide Compatible, Share, Honest, Dispose;
    if id in m.held {
      HeldShare(m, b, id);
      DisposedIs(m, id, discard);
      DisposedHonest(m, b, id, discard, Dispose(m, id, discard));
    } else {
      NotHeld(m, id, discard);
    }
  }

  lemma NotHeld(m: Mbox, id: nat, discard: bool)
    requires id !in m.held
    ensures Dispose(m, id, discard) == m
  {
  }

  lemma HeldShare(m: Mbox, b: Book, id: nat)
    requires Honest(m, b) && id in m.held
    ensures Delivered(b, id) && m.held[id].size <= |m.held[id].tx.data|
    ensures m.held[id].tx.data[..m.held[id].size] == Share(b.sent[id], b.got[id])
  {
    SharedBytes(m.held[id], b.sent[id], b.got[id]);
  }

  lemma DisposedIs(m: Mbox, id: nat, discard: bool)
    requires id in m.held && m.held[id].size <= |m.held[id].tx.data|
    ensures var m' := Dispose(m, id, discard);
            && m'.txq == m.txq && m'.next == m.next && m'.held == m.held - {id}
            && m'.disposed == m.disposed[id := if discard then [] else m.held[id].tx.data[..m.held[id].size]]
  {
  }

  lemma DisposedHonest(m: Mbox, b: Book, id: nat, discard: bool, m': Mbox)
    requires Honest(m, b) && id in m.held && id !in m.disposed && Delivered(b, id)
    requires m'.txq == m.txq && m'.next == m.next && m'.held == m.held - {id}
    requires m'.disposed == m.disposed[id := if discard then [] else Share(b.sent[id], b.got[id])]
    ensures Honest(m', b.(dropped := if discard then b.dropped + {id} else b.dropped))
  {
    hide Compatible, Share, LetterFor;
  }

  lemma SharedBytes(letter: Letter, tx: Tx, rx: Rx)
    requires LetterFor(letter, tx, rx)
    ensures letter.size <= |letter.tx.data| && letter.tx.data[..letter.size] == Share(tx, rx)
  {
  }

  lemma HeldOnce(m: Mbox, id: nat)
    requires Inv(m) && id in m.held
    ensures id !in m.disposed
  {
    assert Fates(m, id) == One(id < m.next && Some(id) != None);
    hide NoMatchWaits, Shapes, Descriptors, Tids;
  }

  /** Fewer messages waiting, and requests, are none of its business. */
  lemma HonestFrame(m: Mbox, b: Book, m': Mbox)
    requires Honest(m, b) && (forall w :: w in m'.txq ==> w in m.txq)
    requires m'.next == m.next && m'.held == m.held && m'.disposed == m.disposed
    ensures Honest(m', b)
  {
    hide Share, LetterFor, Delivered;
  }

  lemma GetHonest(m: Mbox, b: Book, rx: Rx, prio: int, noWait: bool)
    requires Inv(m) && Honest(m, b)
    ensures Honest(Get(m, rx, prio, noWait), Note(b, m, EGet(rx, prio, noWait)))
  {
    hide Inv, FirstSender, Unpend, Pend, Honest, Match, Dispose, Compatible;
    var i := FirstSender(m.txq, rx);
    if i < |m.txq| {
      var tx := m.txq[i].desc;
      TakenOnce(m, i);
      var m1 := m.(nextRx := m.nextRx + 1, txq := Unpend(m.txq, m.txq[i].tid), held := m.held[tx.id := Match(tx, rx)]);
      TakenHonest(m, b, rx, i, m1);
      DisposeHonest(m1, b.(got := b.got[tx.id := rx]), tx.id, false);
    } else {
      HonestFrame(m, b, Get(m, rx, prio, noWait));
    }
  }

  /** A message that waits has no other fate. */
  lemma TakenOnce(m: Mbox, i: nat)
    requires Inv(m) && i < |m.txq|
    ensures m.txq[i].desc.id == m.txq[i].tid && m.txq[i].tid !in m.held && m.txq[i].tid !in m.disposed
  {
    assert m.txq[i] in m.txq;
    TidsMember(m.txq, m.txq[i]);
    assert Fates(m, m.txq[i].tid) == One(m.txq[i].tid < m.next && Some(m.txq[i].tid) != None);
    hide NoMatchWaits, Descriptors, Tids;
  }

  lemma TakenHonest(m: Mbox, b: Book, rx: Rx, i: nat, m1: Mbox)
    requires Honest(m, b) && i < |m.txq| && Compatible(m.txq[i].desc, rx)
    requires m.txq[i].desc.id == m.txq[i].tid && m.txq[i].tid !in m.held && m.txq[i].tid !in m.disposed
    requires m1 == m.(nextRx := m.nextRx + 1, txq := Unpend(m.txq, m.txq[i].tid),
                      held := m.held[m.txq[i].desc.id := Match(m.txq[i].desc, rx)])
    ensures Honest(m1, b.(got := b.got[m.txq[i].desc.id := rx]))
  {
    MatchedLetter(m.txq[i].desc, rx);
    hide Unpend, Match, LetterFor, Share, Compatible;
    assert m.txq[i] in m.txq;
  }

  lemma StepHonest(m: Mbox, b: Book, e: Event)
    requires Inv(m) && Honest(m, b)
    ensures Honest(Step(m, e), Note(b, m, e))
  {
    hide Inv, Honest, NotePut, MessagePut, Get, Dispose, Unpend;
    match e
    case EPut(tid, prio, target, data, info, noWait) =>
      PutHonest(m, b, Tx(m.next, None, tid, target, data, info), prio, noWait,
                m.(next := m.next + 1, kinds := m.kinds[m.next := None]));
    case EAsyncPut(tid, prio, target, data, info) =>
      if m.free != [] {
        var d := m.free[0];
        var m1 := m.(next := m.next + 1, kinds := m.kinds[m.next := Some(d)], free := m.free[1..],
                     inUse := m.inUse[d := m.next]);
        PutHonest(m, b, Tx(m.next, Some(d), tid, target, data, info), prio, false, m1);
      }
    case EGet(rx, prio, noWait) => GetHonest(m, b, rx, prio, noWait);
    case EDispose(id, discard) =>
      if id in m.held {
        HeldOnce(m, id);
      }
      DisposeHonest(m, b, id, discard);
    case ETxTimeout(id) => HonestFrame(m, b, Step(m, e));
    case ERxTimeout(id) => HonestFrame(m, b, Step(m, e));
  }

  lemma {:induction false} RunHonest(m: Mbox, b: Book, es: seq<Event>)
    requires Inv(m) && Honest(m, b)
    ensures Honest(Run(m, es), History(b, m, es))
    decreases |es|
  {
    if es != [] {
      StepHonest(m, b, es[0]);
      StepKeeps(m, es[0]);
      hide Inv, Honest, Step, Note;
      RunHonest(Step(m, es[0]), Note(b, m, es[0]), es[1..]);
    }
  }

  /** Through every run of sends, receives, disposals and timeouts on a new mailbox: what a receiver
      took is nothing if it discarded the message, and otherwise the first bytes of what was sent,
      exactly as many as it had room for; and it was entitled to it. */
  lemma DeliversWhatWasSent(n: nat, es: seq<Event>)
    ensures Honest(Run(Fresh(n), es), History(Book(map[], map[], {}), Fresh(n), es))
  {
    FreshInv(n);
    RunHonest(Fresh(n), Book(map[], map[], {}), es);
    hide Run, History, Inv;
  }

  // ---------------------------------------------------------------- what a call does at once

  /** Nothing but message id is concerned. */
  ghost predicate OthersStay(m: Mbox, m': Mbox, id: nat) {
    && Tids(m'.txq) - {id} == Tids(m.txq) - {id} && m'.gone - {id} == m.gone - {id}
    && (forall k :: k != id ==> (k in m'.held <==> k in m.held) && (k in m.held ==> m'.held[k] == m.held[k]))
    && (forall k :: k != id ==> (k in m'.disposed <==> k in m.disposed) &&
                                (k in m.disposed ==> m'.disposed[k] == m.disposed[k]))
  }

  /** A receive that some waiting message suits takes the first such message out of the queue. If it
      wants the data now, or there is none for it, it has its share of the bytes and the message is done
      with; otherwise it holds the letter. If none suits, it fails without a trace or waits. */
  lemma GetAnswers(m: Mbox, rx: Rx, prio: int, noWait: bool)
    requires Inv(m)
    ensures var m', i := Get(m, rx, prio, noWait), FirstSender(m.txq, rx);
            if i < |m.txq| then
              var tx, id := m.txq[i].desc, m.txq[i].desc.id;
              && id in Tids(m.txq) && id !in Tids(m'.txq) && OthersStay(m, m', id) && m'.rxq == m.rxq
              && (if rx.now || Share(tx, rx) == [] then
                    id !in m'.held && id in m'.disposed && m'.disposed[id] == Share(tx, rx)
                  else id in m'.held && id !in m'.disposed && LetterFor(m'.held[id], tx, rx))
            else if noWait then m' == m.(nextRx := m.nextRx + 1)
            else m' == m.(nextRx := m.nextRx + 1, rxq := Pend(m.rxq, Waiter(m.nextRx, prio, rx)))
  {
    hide Inv, FirstSender, Unpend, Pend, Match, Compatible, Tids, OthersStay, Dispose, Share;
    var i := FirstSender(m.txq, rx);
    if i < |m.txq| {
      var tx := m.txq[i].desc;
      TakenOnce(m, i);
      MessageLeaves(m, i);
      var m1 := m.(nextRx := m.nextRx + 1, txq := Unpend(m.txq, m.txq[i].tid), held := m.held[tx.id := Match(tx, rx)]);
      TakenAnswers(m, rx, tx, m1);
    }
  }

  lemma MessageLeaves(m: Mbox, i: nat)
    requires Inv(m) && i < |m.txq|
    ensures m.txq[i].tid in Tids(m.txq) && Tids(Unpend(m.txq, m.txq[i].tid)) == Tids(m.txq) - {m.txq[i].tid}
  {
    assert m.txq[i] in m.txq;
    TidsMember(m.txq, m.txq[i]);
    UnpendTids(m.txq, m.txq[i].tid);
  }

  lemma TakenAnswers(m: Mbox, rx: Rx, tx: Tx, m1: Mbox)
    requires m1 == m.(nextRx := m.nextRx + 1, txq := m1.txq, held := m.held[tx.id := Match(tx, rx)])
    requires Tids(m1.txq) == Tids(m.txq) - {tx.id} && tx.id !in m.held && tx.id !in m.disposed
    ensures OthersStay(m, m1, tx.id) && LetterFor(m1.held[tx.id], tx, rx)
    ensures m1.held[tx.id].size == 0 <==> Share(tx, rx) == []
    ensures var m' := Dispose(m1, tx.id, false);
            && OthersStay(m, m', tx.id) && m'.txq == m1.txq && m'.rxq == m.rxq
            && tx.id !in m'.held && tx.id in m'.disposed && m'.disposed[tx.id] == Share(tx, rx)
  {
    MatchedLetter(tx, rx);
    hide Match, Tids, Share;
  }

  /** What has become of a message just sent: given, as a letter, to the first waiting request that it
      suits, which waits no longer; if none suits, gone if the sender may not wait, and otherwise
      waiting. */
  ghost predicate Posted(m: Mbox, m': Mbox, tx: Tx, prio: int, noWait: bool) {
    var i, id := FirstReceiver(m.rxq, tx), tx.id;
    && OthersStay(m, m', id) && id !in m'.disposed
    && (if i < |m.rxq| then
          id in m'.held && LetterFor(m'.held[id], tx, m.rxq[i].desc) && Tids(m'.rxq) == Tids(m.rxq) - {m.rxq[i].tid}
        else id !in m'.held && m'.rxq == m.rxq)
    && (id in m'.gone <==> i == |m.rxq| && noWait)
    && (id in Tids(m'.txq) <==> i == |m.rxq| && !noWait)
    && (id in Tids(m'.txq) ==> Waiter(id, prio, tx) in m'.txq)
  }

  /** A send posts the message with the next number. */
  lemma PutAnswers(m: Mbox, tid: ThreadId, prio: int, target: Who, data: seq<Byte>, info: int, noWait: bool)
    requires Inv(m)
    ensures Posted(m, Put(m, tid, prio, target, data, info, noWait), Tx(m.next, None, tid, target, data, info), prio,
                   noWait)
  {
    hide Inv, Posted, MessagePut;
    var tx, m1 := Tx(m.next, None, tid, target, data, info), m.(next := m.next + 1, kinds := m.kinds[m.next := None]);
    PostingSync(m, tx, m1);
    PostAnswers(m1, tx, prio, noWait);
    PostedFrom(m, m1, MessagePut(m1, tx, prio, noWait), tx, prio, noWait);
  }

  /** An asynchronous one does so, and never fails, with the descriptor that was freed last. */
  lemma AsyncPutAnswers(m: Mbox, tid: ThreadId, prio: int, target: Who, data: seq<Byte>, info: int)
    requires Inv(m) && m.free != []
    ensures var m', d := AsyncPut(m, tid, prio, target, data, info), m.free[0];
            && Posted(m, m', Tx(m.next, Some(d), tid, target, data, info), prio, false)
            && m.free == [d] + m'.free && d !in m.inUse && m'.inUse == m.inUse[d := m.next]
  {
    hide Inv, Posted, MessagePut;
    var d := m.free[0];
    TopUnused(m);
    var tx := Tx(m.next, Some(d), tid, target, data, info);
    var m1 := m.(next := m.next + 1, kinds := m.kinds[m.next := Some(d)], free := m.free[1..],
                 inUse := m.inUse[d := m.next]);
    PostingAsync(m, tx, m1);
    PostAnswers(m1, tx, prio, false);
    PostedFrom(m, m1, MessagePut(m1, tx, prio, false), tx, prio, false);
    PutDescriptors(m1, tx, prio, false);
  }

  lemma TopUnused(m: Mbox)
    requires Inv(m) && m.free != []
    ensures m.free[0] !in m.inUse
  {
    CountAt(m.free, 0);
    hide NoMatchWaits, Shapes, OneFate, Carried, Lent, Count;
  }

  lemma PutDescriptors(m: Mbox, tx: Tx, prio: int, noWait: bool)
    ensures var m' := MessagePut(m, tx, prio, noWait); m'.free == m.free && m'.inUse == m.inUse
  {
    hide FirstReceiver, Pend, Unpend, Match;
  }

  lemma PostedFrom(m: Mbox, m1: Mbox, m': Mbox, tx: Tx, prio: int, noWait: bool)
    requires Posted(m1, m', tx, prio, noWait)
    requires m1 == m.(next := m1.next, kinds := m1.kinds, free := m1.free, inUse := m1.inUse)
    ensures Posted(m, m', tx, prio, noWait)
  {
    hide LetterFor, Tids, FirstReceiver;
  }

  lemma PostAnswers(m: Mbox, tx: Tx, prio: int, noWait: bool)
    requires Posting(m, tx)
    ensures Posted(m, MessagePut(m, tx, prio, noWait), tx, prio, noWait)
  {
    hide Posting, FirstReceiver, Unpend, Pend, Match, Compatible, Tids, LetterFor;
    PostingFresh(m, tx);
    var i := FirstReceiver(m.rxq, tx);
    if i < |m.rxq| {
      RequestLeaves(m, tx, i);
      MatchedLetter(tx, m.rxq[i].desc);
    } else if !noWait {
      PendTids(m.txq, Waiter(tx.id, prio, tx));
      assert Waiter(tx.id, prio, tx) in Pend(m.txq, Waiter(tx.id, prio, tx));
    }
  }

  lemma RequestLeaves(m: Mbox, tx: Tx, i: nat)
    requires Posting(m, tx) && i < |m.rxq|
    ensures Tids(Unpend(m.rxq, m.rxq[i].tid)) == Tids(m.rxq) - {m.rxq[i].tid}
  {
    UnpendTids(m.rxq, m.rxq[i].tid);
  }

  // ---------------------------------------------------------------- who is served first

  ghost predicate Fair(m: Mbox) { InTurn(m.txq) && InTurn(m.rxq) }

  lemma NumbersBelow(m: Mbox)
    requires Inv(m)
    ensures (forall w :: w in m.txq ==> w.tid < m.next) && (forall w :: w in m.rxq ==> w.tid < m.nextRx)
  {
    forall w | w in m.txq
      ensures w.tid < m.next
    {
      TidsMember(m.txq, w);
      assert Fates(m, w.tid) == One(w.tid < m.next && Some(w.tid) != None);
    }
    forall w | w in m.rxq
      ensures w.tid < m.nextRx
    {
      TidsMember(m.rxq, w);
    }
  }

  lemma StepFair(m: Mbox, e: Event)
    requires Inv(m) && Fair(m)
    ensures Fair(Step(m, e))
  {
    NumbersBelow(m);
    hide Inv, InTurn, Unpend, Pend, FirstSender, FirstReceiver, Match, Dispose;
    match e
    case EPut(tid, prio, target, data, info, noWait) => PutFair(m, Tx(m.next, None, tid, target, data, info), prio);
    case EAsyncPut(tid, prio, target, data, info) =>
      if m.free != [] {
        PutFair(m, Tx(m.next, Some(m.free[0]), tid, target, data, info), prio);
      }
    case EGet(rx, prio, noWait) => GetFair(m, rx, prio, noWait);
    case EDispose(id, discard) => DisposeQueues(m, id, discard);
    case ETxTimeout(id) => UnpendInTurn(m.txq, id);
    case ERxTimeout(id) => UnpendInTurn(m.rxq, id);
  }

  lemma DisposeQueues(m: Mbox, id: nat, discard: bool)
    ensures Dispose(m, id, discard).txq == m.txq && Dispose(m, id, discard).rxq == m.rxq
  {
  }

  lemma GetFair(m: Mbox, rx: Rx, prio: int, noWait: bool)
    requires Fair(m) && forall w :: w in m.rxq ==> w.tid < m.nextRx
    ensures Fair(Get(m, rx, prio, noWait))
  {
    hide InTurn, Unpend, Pend, FirstSender, Match, Dispose;
    var i := FirstSender(m.txq, rx);
    if i < |m.txq| {
      var tx := m.txq[i].desc;
      UnpendInTurn(m.txq, m.txq[i].tid);
      DisposeQueues(m.(nextRx := m.nextRx + 1, txq := Unpend(m.txq, m.txq[i].tid),
                       held := m.held[tx.id := Match(tx, rx)]), tx.id, false);
    } else {
      PendInTurn(m.rxq, Waiter(m.nextRx, prio, rx));
    }
  }

  lemma PutFair(m: Mbox, tx: Tx, prio: int)
    requires Fair(m) && tx.id == m.next && forall w :: w in m.txq ==> w.tid < m.next
    ensures InTurn(Pend(m.txq, Waiter(tx.id, prio, tx)))
    ensures FirstReceiver(m.rxq, tx) < |m.rxq| ==> InTurn(Unpend(m.rxq, m.rxq[FirstReceiver(m.rxq, tx)].tid))
  {
    PendInTurn(m.txq, Waiter(tx.id, prio, tx));
    var i := FirstReceiver(m.rxq, tx);
    if i < |m.rxq| {
      UnpendInTurn(m.rxq, m.rxq[i].tid);
    }
  }

  lemma {:induction false} RunFair(m: Mbox, es: seq<Event>)
    requires Inv(m) && Fair(m)
    ensures Fair(Run(m, es))
    decreases |es|
  {
    if es != [] {
      StepFair(m, es[0]);
      StepKeeps(m, es[0]);
      hide Inv, Fair, Step;
      RunFair(Step(m, es[0]), es[1..]);
    }
  }

  ghost predicate BestSender(q: seq<Waiter<Tx>>, rx: Rx) {
    var i := FirstSender(q, rx);
    forall w :: w in q && Compatible(w.desc, rx) ==> i < |q| && (w == q[i] || Before(q[i], w))
  }

  ghost predicate BestReceiver(q: seq<Waiter<Rx>>, tx: Tx) {
    var i := FirstReceiver(q, tx);
    forall w :: w in q && Compatible(tx, w.desc) ==> i < |q| && (w == q[i] || Before(q[i], w))
  }

  lemma SenderInTurn(q: seq<Waiter<Tx>>, rx: Rx)
    requires InTurn(q)
    ensures BestSender(q, rx)
  {
    hide InTurn, FirstSender, Compatible;
    var i := FirstSender(q, rx);
    forall w | w in q && Compatible(w.desc, rx)
      ensures i < |q| && (w == q[i] || Before(q[i], w))
    {
      var j :| 0 <= j < |q| && q[j] == w;
      if i < j {
        InTurnAt(q, i, j);
      }
    }
  }

  lemma ReceiverInTurn(q: seq<Waiter<Rx>>, tx: Tx)
    requires InTurn(q)
    ensures BestReceiver(q, tx)
  {
    hide InTurn, FirstReceiver, Compatible;
    var i := FirstReceiver(q, tx);
    forall w | w in q && Compatible(tx, w.desc)
      ensures i < |q| && (w == q[i] || Before(q[i], w))
    {
      var j :| 0 <= j < |q| && q[j] == w;
      if i < j {
        InTurnAt(q, i, j);
      }
    }
  }

  /** After every run: a receive takes, of all waiting messages it accepts and that accept it, one of
      the best priority, and of these the one sent first; and a send meets the waiting request for which
      the same is true. */
  lemma BestServedFirst(n: nat, es: seq<Event>, tx: Tx, rx: Rx)
    ensures BestSender(Run(Fresh(n), es).txq, rx) && BestReceiver(Run(Fresh(n), es).rxq, tx)
  {
    FreshInv(n);
    RunFair(Fresh(n), es);
    hide Run, Fresh, Inv, InTurn, BestSender, BestReceiver;
    SenderInTurn(Run(Fresh(n), es).txq, rx);
    ReceiverInTurn(Run(Fresh(n), es).rxq, tx);
  }
}
