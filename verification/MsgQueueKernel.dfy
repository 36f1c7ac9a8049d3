/** kernel/msg_q.c: messages in a byte ring, proved to do what module MsgQueues says. */
module MsgQueueKernel {
  import opened Memory
  import opened MsgQueues
  import opened WaitQueues
  import opened Wrappers

  /** Slot j of a buffer of messages of the given size. */
  function Slot(buf: seq<Byte>, size: nat, j: nat): (s: Msg)
    requires At(j, size) + size <= |buf|
    ensures |s| == size
  {
    buf[At(j, size)..At(j, size) + size]
  }

  /** Slot i of a ring of max slots, for i at most one lap beyond it. */
  function Around(i: nat, max: nat): nat { if i < max then i else i - max }

  /** The used messages of a ring, oldest first. */
  function Unroll(buf: seq<Byte>, size: nat, max: nat, r: nat, used: nat): (s: seq<Msg>)
    requires |buf| == At(max, size) && used <= max && (r < max || max == 0)
    ensures |s| == used
    decreases used
  {
    if used == 0 then []
    else
      InBuffer(size, Around(r + used - 1, max), max);
      Unroll(buf, size, max, r, used - 1) + [Slot(buf, size, Around(r + used - 1, max))]
  }

  /** The buffer with msg in slot w. */
  ghost predicate Written(buf: seq<Byte>, buf': seq<Byte>, size: nat, w: nat, msg: Msg) {
    |msg| == size && At(w, size) + size <= |buf| && buf' == buf[..At(w, size)] + msg + buf[At(w, size) + size..]
  }

  /** Writing one slot leaves the others as they are. */
  lemma OtherSlot(buf: seq<Byte>, buf': seq<Byte>, size: nat, w: nat, j: nat, msg: Msg)
    requires Written(buf, buf', size, w, msg) && j != w && At(j, size) + size <= |buf|
    ensures |buf'| == |buf| && Slot(buf', size, j) == Slot(buf, size, j)
  {
    hide At;
    Product(size, w);
    Product(size, j);
    if j < w {
      Below(size, j + 1, w);
    } else {
      Below(size, w + 1, j);
    }
  }

  lemma SameSlot(buf: seq<Byte>, buf': seq<Byte>, size: nat, w: nat, msg: Msg)
    requires Written(buf, buf', size, w, msg)
    ensures |buf'| == |buf| && Slot(buf', size, w) == msg
  {
    hide At;
  }

  lemma {:induction false} WriteUnrolls(buf: seq<Byte>, buf': seq<Byte>, size: nat, max: nat, r: nat, used: nat, n: nat,
                                        msg: Msg)
    requires |buf| == At(max, size) && r < max && used < max && n <= used
    requires Written(buf, buf', size, Around(r + used, max), msg)
    ensures |buf'| == |buf| && Unroll(buf', size, max, r, n) == Unroll(buf, size, max, r, n)
    decreases n
  {
    hide At;
    SameSlot(buf, buf', size, Around(r + used, max), msg);
    if n > 0 {
      WriteUnrolls(buf, buf', size, max, r, used, n - 1, msg);
      var j := Around(r + n - 1, max);
      InBuffer(size, j, max);
      OtherSlot(buf, buf', size, Around(r + used, max), j, msg);
    }
  }

  lemma WriteAppends(buf: seq<Byte>, buf': seq<Byte>, size: nat, max: nat, r: nat, used: nat, msg: Msg)
    requires |buf| == At(max, size) && r < max && used < max && Written(buf, buf', size, Around(r + used, max), msg)
    ensures |buf'| == |buf| && Unroll(buf', size, max, r, used + 1) == Unroll(buf, size, max, r, used) + [msg]
  {
    hide At;
    WriteUnrolls(buf, buf', size, max, r, used, used, msg);
    SameSlot(buf, buf', size, Around(r + used, max), msg);
  }

  /** Taking the oldest message off. */
  lemma {:induction false} ReadUnrolls(buf: seq<Byte>, size: nat, max: nat, r: nat, used: nat)
    requires |buf| == At(max, size) && r < max && 0 < used <= max && At(r, size) + size <= |buf|
    ensures Unroll(buf, size, max, r, used) == [Slot(buf, size, r)] + Unroll(buf, size, max, Around(r + 1, max),
        used - 1)
    decreases used
  {
    hide At, Slot;
    var r' := Around(r + 1, max);
    if used > 1 {
      ReadUnrolls(buf, size, max, r, used - 1);
      assert Around(r + used - 1, max) == Around(r' + used - 2, max);
    } else {
      assert Unroll(buf, size, max, r, 0) == [];
    }
  }

  /** The message buffer of a struct k_msgq. */
  class MessageRing {
    const msgSize: nat
    const maxMsgs: nat
    const buffer: array<Byte>
    var readPtr: nat
    var writePtr: nat
    var usedMsgs: nat
    ghost var first: nat             // the slot readPtr points to
    ghost var contents: seq<Msg>

    ghost predicate Valid() reads this, buffer {
      && buffer.Length == At(maxMsgs, msgSize) && usedMsgs <= maxMsgs && (first < maxMsgs || maxMsgs == 0 == first)
      && readPtr == At(first, msgSize) && writePtr == At(Around(first + usedMsgs, maxMsgs), msgSize)
      && contents == Unroll(buffer[..], msgSize, maxMsgs, first, usedMsgs)
    }

    /** k_msgq_init. */
    constructor (buffer: array<Byte>, msgSize: nat, maxMsgs: nat)
      requires buffer.Length == At(maxMsgs, msgSize)
      ensures Valid() && contents == [] && this.buffer == buffer && this.maxMsgs == maxMsgs && this.msgSize == msgSize
    {
      this.msgSize, this.maxMsgs, this.buffer := msgSize, maxMsgs, buffer;
      readPtr, writePtr, usedMsgs, first, contents := 0, 0, 0, 0, [];
    }

    method Write(msg: Msg)
      requires Valid() && usedMsgs < maxMsgs && |msg| == msgSize
      modifies this, buffer
      ensures Valid() && contents == old(contents) + [msg]
    {
      hide At, Unroll;
      InBuffer(msgSize, Around(first + usedMsgs, maxMsgs), maxMsgs);
      NextSlot(msgSize, first + usedMsgs, maxMsgs);
      Copy(buffer, writePtr, msg);
      WriteAppends(old(buffer[..]), buffer[..], msgSize, maxMsgs, first, usedMsgs, msg);
      writePtr := writePtr + msgSize;
      if writePtr == buffer.Length {
        writePtr := 0;
      }
      usedMsgs := usedMsgs + 1;
      contents := contents + [msg];
    }

    method Read() returns (msg: Msg)
      requires Valid() && usedMsgs > 0
      modifies this
      ensures Valid() && old(contents) == [msg] + contents
    {
      hide At, Unroll;
      InBuffer(msgSize, first, maxMsgs);
      NextSlot(msgSize, first, maxMsgs);
      AroundTwice(first, usedMsgs, maxMsgs);
      ReadUnrolls(buffer[..], msgSize, maxMsgs, first, usedMsgs);
      msg := buffer[readPtr..readPtr + msgSize];
      assert msg == Slot(buffer[..], msgSize, first);
      readPtr := readPtr + msgSize;
      if readPtr == buffer.Length {
        readPtr := 0;
      }
      usedMsgs := usedMsgs - 1;
      first := Around(first + 1, maxMsgs);
      contents := contents[1..];
    }

    lemma Counts()
      requires Valid()
      ensures |contents| == usedMsgs <= maxMsgs
    {
    }

    method Peek() returns (msg: Msg)
      requires Valid() && usedMsgs > 0
      ensures contents != [] && msg == contents[0]
    {
      InBuffer(msgSize, first, maxMsgs);
      ReadUnrolls(buffer[..], msgSize, maxMsgs, first, usedMsgs);
      msg := buffer[readPtr..readPtr + msgSize];
      assert msg == Slot(buffer[..], msgSize, first);
    }

    method Clear()
      requires Valid()
      modifies this
      ensures Valid() && contents == []
    {
      first := Around(first + usedMsgs, maxMsgs);
      usedMsgs := 0;
      readPtr := writePtr;
      contents := [];
    }
  }

  /** struct k_msgq. */
  class KMsgQ {
    const ring: MessageRing
    var waiters: Waiters
    ghost var entered: seq<Msg>
    ghost var left: seq<Msg>

    ghost function View(): Queue reads this, ring {
      Queue(ring.maxMsgs, ring.contents, waiters, entered, left)
    }

    /** All messages, queued or waiting, have the size of a slot. */
    ghost predicate Valid() reads this, ring, ring.buffer {
      ring.Valid() && Inv(View()) && forall w :: w in waiters && w.desc.Sending? ==> |w.desc.msg| == ring.msgSize
    }

    constructor (buffer: array<Byte>, msgSize: nat, maxMsgs: nat)
      requires buffer.Length == At(maxMsgs, msgSize)
      ensures Valid() && View() == Empty(maxMsgs) && fresh(ring) && ring.buffer == buffer && ring.msgSize == msgSize
    {
      ring := new MessageRing(buffer, msgSize, maxMsgs);
      waiters, entered, left := [], [], [];
    }

    /** z_impl_k_msgq_put. */
    method PutMsg(tid: ThreadId, prio: int, msg: Msg, noWait: bool) returns (out: Outcome)
      requires Valid() && |msg| == ring.msgSize
      modifies this, ring, ring.buffer
      ensures Valid() && (View(), out) == Put(old(View()), tid, prio, msg, noWait)
    {
      StepInv(View(), EPut(tid, prio, msg, noWait));
      ring.Counts();
      hide Inv, MessageRing.Valid, Pend;
      if ring.usedMsgs < ring.maxMsgs {
        entered := entered + [msg];
        if waiters != [] {
          var pending := waiters[0];
          waiters := waiters[1..];
          left := left + [msg];
          return Outcome(Done, msg, Some(pending.tid));
        }
        ring.Write(msg);
        return Outcome(Done, msg, None);
      } else if noWait {
        return Outcome(NoMsg, msg, None);
      }
      waiters := Pend(waiters, Waiter(tid, prio, Sending(msg)));
      out := Outcome(Blocked, msg, None);
    }

    /** z_impl_k_msgq_get. */
    method GetMsg(tid: ThreadId, prio: int, noWait: bool) returns (out: Outcome)
      requires Valid()
      modifies this, ring, ring.buffer
      ensures Valid() && (View(), out) == Get(old(View()), tid, prio, noWait)
    {
      StepInv(View(), EGet(tid, prio, noWait));
      SenderFirst(View());
      ring.Counts();
      hide Inv, MessageRing.Valid, Pend;
      if ring.usedMsgs > 0 {
        var msg := ring.Read();
        assert msg == old(ring.contents)[0] && ring.contents == old(ring.contents)[1..];
        left := left + [msg];
        if waiters == [] {
          return Outcome(Done, msg, None);
        }
        var pending := waiters[0];
        assert pending in old(waiters);
        waiters := waiters[1..];
        ring.Counts();
        ring.Write(pending.desc.msg);
        entered := entered + [pending.desc.msg];
        return Outcome(Done, msg, Some(pending.tid));
      } else if noWait {
        return Outcome(NoMsg, [], None);
      }
      waiters := Pend(waiters, Waiter(tid, prio, Receiving));
      out := Outcome(Blocked, [], None);
    }

    /** z_impl_k_msgq_peek. */
    method PeekMsg() returns (msg: Option<Msg>)
      requires Valid()
      ensures msg == if View().messages == [] then None else Some(View().messages[0])
    {
      ring.Counts();
      if ring.usedMsgs > 0 {
        var m := ring.Peek();
        return Some(m);
      }
      msg := None;
    }

    /** z_impl_k_msgq_purge. */
    method PurgeMsgs() returns (failed: seq<ThreadId>)
      requires Valid()
      modifies this, ring
      ensures Valid() && View() == Purge(old(View())) && failed == old(Threads(waiters))
    {
      hide MessageRing.Valid;
      failed := WakeAll();
      left := left + ring.contents;
      ring.Clear();
      assert left + [] == left;
    }

    /** Every waiter fails. */
    method WakeAll() returns (failed: seq<ThreadId>)
      modifies this`waiters
      ensures waiters == [] && failed == old(Threads(waiters))
    {
      failed := [];
      assert failed + Threads(waiters) == Threads(waiters);
      while waiters != []
        invariant failed + Threads(waiters) == old(Threads(waiters))
        decreases |waiters|
      {
        Associative(failed, [waiters[0].tid], Threads(waiters[1..]));
        failed := failed + [waiters[0].tid];
        waiters := waiters[1..];
      }
    }
  }

  /** Whoever waits while there are messages has one to send. */
  lemma SenderFirst(q: Queue)
    requires Inv(q)
    ensures q.messages != [] && q.waiters != [] ==> q.waiters[0].desc.Sending? && |q.messages| == q.maxMsgs >= 1
  {
    if q.waiters != [] {
      assert q.waiters[0] in q.waiters;
    }
  }

  /** Wrapping the pointer at the end of the buffer is wrapping the slot number. */
  lemma NextSlot(size: nat, i: nat, max: nat)
    requires i + 1 < 2 * max
    ensures var p := At(Around(i, max), size) + size;
            At(Around(i + 1, max), size) == if p == At(max, size) then 0 else p
  {
    hide At;
    var w := Around(i, max) + 1;
    Product(size, w - 1);
    assert i + 1 != max ==> w == Around(i + 1, max);
    if w < max {
      InBuffer(size, w, max);
      Product(size, w);
      if size == 0 {
        Nothing(w);
      }
    }
  }

  lemma Nothing(j: nat)
    ensures At(j, 0) == 0
  {
  }

  lemma AroundTwice(first: nat, used: nat, max: nat)
    requires first < max && 0 < used <= max
    ensures Around(Around(first + 1, max) + (used - 1), max) == Around(first + used, max)
  {
  }
}
