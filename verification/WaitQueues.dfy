/**
 A kernel wait queue: the pended threads in the order in which they will be
 served, that is by priority (a smaller number is served first) and, within a
 priority, in the order in which they pended.  Each carries the descriptor its
 blocking call left behind.
 */
module WaitQueues {

  type ThreadId = nat

  datatype Waiter<D> = Waiter(tid: ThreadId, prio: int, desc: D)

  /** Priorities do not improve along the queue, nor beyond prio. */
  ghost predicate OrderedFrom<D>(q: seq<Waiter<D>>, prio: int) {
    q == [] || (prio <= q[0].prio && OrderedFrom(q[1..], q[0].prio))
  }

  ghost predicate ByPriority<D>(q: seq<Waiter<D>>) {
    q == [] || OrderedFrom(q, q[0].prio)
  }

  ghost function Tids<D>(q: seq<Waiter<D>>): set<ThreadId> {
    if q == [] then {} else {q[0].tid} + Tids(q[1..])
  }

  ghost predicate DistinctThreads<D>(q: seq<Waiter<D>>) {
    q == [] || (q[0].tid !in Tids(q[1..]) && DistinctThreads(q[1..]))
  }

  /** z_priq_dumb_add: before the first thread of strictly lower priority. */
  function Pend<D(!new)>(q: seq<Waiter<D>>, w: Waiter<D>): (r: seq<Waiter<D>>)
    ensures |r| == |q| + 1
    ensures forall x :: x in r <==> x == w || x in q
  {
    if q == [] || w.prio < q[0].prio then [w] + q else [q[0]] + Pend(q[1..], w)
  }

  /** The queue without the given thread: a timeout, or a hand-off to a chosen thread. */
  function Unpend<D(!new)>(q: seq<Waiter<D>>, tid: ThreadId): (r: seq<Waiter<D>>)
    ensures |r| <= |q|
    ensures forall x :: x in r ==> x in q
  {
    if q == [] then [] else if q[0].tid == tid then q[1..] else [q[0]] + Unpend(q[1..], tid)
  }

  function Threads<D>(q: seq<Waiter<D>>): (r: seq<ThreadId>)
    ensures |r| == |q|
  {
    if q == [] then [] else [q[0].tid] + Threads(q[1..])
  }

  lemma {:induction false} PendOrdered<D(!new)>(q: seq<Waiter<D>>, w: Waiter<D>, prio: int)
    requires OrderedFrom(q, prio) && prio <= w.prio
    ensures OrderedFrom(Pend(q, w), prio)
  {
    if q == [] || w.prio < q[0].prio {
      assert Pend(q, w)[1..] == q;
    } else {
      PendOrdered(q[1..], w, q[0].prio);
      assert Pend(q, w)[1..] == Pend(q[1..], w);
    }
  }

  lemma PendByPriority<D(!new)>(q: seq<Waiter<D>>, w: Waiter<D>)
    requires ByPriority(q)
    ensures ByPriority(Pend(q, w))
  {
    if q == [] || w.prio < q[0].prio {
      assert Pend(q, w)[1..] == q;
    } else {
      PendOrdered(q, w, q[0].prio);
    }
  }

  lemma {:induction false} PendTids<D(!new)>(q: seq<Waiter<D>>, w: Waiter<D>)
    ensures Tids(Pend(q, w)) == Tids(q) + {w.tid}
    ensures DistinctThreads(q) && w.tid !in Tids(q) ==> DistinctThreads(Pend(q, w))
  {
    if q == [] || w.prio < q[0].prio {
      assert Pend(q, w)[1..] == q;
    } else {
      PendTids(q[1..], w);
      assert Pend(q, w)[1..] == Pend(q[1..], w);
    }
  }

  lemma {:induction false} TidsMember<D>(q: seq<Waiter<D>>, w: Waiter<D>)
    requires w in q
    ensures w.tid in Tids(q)
  {
    if q[0] != w {
      TidsMember(q[1..], w);
    }
  }

  lemma {:induction false} UnpendTids<D(!new)>(q: seq<Waiter<D>>, tid: ThreadId)
    requires DistinctThreads(q)
    ensures Tids(Unpend(q, tid)) == Tids(q) - {tid} && DistinctThreads(Unpend(q, tid))
  {
    if q != [] && q[0].tid != tid {
      UnpendTids(q[1..], tid);
      assert Unpend(q, tid)[1..] == Unpend(q[1..], tid);
    }
  }

  lemma OrderedTail<D>(q: seq<Waiter<D>>)
    requires ByPriority(q) && q != []
    ensures ByPriority(q[1..]) && (|q| > 1 ==> q[0].prio <= q[1].prio)
  {
    assert OrderedFrom(q[1..], q[0].prio);
  }

  lemma {:induction false} UnpendOrdered<D(!new)>(q: seq<Waiter<D>>, tid: ThreadId, prio: int)
    requires OrderedFrom(q, prio)
    ensures OrderedFrom(Unpend(q, tid), prio)
  {
    if q != [] && q[0].tid != tid {
      UnpendOrdered(q[1..], tid, q[0].prio);
      assert Unpend(q, tid)[1..] == Unpend(q[1..], tid);
    } else if |q| > 1 {
      assert q[0].prio <= q[1..][0].prio;
    }
  }

  lemma UnpendByPriority<D(!new)>(q: seq<Waiter<D>>, tid: ThreadId)
    requires ByPriority(q)
    ensures ByPriority(Unpend(q, tid))
  {
    if q != [] {
      UnpendOrdered(q, tid, q[0].prio);
    }
  }

  lemma {:induction false} FirstIsBest<D>(q: seq<Waiter<D>>, prio: int, w: Waiter<D>)
    requires OrderedFrom(q, prio) && w in q
    ensures prio <= w.prio
  {
    if q[0] != w {
      FirstIsBest(q[1..], q[0].prio, w);
    }
  }

  /** Taking a thread out before or after an insertion is the same. */
  lemma {:induction false} UnpendPend<D(!new)>(q: seq<Waiter<D>>, w: Waiter<D>, tid: ThreadId)
    requires ByPriority(q)
    ensures tid != w.tid ==> Unpend(Pend(q, w), tid) == Pend(Unpend(q, tid), w)
    ensures tid == w.tid && tid !in Tids(q) ==> Unpend(Pend(q, w), tid) == q
  {
    if q == [] {
      assert [w][1..] == [];
    } else if w.prio < q[0].prio {
      assert Pend(q, w)[1..] == q;
      OrderedTail(q);
    } else {
      OrderedTail(q);
      UnpendPend(q[1..], w, tid);
      assert Pend(q, w)[1..] == Pend(q[1..], w);
      if q[0].tid == tid {
        assert q[0].tid in Tids(q);
      } else {
        assert Unpend(q, tid)[1..] == Unpend(q[1..], tid);
      }
    }
  }

  // ---------------------------------------------------------------- served in turn

  /** By priority, then by number: numbers are given in the order of the calls. */
  predicate Before<D>(a: Waiter<D>, b: Waiter<D>) { a.prio < b.prio || (a.prio == b.prio && a.tid < b.tid) }

  ghost predicate InTurn<D>(q: seq<Waiter<D>>) {
    q == [] || ((forall w :: w in q[1..] ==> Before(q[0], w)) && InTurn(q[1..]))
  }

  lemma {:induction false} PendInTurn<D(!new)>(q: seq<Waiter<D>>, w: Waiter<D>)
    requires InTurn(q) && forall x :: x in q ==> x.tid < w.tid
    ensures InTurn(Pend(q, w))
  {
    if q == [] || w.prio < q[0].prio {
      assert Pend(q, w)[1..] == q;
      assert forall x :: x in q ==> x == q[0] || x in q[1..];
    } else {
      PendInTurn(q[1..], w);
      assert Pend(q, w)[1..] == Pend(q[1..], w);
    }
  }

  lemma {:induction false} UnpendInTurn<D(!new)>(q: seq<Waiter<D>>, tid: ThreadId)
    requires InTurn(q)
    ensures InTurn(Unpend(q, tid))
  {
    if q != [] && q[0].tid != tid {
      UnpendInTurn(q[1..], tid);
      assert Unpend(q, tid)[1..] == Unpend(q[1..], tid);
    }
  }

  /** The first of those that satisfy anything is before the others. */
  lemma {:induction false} InTurnAt<D>(q: seq<Waiter<D>>, i: nat, j: nat)
    requires InTurn(q) && i < j < |q|
    ensures Before(q[i], q[j])
  {
    if i == 0 {
      assert q[j] == q[1..][j - 1];
    } else {
      InTurnAt(q[1..], i - 1, j - 1);
    }
  }

  lemma Associative<T>(a: seq<T>, b: seq<T>, c: seq<T>)
    ensures a + (b + c) == (a + b) + c
  {
  }

  lemma {:induction false} ThreadsAppend<D>(a: seq<Waiter<D>>, b: seq<Waiter<D>>)
    ensures Threads(a + b) == Threads(a) + Threads(b)
  {
    if a == [] {
      assert a + b == b;
    } else {
      ThreadsAppend(a[1..], b);
      assert (a + b)[1..] == a[1..] + b;
      Associative([a[0].tid], Threads(a[1..]), Threads(b));
    }
  }
}
