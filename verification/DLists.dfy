/**
 include/sys/dlist.h: doubly-linked lists through nodes that the listed objects
 carry in themselves.  A list is a ring that begins and ends at its own head
 node; a node can be in one list at a time.
 */
module DLists {
  import opened Lists

  /** Nodes of objects are numbered from 0 on; list heads have the negative numbers. */
  function Head(l: nat): int { -1 - l }

  function First(q: seq<nat>, end: int): int { if q == [] then end else q[0] }

  function Last(start: int, q: seq<nat>): int { if q == [] then start else q[|q| - 1] }

  /** Following next from a node leads through q to end. */
  ghost predicate Path(next: map<int, int>, start: int, q: seq<nat>, end: int)
    decreases |q|
  {
    && start in next && next[start] == First(q, end)
    && (q != [] ==> Path(next, q[0], q[1..], end))
  }

  /** Following prev from end leads through q, backwards, to start. */
  ghost predicate Back(prev: map<int, int>, start: int, q: seq<nat>, end: int)
    decreases |q|
  {
    if q == [] then end in prev && prev[end] == start
    else q[0] in prev && prev[q[0]] == start && Back(prev, q[0], q[1..], end)
  }

  ghost predicate Ring(next: map<int, int>, prev: map<int, int>, l: nat, q: seq<nat>) {
    Path(next, Head(l), q, Head(l)) && Back(prev, Head(l), q, Head(l))
  }

  // ---------------------------------------------------------------- cutting and joining

  lemma {:induction false} PathCut(next: map<int, int>, start: int, a: seq<nat>, b: seq<nat>, end: int)
    ensures Path(next, start, a + b, end)
       <==> Path(next, start, a, First(b, end)) && (b != [] ==> Path(next, b[0], b[1..], end))
    decreases |a|
  {
    if a == [] {
      assert a + b == b;
    } else {
      assert (a + b)[0] == a[0] && (a + b)[1..] == a[1..] + b;
      PathCut(next, a[0], a[1..], b, end);
      assert First(a + b, end) == a[0] == First(a, First(b, end));
    }
  }

  lemma {:induction false} BackCut(prev: map<int, int>, start: int, a: seq<nat>, b: seq<nat>, end: int)
    ensures Back(prev, start, a + b, end)
       <==> Back(prev, start, a, First(b, end)) && (b != [] ==> Back(prev, b[0], b[1..], end))
    decreases |a|
  {
    if a == [] {
      assert a + b == b;
      if b != [] {
        assert Back(prev, start, a, b[0]) <==> b[0] in prev && prev[b[0]] == start;
      }
    } else {
      assert (a + b)[0] == a[0] && (a + b)[1..] == a[1..] + b;
      BackCut(prev, a[0], a[1..], b, end);
    }
  }

  lemma {:induction false} PathFrame(next: map<int, int>, next': map<int, int>, start: int, q: seq<nat>, end: int)
    requires Path(next, start, q, end) && start in next' && next'[start] == next[start]
    requires forall t :: t in q && t in next ==> t in next' && next'[t] == next[t]
    ensures Path(next', start, q, end)
    decreases |q|
  {
    if q != [] {
      assert q[0] in q && forall t :: t in q[1..] ==> t in q;
      PathFrame(next, next', q[0], q[1..], end);
    }
  }

  lemma {:induction false} BackFrame(prev: map<int, int>, prev': map<int, int>, start: int, q: seq<nat>, end: int)
    requires Back(prev, start, q, end) && end in prev && end in prev' && prev'[end] == prev[end]
    requires forall t :: t in q && t in prev ==> t in prev' && prev'[t] == prev[t]
    ensures Back(prev', start, q, end)
    decreases |q|
  {
    if q != [] {
      assert q[0] in q && forall t :: t in q[1..] ==> t in q;
      BackFrame(prev, prev', q[0], q[1..], end);
    }
  }

  lemma {:induction false} PathKnown(next: map<int, int>, start: int, q: seq<nat>, end: int)
    requires Path(next, start, q, end)
    ensures start in next && (forall t :: t in q ==> t in next) && Last(start, q) in next && next[Last(start, q)] == end
    decreases |q|
  {
    if q != [] {
      PathKnown(next, q[0], q[1..], end);
      assert Last(start, q) == Last(q[0], q[1..]);
      assert q == [q[0]] + q[1..];
    }
  }

  lemma {:induction false} BackKnown(prev: map<int, int>, start: int, q: seq<nat>, end: int)
    requires Back(prev, start, q, end)
    ensures end in prev && prev[end] == Last(start, q) && forall t :: t in q ==> t in prev
    decreases |q|
  {
    if q != [] {
      BackKnown(prev, q[0], q[1..], end);
      assert Last(start, q) == Last(q[0], q[1..]);
      assert q == [q[0]] + q[1..];
    }
  }

  /** The last node of a path is made to point elsewhere. */
  lemma {:induction false} PathRedirect(next: map<int, int>, start: int, q: seq<nat>, end: int, end': int)
    requires Path(next, start, q, end) && start !in q && forall t: nat :: Count(q, t) <= 1
    ensures Path(next[Last(start, q) := end'], start, q, end')
    decreases |q|
  {
    if q != [] {
      assert Last(start, q) == Last(q[0], q[1..]);
      OnceTail(q);
      PathRedirect(next, q[0], q[1..], end, end');
      assert Last(start, q) in q;
    }
  }

  lemma OnceTail(q: seq<nat>)
    requires q != [] && forall t: nat :: Count(q, t) <= 1
    ensures q[0] !in q[1..] && forall t: nat :: Count(q[1..], t) <= 1
  {
    forall t: nat
      ensures Count(q[1..], t) <= 1
    {
      assert Count(q, t) <= 1;
    }
    assert Count(q, q[0]) <= 1;
    Member(q[1..], q[0]);
  }

  /** The same nodes with another end. */
  lemma {:induction false} BackRedirect(prev: map<int, int>, prev': map<int, int>, start: int, q: seq<nat>, end: int,
                                        end': int)
    requires Back(prev, start, q, end) && end' in prev' && prev'[end'] == Last(start, q)
    requires forall t :: t in q && t in prev ==> t in prev' && prev'[t] == prev[t]
    ensures Back(prev', start, q, end')
    decreases |q|
  {
    if q != [] {
      assert q[0] in q && forall t :: t in q[1..] ==> t in q;
      assert Last(start, q) == Last(q[0], q[1..]);
      BackRedirect(prev, prev', q[0], q[1..], end, end');
    }
  }

  lemma OnceParts(a: seq<nat>, b: seq<nat>)
    requires forall t: nat :: Count(a + b, t) <= 1
    ensures (forall t: nat :: Count(a, t) <= 1) && (forall t: nat :: Count(b, t) <= 1)
    ensures forall t: nat :: t in a ==> t !in b
  {
    forall t: nat
      ensures Count(a, t) <= 1 && Count(b, t) <= 1 && (t in a ==> t !in b)
    {
      assert Count(a + b, t) <= 1;
      CountJoin(a, b, t);
      Member(a, t);
      Member(b, t);
    }
  }

  lemma {:induction false} CountJoin(a: seq<nat>, b: seq<nat>, t: nat)
    ensures Count(a + b, t) == Count(a, t) + Count(b, t)
  {
    if a == [] {
      assert a + b == b;
    } else {
      assert (a + b)[0] == a[0] && (a + b)[1..] == a[1..] + b;
      CountJoin(a[1..], b, t);
    }
  }

  // ---------------------------------------------------------------- one node comes or goes

  lemma LastApart(start: int, a: seq<nat>, b: seq<nat>)
    requires start < 0 && forall x: nat :: x in a ==> x !in b
    ensures forall x :: x in b ==> x != Last(start, a)
  {
    if a != [] {
      assert Last(start, a) in a;
    }
  }

  /** sys_dlist_insert: the four assignments. */
  function NextInserted(next: map<int, int>, pred: int, succ: int, t: nat): map<int, int> { next[t := succ][pred := t] }

  function PrevInserted(prev: map<int, int>, pred: int, succ: int, t: nat): map<int, int> { prev[t := pred][succ := t] }

  lemma InsertPath(next: map<int, int>, start: int, a: seq<nat>, b: seq<nat>, end: int, t: nat)
    requires Path(next, start, a + b, end) && start < 0 && end < 0 && (forall x: nat :: Count(a + b, x) <= 1)
    requires t !in a + b
    ensures Path(NextInserted(next, Last(start, a), First(b, end), t), start, a + ([t] + b), end)
  {
    var succ, pred := First(b, end), Last(start, a);
    var next' := NextInserted(next, pred, succ, t);
    PathCut(next, start, a, b, end);
    OnceParts(a, b);
    PathRedirect(next, start, a, succ, t);
    assert forall x :: x in a ==> x != t;
    PathKnown(next[pred := t], start, a, t);
    PathFrame(next[pred := t], next', start, a, t);
    if b != [] {
      PathKnown(next, b[0], b[1..], end);
      LastApart(start, a, b);
      assert forall x :: x in b ==> x in a + b && x != t && x != pred;
      assert b[0] in b && forall x :: x in b[1..] ==> x in b;
      PathFrame(next, next', b[0], b[1..], end);
    }
    assert ([t] + b)[0] == t && ([t] + b)[1..] == b;
    assert Path(next', t, b, end);
    PathCut(next', start, a, [t] + b, end);
  }

  lemma InsertBack(prev: map<int, int>, start: int, a: seq<nat>, b: seq<nat>, end: int, t: nat)
    requires Back(prev, start, a + b, end) && start < 0 && end < 0 && (forall x: nat :: Count(a + b, x) <= 1)
    requires t !in a + b
    ensures Back(PrevInserted(prev, Last(start, a), First(b, end), t), start, a + ([t] + b), end)
  {
    var succ, pred := First(b, end), Last(start, a);
    var prev' := PrevInserted(prev, pred, succ, t);
    BackCut(prev, start, a, b, end);
    OnceParts(a, b);
    assert forall x :: x in a ==> x != t && x != succ;
    BackRedirect(prev, prev', start, a, succ, t);
    if b != [] {
      BackKnown(prev, b[0], b[1..], end);
      OnceTail(b);
      assert forall x :: x in b[1..] ==> x in b && x != t && x != succ;
      BackFrame(prev, prev', b[0], b[1..], end);
    }
    assert ([t] + b)[0] == t && ([t] + b)[1..] == b;
    assert Back(prev', t, b, end);
    BackCut(prev', start, a, [t] + b, end);
  }

  /** sys_dlist_remove: the neighbours joined, and the node reset. */
  function NextRemoved(next: map<int, int>, pred: int, succ: int, t: nat): map<int, int> { next[pred := succ] - {t} }

  function PrevRemoved(prev: map<int, int>, pred: int, succ: int, t: nat): map<int, int> { prev[succ := pred] - {t} }

  lemma RemovePath(next: map<int, int>, start: int, a: seq<nat>, b: seq<nat>, end: int, t: nat)
    requires Path(next, start, a + ([t] + b), end) && start < 0 && end < 0
    requires forall x: nat :: Count(a + ([t] + b), x) <= 1
    ensures t in next && next[t] == First(b, end)
    ensures Path(NextRemoved(next, Last(start, a), First(b, end), t), start, a + b, end)
  {
    var succ, pred := First(b, end), Last(start, a);
    var next' := NextRemoved(next, pred, succ, t);
    assert ([t] + b)[0] == t && ([t] + b)[1..] == b;
    PathCut(next, start, a, [t] + b, end);
    OnceParts(a, [t] + b);
    OnceTail([t] + b);
    PathRedirect(next, start, a, t, succ);
    PathKnown(next[pred := succ], start, a, succ);
    assert t in [t] + b;
    assert forall x :: x in a ==> x != t;
    PathFrame(next[pred := succ], next', start, a, succ);
    if b != [] {
      PathKnown(next, b[0], b[1..], end);
      assert forall x :: x in b ==> x in [t] + b;
      LastApart(start, a, b);
      assert t !in b;
      assert b[0] in b && forall x :: x in b[1..] ==> x in b;
      PathFrame(next, next', b[0], b[1..], end);
    }
    PathCut(next', start, a, b, end);
  }

  lemma RemoveBack(prev: map<int, int>, start: int, a: seq<nat>, b: seq<nat>, end: int, t: nat)
    requires Back(prev, start, a + ([t] + b), end) && start < 0 && end < 0
    requires forall x: nat :: Count(a + ([t] + b), x) <= 1
    ensures t in prev && prev[t] == Last(start, a)
    ensures Back(PrevRemoved(prev, Last(start, a), First(b, end), t), start, a + b, end)
  {
    var succ, pred := First(b, end), Last(start, a);
    var prev' := PrevRemoved(prev, pred, succ, t);
    assert ([t] + b)[0] == t && ([t] + b)[1..] == b;
    BackCut(prev, start, a, [t] + b, end);
    OnceParts(a, [t] + b);
    OnceTail([t] + b);
    BackKnown(prev, start, a, t);
    assert t in [t] + b && forall x :: x in b ==> x in [t] + b;
    assert forall x :: x in a ==> x != t && x != succ;
    BackRedirect(prev, prev', start, a, t, succ);
    if b != [] {
      BackKnown(prev, b[0], b[1..], end);
      OnceTail(b);
      assert forall x :: x in b[1..] ==> x in b && x != t && x != succ;
      BackFrame(prev, prev', b[0], b[1..], end);
    }
    BackCut(prev', start, a, b, end);
  }

  // ---------------------------------------------------------------- many lists

  /** A node is in one list at most, and there once. */
  ghost predicate Apart(lists: map<nat, seq<nat>>) {
    && (forall l, t: nat :: l in lists ==> Count(lists[l], t) <= 1)
    && (forall l, m, t: nat :: l in lists && m in lists && t in lists[l] && t in lists[m] ==> l == m)
  }

  ghost predicate Free(lists: map<nat, seq<nat>>, t: nat) {
    forall l :: l in lists ==> t !in lists[l]
  }

  ghost predicate Rings(next: map<int, int>, prev: map<int, int>, lists: map<nat, seq<nat>>) {
    forall l :: l in lists ==> Ring(next, prev, l, lists[l])
  }

  /** Nodes that are in no list are reset, which is how the kernel tells. */
  ghost predicate Unlinked(next: map<int, int>, lists: map<nat, seq<nat>>) {
    forall t: nat :: Free(lists, t) ==> t !in next
  }

  /** The nodes next to a place in a ring. */
  lemma Neighbours(next: map<int, int>, prev: map<int, int>, l: nat, a: seq<nat>, b: seq<nat>)
    requires Ring(next, prev, l, a + b)
    ensures var succ, pred := First(b, Head(l)), Last(Head(l), a);
            succ in prev && prev[succ] == pred && pred in next && next[pred] == succ
  {
    PathCut(next, Head(l), a, b, Head(l));
    BackCut(prev, Head(l), a, b, Head(l));
    PathKnown(next, Head(l), a, First(b, Head(l)));
    BackKnown(prev, Head(l), a, First(b, Head(l)));
  }

  /** A ring whose nodes are left alone. */
  lemma RingFrame(next: map<int, int>, prev: map<int, int>, next': map<int, int>, prev': map<int, int>, l: nat,
                  q: seq<nat>)
    requires Ring(next, prev, l, q)
    requires Head(l) in next' && Head(l) in next && next'[Head(l)] == next[Head(l)]
    requires Head(l) in prev' && Head(l) in prev && prev'[Head(l)] == prev[Head(l)]
    requires forall t :: t in q ==>
        t in next && t in next' && next'[t] == next[t] && t in prev && t in prev' && prev'[t] == prev[t]
    ensures Ring(next', prev', l, q)
  {
    PathFrame(next, next', Head(l), q, Head(l));
    BackFrame(prev, prev', Head(l), q, Head(l));
  }

  lemma RingKnown(next: map<int, int>, prev: map<int, int>, l: nat, q: seq<nat>)
    requires Ring(next, prev, l, q)
    ensures Head(l) in next && Head(l) in prev && forall t :: t in q ==> t in next && t in prev
  {
    PathKnown(next, Head(l), q, Head(l));
    BackKnown(prev, Head(l), q, Head(l));
  }

  ghost predicate InRing(l: nat, q: seq<nat>, n: int) { n == Head(l) || (n >= 0 && n in q) }

  lemma InsertRings(next: map<int, int>, prev: map<int, int>, lists: map<nat, seq<nat>>, l: nat, a: seq<nat>,
                    b: seq<nat>, t: nat)
    requires Rings(next, prev, lists) && Apart(lists) && Free(lists, t) && l in lists && lists[l] == a + b
    ensures var succ, pred := First(b, Head(l)), Last(Head(l), a);
            Rings(NextInserted(next, pred, succ, t), PrevInserted(prev, pred, succ, t), lists[l := a + ([t] + b)])
  {
    var succ, pred := First(b, Head(l)), Last(Head(l), a);
    var next', prev' := NextInserted(next, pred, succ, t), PrevInserted(prev, pred, succ, t);
    var lists' := lists[l := a + ([t] + b)];
    assert InRing(l, a + b, succ) && InRing(l, a + b, pred);
    forall m | m in lists'
      ensures Ring(next', prev', m, lists'[m])
    {
      if m == l {
        assert Ring(next, prev, l, a + b);
        assert t !in lists[l];
        InsertPath(next, Head(l), a, b, Head(l), t);
        InsertBack(prev, Head(l), a, b, Head(l), t);
      } else {
        OtherRing(next, prev, next', prev', lists, l, m, t, pred, succ);
      }
    }
  }

  lemma OtherRing(next: map<int, int>, prev: map<int, int>, next': map<int, int>, prev': map<int, int>,
                  lists: map<nat, seq<nat>>, l: nat, m: nat, t: nat, pred: int, succ: int)
    requires Rings(next, prev, lists) && Apart(lists) && l in lists && m in lists && m != l && t !in lists[m]
    requires InRing(l, lists[l], pred) && InRing(l, lists[l], succ)
    requires forall n :: n in next && n != t && n != pred ==> n in next' && next'[n] == next[n]
    requires forall n :: n in prev && n != t && n != succ ==> n in prev' && prev'[n] == prev[n]
    ensures Ring(next', prev', m, lists[m])
  {
    assert Ring(next, prev, m, lists[m]);
    RingKnown(next, prev, m, lists[m]);
    assert Head(m) != pred && Head(m) != succ;
    assert forall x :: x in lists[m] ==> x != t && x != pred && x != succ;
    hide Ring;
    RingFrame(next, prev, next', prev', m, lists[m]);
  }

  lemma RemoveRings(next: map<int, int>, prev: map<int, int>, lists: map<nat, seq<nat>>, l: nat, a: seq<nat>,
                    b: seq<nat>, t: nat)
    requires Rings(next, prev, lists) && Apart(lists) && l in lists && lists[l] == a + ([t] + b)
    ensures var succ, pred := First(b, Head(l)), Last(Head(l), a);
            && t in next && next[t] == succ && t in prev && prev[t] == pred
            && Rings(NextRemoved(next, pred, succ, t), PrevRemoved(prev, pred, succ, t), lists[l := a + b])
  {
    var succ, pred := First(b, Head(l)), Last(Head(l), a);
    var next', prev' := NextRemoved(next, pred, succ, t), PrevRemoved(prev, pred, succ, t);
    var lists' := lists[l := a + b];
    assert Ring(next, prev, l, a + ([t] + b));
    RemovePath(next, Head(l), a, b, Head(l), t);
    RemoveBack(prev, Head(l), a, b, Head(l), t);
    assert t in lists[l] && InRing(l, lists[l], succ) && InRing(l, lists[l], pred);
    forall m | m in lists'
      ensures Ring(next', prev', m, lists'[m])
    {
      if m != l {
        OtherRing(next, prev, next', prev', lists, l, m, t, pred, succ);
      }
    }
  }

  lemma InsertApart(lists: map<nat, seq<nat>>, l: nat, a: seq<nat>, b: seq<nat>, t: nat)
    requires Apart(lists) && Free(lists, t) && l in lists && lists[l] == a + b
    ensures Apart(lists[l := a + ([t] + b)])
    ensures forall u: nat :: Free(lists[l := a + ([t] + b)], u) <==> u != t && Free(lists, u)
  {
    var lists' := lists[l := a + ([t] + b)];
    assert forall u: nat :: u in a + ([t] + b) <==> u == t || u in a + b;
    forall m, u: nat | m in lists'
      ensures Count(lists'[m], u) <= 1
    {
      assert Count(lists[m], u) <= 1;
      if m == l {
        CountMiddle(a, b, t, u);
        Member(a + b, u);
      }
    }
    forall u: nat
      ensures Free(lists', u) <==> u != t && Free(lists, u)
    {
      FreeUpdated(lists, l, a + ([t] + b), u);
    }
  }

  lemma FreeUpdated(lists: map<nat, seq<nat>>, l: nat, q: seq<nat>, u: nat)
    ensures Free(lists[l := q], u) <==> u !in q && forall m :: m in lists && m != l ==> u !in lists[m]
  {
    var lists' := lists[l := q];
    if Free(lists', u) {
      assert l in lists';
      forall m | m in lists && m != l
        ensures u !in lists[m]
      {
        assert m in lists';
      }
    }
  }

  lemma CountMiddle(a: seq<nat>, b: seq<nat>, t: nat, u: nat)
    ensures Count(a + ([t] + b), u) == Count(a + b, u) + One(u == t)
  {
    CountJoin(a, [t] + b, u);
    CountJoin(a, b, u);
    assert ([t] + b)[1..] == b;
  }

  lemma RemoveApart(lists: map<nat, seq<nat>>, l: nat, a: seq<nat>, b: seq<nat>, t: nat)
    requires Apart(lists) && l in lists && lists[l] == a + ([t] + b)
    ensures Apart(lists[l := a + b])
    ensures forall u: nat :: Free(lists[l := a + b], u) <==> u == t || Free(lists, u)
  {
    var lists' := lists[l := a + b];
    assert forall u: nat :: u in a + ([t] + b) <==> u == t || u in a + b;
    assert Count(lists[l], t) <= 1;
    CountMiddle(a, b, t, t);
    Member(a + b, t);
    forall m, u: nat | m in lists'
      ensures Count(lists'[m], u) <= 1
    {
      assert Count(lists[m], u) <= 1;
      CountMiddle(a, b, t, u);
    }
    forall u: nat
      ensures Free(lists', u) <==> u == t || Free(lists, u)
    {
      assert t in lists[l];
      FreeUpdated(lists, l, a + b, u);
      if u == t {
        assert forall m :: m in lists && m != l ==> t !in lists[m];
      }
    }
  }

  // ---------------------------------------------------------------- the code

  lemma {:induction false} RemoveIs(q: seq<nat>, t: nat) returns (a: seq<nat>, b: seq<nat>)
    requires t in q
    ensures q == a + ([t] + b) && Remove(q, t) == a + b && t !in a
  {
    if q[0] == t {
      a, b := [], q[1..];
    } else {
      var a', b' := RemoveIs(q[1..], t);
      a, b := [q[0]] + a', b';
      assert q == [q[0]] + q[1..];
      assert [q[0]] + (a' + ([t] + b')) == a + ([t] + b);
      assert [q[0]] + (a' + b') == a + b;
    }
  }

  /** The link nodes of all the objects, and the lists that run through them. */
  class Links {
    var next: map<int, int>
    var prev: map<int, int>
    ghost var lists: map<nat, seq<nat>>

    ghost predicate Valid() reads this {
      Rings(next, prev, lists) && Apart(lists) && Unlinked(next, lists)
    }

    constructor ()
      ensures Valid() && lists == map[]
    {
      next, prev, lists := map[], map[], map[];
    }

    /** sys_dlist_init of a list not in use. */
    method Init(l: nat)
      requires Valid() && l !in lists
      modifies this
      ensures Valid() && lists == old(lists)[l := []]
    {
      ghost var n, p := next, prev;
      next, prev := next[Head(l) := Head(l)], prev[Head(l) := Head(l)];
      lists := lists[l := []];
      forall m | m in lists
        ensures Ring(next, prev, m, lists[m])
      {
        if m != l {
          assert Ring(n, p, m, old(lists)[m]);
          RingKnown(n, p, m, old(lists)[m]);
          RingFrame(n, p, next, prev, m, old(lists)[m]);
        }
      }
      forall t: nat | Free(lists, t)
        ensures t !in next
      {
        FreeUpdated(old(lists), l, [], t);
        assert l in lists ==> Free(old(lists), t) by { assert l !in old(lists); }
      }
      assert Apart(lists) by { EmptyApart(old(lists), l); }
    }

    /** sys_dnode_is_linked. */
    method IsLinked(t: nat) returns (linked: bool)
      requires Valid()
      ensures linked <==> !Free(lists, t)
    {
      linked := t in next;
      if !Free(lists, t) {
        ghost var l :| l in lists && t in lists[l];
        assert Ring(next, prev, l, lists[l]);
        RingKnown(next, prev, l, lists[l]);
      }
    }

    /** The node after one in a list; the head of the list at its end. */
    method Next(n: int, ghost l: nat, ghost a: seq<nat>, ghost b: seq<nat>) returns (r: int)
      requires Valid() && l in lists && lists[l] == a + b && n == Last(Head(l), a)
      ensures r == First(b, Head(l))
    {
      assert Ring(next, prev, l, a + b);
      Neighbours(next, prev, l, a, b);
      r := next[n];
    }

    /** sys_dlist_insert, or sys_dlist_append when the successor is the head. */
    method InsertBefore(succ: int, t: nat, ghost l: nat, ghost a: seq<nat>, ghost b: seq<nat>)
      requires Valid() && l in lists && lists[l] == a + b && succ == First(b, Head(l)) && Free(lists, t)
      modifies this
      ensures Valid() && lists == old(lists)[l := a + ([t] + b)]
    {
      assert Ring(next, prev, l, a + b);
      Neighbours(next, prev, l, a, b);
      InsertRings(next, prev, lists, l, a, b, t);
      InsertApart(lists, l, a, b, t);
      hide Rings, Apart;
      ghost var n, pred := next, prev[succ];
      prev := prev[t := prev[succ]];
      next := next[t := succ];
      next := next[prev[succ] := t];
      prev := prev[succ := t];
      assert next == NextInserted(n, pred, succ, t);
      lists := lists[l := a + ([t] + b)];
      assert Unlinked(next, lists) by {
        forall u: nat | Free(lists, u)
          ensures u !in next
        {
          PredListed(old(lists), l, a, b);
        }
      }
    }

    /** sys_dlist_remove. */
    method RemoveNode(t: nat, ghost l: nat)
      requires Valid() && l in lists && t in lists[l]
      modifies this
      ensures Valid() && lists == old(lists)[l := Remove(old(lists)[l], t)]
    {
      ghost var a, b := RemoveIs(lists[l], t);
      RemoveRings(next, prev, lists, l, a, b, t);
      RemoveApart(lists, l, a, b, t);
      hide Rings, Apart, Remove;
      ghost var n, p, pred, succ := next, prev, prev[t], next[t];
      NeighbourKnown(t, l, a, b);
      assert pred != t by {
        if a != [] {
          assert a[|a| - 1] in a;
        }
      }
      next := next[prev[t] := next[t]];
      prev := prev[next[t] := prev[t]];
      next, prev := next - {t}, prev - {t};
      assert next == NextRemoved(n, pred, succ, t) && prev == PrevRemoved(p, pred, succ, t);
      lists := lists[l := a + b];
      assert Unlinked(next, lists) by {
        forall u: nat | Free(lists, u)
          ensures u !in next
        {
          RemovedListed(old(lists), l, a, b, t);
        }
      }
    }

    lemma NeighbourKnown(t: nat, l: nat, a: seq<nat>, b: seq<nat>)
      requires Valid() && l in lists && lists[l] == a + ([t] + b)
      ensures t in next && t in prev
    {
      assert Ring(next, prev, l, lists[l]);
      RingKnown(next, prev, l, lists[l]);
      assert t in lists[l];
    }
  }

  lemma EmptyApart(lists: map<nat, seq<nat>>, l: nat)
    requires Apart(lists) && l !in lists
    ensures Apart(lists[l := []])
  {
    var lists' := lists[l := []];
    forall m, t: nat | m in lists'
      ensures Count(lists'[m], t) <= 1
    {
      if m != l {
        assert Count(lists[m], t) <= 1;
      }
    }
  }

  /** The node before a place is a head or in the list. */
  lemma PredListed(lists: map<nat, seq<nat>>, l: nat, a: seq<nat>, b: seq<nat>)
    requires l in lists && lists[l] == a + b
    ensures Last(Head(l), a) >= 0 ==> !Free(lists, Last(Head(l), a))
  {
    if a != [] {
      assert a[|a| - 1] in lists[l];
    }
  }

  lemma RemovedListed(lists: map<nat, seq<nat>>, l: nat, a: seq<nat>, b: seq<nat>, t: nat)
    requires l in lists && lists[l] == a + ([t] + b)
    ensures Last(Head(l), a) >= 0 ==> !Free(lists[l := a + b], Last(Head(l), a))
  {
    if a != [] {
      assert a[|a| - 1] in lists[l := a + b][l];
    }
  }
}
