/**
 The three ready-queue back ends of kernel/sched.c against one reference: the
 threads in the order in which they were added, from which the scheduler must
 pick the earliest of the highest priority.
 */
module RunQueues {
  import opened Bitmasks
  import Lists
  import opened WaitQueues
  import opened Wrappers

  type Thread = Waiter<()>
  type Arrivals = seq<Thread>

  // ---------------------------------------------------------------- the reference

  /** arrivals[i] is the earliest of the highest priority (the smallest number). */
  ghost predicate Earliest(arrivals: Arrivals, i: nat) {
    && i < |arrivals|
    && (forall j :: 0 <= j < |arrivals| ==> arrivals[i].prio <= arrivals[j].prio)
    && (forall j :: 0 <= j < i ==> arrivals[i].prio < arrivals[j].prio)
  }

  ghost predicate Picks(arrivals: Arrivals, best: Option<Thread>) {
    match best
    case None => arrivals == []
    case Some(t) => exists i: nat :: Earliest(arrivals, i) && arrivals[i] == t
  }

  datatype Op = Add(thread: Thread) | Remove(thread: Thread)

  /** What sched.c promises of its calls: a thread is added when it is not queued and removed when it is. */
  ghost predicate Legal(arrivals: Arrivals, op: Op) {
    match op
    case Add(t) => t.tid !in Tids(arrivals)
    case Remove(t) => t in arrivals
  }

  function After(arrivals: Arrivals, op: Op): Arrivals {
    match op
    case Add(t) => arrivals + [t]
    case Remove(t) => Unpend(arrivals, t.tid)
  }

  ghost predicate LegalRun(arrivals: Arrivals, ops: seq<Op>)
    decreases |ops|
  {
    ops == [] || (Legal(arrivals, ops[0]) && LegalRun(After(arrivals, ops[0]), ops[1..]))
  }

  lemma {:induction false} AppendTids(a: Arrivals, t: Thread)
    ensures Tids(a + [t]) == Tids(a) + {t.tid}
    ensures DistinctThreads(a) && t.tid !in Tids(a) ==> DistinctThreads(a + [t])
  {
    if a == [] {
      assert a + [t] == [t] && [t][1..] == [];
    } else {
      AppendTids(a[1..], t);
      assert (a + [t])[1..] == a[1..] + [t];
    }
  }

  lemma LegalDistinct(arrivals: Arrivals, op: Op)
    requires DistinctThreads(arrivals) && Legal(arrivals, op)
    ensures DistinctThreads(After(arrivals, op))
  {
    match op
    case Add(t) => AppendTids(arrivals, t);
    case Remove(t) => UnpendTids(arrivals, t.tid);
  }

  // ---------------------------------------------------------------- one sorted list

  /** The arrivals inserted one after the other: what the sorted list holds. */
  function Queue(arrivals: Arrivals): (q: seq<Thread>)
    ensures |q| == |arrivals|
  {
    if arrivals == [] then [] else Pend(Queue(arrivals[..|arrivals| - 1]), arrivals[|arrivals| - 1])
  }

  lemma QueueAdd(arrivals: Arrivals, t: Thread)
    ensures Queue(arrivals + [t]) == Pend(Queue(arrivals), t)
  {
    assert (arrivals + [t])[..|arrivals|] == arrivals;
  }

  lemma {:induction false} QueueSorted(arrivals: Arrivals)
    ensures ByPriority(Queue(arrivals)) && Tids(Queue(arrivals)) == Tids(arrivals)
  {
    if arrivals != [] {
      var init, t := arrivals[..|arrivals| - 1], arrivals[|arrivals| - 1];
      assert arrivals == init + [t];
      QueueSorted(init);
      PendByPriority(Queue(init), t);
      PendTids(Queue(init), t);
      AppendTids(init, t);
    }
  }

  lemma {:induction false} UnpendLast(a: Arrivals, t: Thread, tid: ThreadId)
    ensures tid in Tids(a) ==> Unpend(a + [t], tid) == Unpend(a, tid) + [t]
    ensures tid !in Tids(a) ==> Unpend(a, tid) == a && Unpend(a + [t], tid) == if t.tid == tid then a else a + [t]
  {
    if a == [] {
      assert a + [t] == [t] && [t][1..] == [];
    } else {
      UnpendLast(a[1..], t, tid);
      assert (a + [t])[1..] == a[1..] + [t];
    }
  }

  lemma {:induction false} QueueRemove(arrivals: Arrivals, tid: ThreadId)
    requires DistinctThreads(arrivals)
    ensures Queue(Unpend(arrivals, tid)) == Unpend(Queue(arrivals), tid)
  {
    if arrivals != [] {
      var init, t := arrivals[..|arrivals| - 1], arrivals[|arrivals| - 1];
      assert arrivals == init + [t];
      InitDistinct(init, t);
      UnpendLast(init, t, tid);
      QueueRemove(init, tid);
      QueueSorted(init);
      UnpendPend(Queue(init), t, tid);
      QueueAdd(init, t);
      QueueAdd(Unpend(init, tid), t);
    }
  }

  lemma {:induction false} InitDistinct(init: Arrivals, t: Thread)
    requires DistinctThreads(init + [t])
    ensures DistinctThreads(init) && t.tid !in Tids(init)
  {
    if init != [] {
      assert (init + [t])[1..] == init[1..] + [t];
      InitDistinct(init[1..], t);
      AppendTids(init[1..], t);
    }
  }

  /** The head of the sorted list is the thread to pick. */
  lemma {:induction false} QueueHead(arrivals: Arrivals) returns (i: nat)
    requires arrivals != []
    ensures Earliest(arrivals, i) && Queue(arrivals)[0] == arrivals[i]
  {
    var n := |arrivals| - 1;
    var init, t := arrivals[..n], arrivals[n];
    if init == [] {
      assert Queue(init) == [];
      i := 0;
    } else {
      var k := QueueHead(init);
      assert forall j :: 0 <= j < n ==> init[j] == arrivals[j];
      i := if t.prio < init[k].prio then n else k;
    }
  }

  /** z_priq_dumb_add. */
  method Insert(list: seq<Thread>, t: Thread) returns (r: seq<Thread>)
    ensures r == Pend(list, t)
  {
    assert list[..0] + Pend(list[0..], t) == Pend(list, t);
    for i := 0 to |list|
      invariant Pend(list, t) == list[..i] + Pend(list[i..], t)
    {
      if t.prio < list[i].prio {
        return list[..i] + ([t] + list[i..]);
      }
      PendStep(list, i, t);
    }
    assert list[|list|..] == [];
    r := list + [t];
  }

  /** The list with z_priq_dumb_remove and z_priq_dumb_best. */
  class SortedList {
    var list: seq<Thread>
    ghost var arrivals: Arrivals

    ghost predicate Valid() reads this {
      DistinctThreads(arrivals) && list == Queue(arrivals)
    }

    constructor ()
      ensures Valid() && arrivals == []
    {
      list, arrivals := [], [];
    }

    method Add(t: Thread)
      requires Valid() && t.tid !in Tids(arrivals)
      modifies this
      ensures Valid() && arrivals == old(arrivals) + [t]
    {
      QueueAdd(arrivals, t);
      AppendTids(arrivals, t);
      list := Insert(list, t);
      arrivals := arrivals + [t];
    }

    method Remove(tid: ThreadId)
      requires Valid() && tid in Tids(arrivals)
      modifies this
      ensures Valid() && arrivals == Unpend(old(arrivals), tid)
    {
      QueueRemove(arrivals, tid);
      UnpendTids(arrivals, tid);
      list := Unpend(list, tid);
      arrivals := Unpend(arrivals, tid);
    }

    method Best() returns (best: Option<Thread>)
      requires Valid()
      ensures Picks(arrivals, best)
    {
      if list == [] {
        return None;
      }
      ghost var i := QueueHead(arrivals);
      best := Some(list[0]);
    }
  }

  lemma PendStep(list: seq<Thread>, i: nat, t: Thread)
    requires i < |list| && list[i].prio <= t.prio
    ensures list[..i] + Pend(list[i..], t) == list[..i + 1] + Pend(list[i + 1..], t)
  {
    assert list[i..][1..] == list[i + 1..];
    assert list[..i + 1] == list[..i] + [list[i]];
    Associative(list[..i], [list[i]], Pend(list[i + 1..], t));
  }

  // ---------------------------------------------------------------- one list per priority, and a bit for each

  /** The threads of one priority, in the order of their arrival. */
  function Level(arrivals: Arrivals, prio: int): (q: seq<ThreadId>) {
    if arrivals == [] then []
    else
      var n := |arrivals| - 1;
      var q := Level(arrivals[..n], prio);
      if arrivals[n].prio == prio then q + [arrivals[n].tid] else q
  }

  lemma LevelAdd(arrivals: Arrivals, t: Thread, prio: int)
    ensures Level(arrivals + [t], prio) == if t.prio == prio then Level(arrivals, prio) + [t.tid]
                                           else Level(arrivals, prio)
  {
    assert (arrivals + [t])[..|arrivals|] == arrivals;
  }

  lemma {:induction false} RemoveLast(q: seq<ThreadId>, x: ThreadId, tid: ThreadId)
    ensures tid in q ==> Lists.Remove(q + [x], tid) == Lists.Remove(q, tid) + [x]
    ensures tid !in q ==> Lists.Remove(q, tid) == q && Lists.Remove(q + [x], tid) == if x == tid then q else q + [x]
  {
    if q == [] {
      assert q + [x] == [x] && [x][1..] == [];
    } else {
      RemoveLast(q[1..], x, tid);
      assert (q + [x])[1..] == q[1..] + [x];
    }
  }

  lemma {:induction false} LevelMember(arrivals: Arrivals, t: Thread)
    ensures t.tid in Level(arrivals, t.prio) ==> t.tid in Tids(arrivals)
    ensures t in arrivals ==> t.tid in Level(arrivals, t.prio)
  {
    if arrivals != [] {
      var init, last := arrivals[..|arrivals| - 1], arrivals[|arrivals| - 1];
      assert arrivals == init + [last];
      LevelMember(init, t);
      AppendTids(init, last);
    }
  }

  lemma Plain(t: Thread)
    ensures t == Waiter(t.tid, t.prio, ())
  {
    assert t.desc == ();
  }

  lemma {:induction false} LevelRemove(arrivals: Arrivals, gone: Thread, prio: int)
    requires DistinctThreads(arrivals) && gone in arrivals
    ensures Level(Unpend(arrivals, gone.tid), prio)
         == if prio == gone.prio then Lists.Remove(Level(arrivals, prio), gone.tid) else Level(arrivals, prio)
  {
    var init, t := arrivals[..|arrivals| - 1], arrivals[|arrivals| - 1];
    assert arrivals == init + [t];
    InitDistinct(init, t);
    UnpendLast(init, t, gone.tid);
    LevelAdd(init, t, prio);
    LevelMember(init, gone);
    RemoveLast(Level(init, prio), t.tid, gone.tid);
    if gone in init {
      TidsMember(init, gone);
      LevelRemove(init, gone, prio);
      LevelAdd(Unpend(init, gone.tid), t, prio);
    }
    hide Level, Lists.Remove, Unpend, Tids, DistinctThreads;
  }

  /** The head of a level is the earliest thread of its priority. */
  lemma {:induction false} LevelHead(arrivals: Arrivals, prio: int) returns (i: nat)
    requires Level(arrivals, prio) != []
    ensures i < |arrivals| && arrivals[i].tid == Level(arrivals, prio)[0] && arrivals[i].prio == prio
    ensures forall j :: 0 <= j < i ==> arrivals[j].prio != prio
  {
    var n := |arrivals| - 1;
    var init := arrivals[..n];
    if Level(init, prio) == [] {
      forall j | 0 <= j < n
        ensures arrivals[j].prio != prio
      {
        assert arrivals[j] == init[j];
        LevelMember(init, init[j]);
      }
      i := n;
    } else {
      i := LevelHead(init, prio);
      assert forall j :: 0 <= j < n ==> init[j] == arrivals[j];
    }
  }

  const LEVELS := 32

  ghost predicate InRange(arrivals: Arrivals, highest: int) {
    forall t :: t in arrivals ==> highest <= t.prio < highest + LEVELS
  }

  lemma LevelBest(arrivals: Arrivals, highest: int, prio: int) returns (i: nat)
    requires InRange(arrivals, highest) && Level(arrivals, prio) != []
    requires forall q :: highest <= q < prio ==> Level(arrivals, q) == []
    ensures Earliest(arrivals, i) && arrivals[i] == Waiter(Level(arrivals, prio)[0], prio, ())
  {
    i := LevelHead(arrivals, prio);
    Plain(arrivals[i]);
    forall j | 0 <= j < |arrivals|
      ensures prio <= arrivals[j].prio
    {
      LevelMember(arrivals, arrivals[j]);
    }
  }

  lemma LevelsEmpty(arrivals: Arrivals, highest: int)
    requires InRange(arrivals, highest)
    requires forall q :: highest <= q < highest + LEVELS ==> Level(arrivals, q) == []
    ensures arrivals == []
  {
    if arrivals != [] {
      LevelMember(arrivals, arrivals[0]);
    }
  }

  /** struct _priq_mq. */
  class MultiQueue {
    const highest: int
    const queues: array<seq<ThreadId>>
    var bitmask: bv32
    ghost var arrivals: Arrivals

    ghost predicate Levels() reads this, queues {
      && queues.Length == LEVELS
      && forall p :: 0 <= p < LEVELS ==> queues[p] == Level(arrivals, highest + p)
    }

    ghost predicate Bits() reads this, queues {
      queues.Length == LEVELS && forall p :: 0 <= p < LEVELS ==> (Has(bitmask, p) <==> queues[p] != [])
    }

    ghost predicate Valid() reads this, queues {
      DistinctThreads(arrivals) && InRange(arrivals, highest) && Levels() && Bits()
    }

    constructor (highest: int)
      ensures Valid() && arrivals == [] && this.highest == highest && fresh(queues)
    {
      this.highest := highest;
      queues := new seq<ThreadId>[LEVELS](_ => []);
      bitmask, arrivals := 0, [];
      new;
      NonzeroHas(bitmask);
      forall p | 0 <= p < LEVELS
        ensures queues[p] == Level(arrivals, highest + p)
      {
        assert queues[p] == [];
      }
    }

    method Add(t: Thread)
      requires Valid() && t.tid !in Tids(arrivals) && highest <= t.prio < highest + LEVELS
      modifies this, queues
      ensures Valid() && arrivals == old(arrivals) + [t]
    {
      hide Has, Level, Tids, DistinctThreads;
      var bit := t.prio - highest;
      forall p | 0 <= p < LEVELS
        ensures Level(arrivals + [t], highest + p) == if p == bit then Level(arrivals, highest + p) + [t.tid]
                                                      else Level(arrivals, highest + p)
        ensures Has(With(bitmask, Bit(bit)), p) <==> p == bit || Has(bitmask, p)
      {
        LevelAdd(arrivals, t, highest + p);
        Setting(bitmask, bit, p);
      }
      AppendTids(arrivals, t);
      queues[bit] := queues[bit] + [t.tid];
      bitmask := With(bitmask, Bit(bit));
      arrivals := arrivals + [t];
    }

    method Remove(t: Thread)
      requires Valid() && t in arrivals
      modifies this, queues
      ensures Valid() && arrivals == Unpend(old(arrivals), t.tid)
    {
      hide Has, Level, Tids, DistinctThreads, Unpend;
      var bit := t.prio - highest;
      forall p | 0 <= p < LEVELS
        ensures Level(Unpend(arrivals, t.tid), highest + p)
             == if p == bit then Lists.Remove(Level(arrivals, highest + p), t.tid) else Level(arrivals, highest + p)
        ensures Has(Without(bitmask, Bit(bit)), p) <==> p != bit && Has(bitmask, p)
      {
        LevelRemove(arrivals, t, highest + p);
        Setting(bitmask, bit, p);
      }
      UnpendTids(arrivals, t.tid);
      queues[bit] := Lists.Remove(queues[bit], t.tid);
      if queues[bit] == [] {
        bitmask := Without(bitmask, Bit(bit));
      }
      arrivals := Unpend(arrivals, t.tid);
    }

    method Best() returns (best: Option<Thread>)
      requires Valid()
      ensures Picks(arrivals, best)
    {
      hide Has, Level;
      NonzeroHas(bitmask);
      forall q | highest <= q < highest + LEVELS
        ensures Level(arrivals, q) == queues[q - highest]
      {
        assert queues[q - highest] == Level(arrivals, highest + (q - highest));
      }
      if bitmask == 0 {
        LevelsEmpty(arrivals, highest);
        return None;
      }
      var p := CountTrailingZeros(bitmask);
      ghost var i := LevelBest(arrivals, highest, highest + p);
      best := Some(Waiter(queues[p][0], highest + p, ()));
    }
  }

  // ---------------------------------------------------------------- a balanced tree keyed by priority and arrival

  const KEYS := 0x1_0000_0000  // order keys are 32-bit

  type Node = Waiter<nat>

  /** The tree by its nodes in key order, and next_order_key. */
  datatype Tree = Tree(nodes: seq<Node>, next: nat)

  /** z_priq_rb_lessthan. */
  predicate Less(a: Node, b: Node) {
    a.prio < b.prio || (a.prio == b.prio && a.desc < b.desc)
  }

  function TreeInsert(q: seq<Node>, w: Node): (r: seq<Node>)
    ensures |r| == |q| + 1
  {
    if q == [] || Less(w, q[0]) then [w] + q else [q[0]] + TreeInsert(q[1..], w)
  }

  function Renumber(q: seq<Node>, from: nat): (r: seq<Node>)
    ensures |r| == |q|
  {
    if q == [] then [] else [q[0].(desc := from)] + Renumber(q[1..], from + 1)
  }

  function TreeAdd(tree: Tree, t: Thread): Tree {
    var w := Waiter(t.tid, t.prio, tree.next);
    if tree.next + 1 < KEYS then Tree(TreeInsert(tree.nodes, w), tree.next + 1)
    else Tree(TreeInsert(Renumber(tree.nodes, 0), w), |tree.nodes|)
  }

  function TreeRemove(tree: Tree, tid: ThreadId): Tree {
    var nodes := Unpend(tree.nodes, tid);
    Tree(nodes, if nodes == [] then 0 else tree.next)
  }

  /** The threads without their keys. */
  function Strip(q: seq<Node>): (r: seq<Thread>)
    ensures |r| == |q|
  {
    if q == [] then [] else [Waiter(q[0].tid, q[0].prio, ())] + Strip(q[1..])
  }

  /** Keys do not decrease within a priority, and priorities do not improve. */
  ghost predicate Keyed(q: seq<Node>) {
    |q| <= 1 || (!Less(q[1], q[0]) && Keyed(q[1..]))
  }

  ghost predicate KeysBelow(q: seq<Node>, bound: nat) {
    q == [] || (q[0].desc < bound && KeysBelow(q[1..], bound))
  }

  /** A thread of the given priority holds a key above the given one. */
  predicate Overtakes(q: seq<Node>, prio: int, key: nat) {
    q != [] && ((q[0].prio == prio && key < q[0].desc) || Overtakes(q[1..], prio, key))
  }

  lemma {:induction false} TreeInsertKeyed(q: seq<Node>, w: Node)
    requires Keyed(q)
    ensures Keyed(TreeInsert(q, w))
  {
    if q == [] || Less(w, q[0]) {
      assert TreeInsert(q, w)[1..] == q;
    } else {
      TreeInsertKeyed(q[1..], w);
      assert TreeInsert(q, w)[1..] == TreeInsert(q[1..], w);
    }
  }

  lemma {:induction false} RenumberKeyed(q: seq<Node>, from: nat)
    requires Keyed(q)
    ensures Keyed(Renumber(q, from)) && Strip(Renumber(q, from)) == Strip(q)
    ensures KeysBelow(Renumber(q, from), from + |q|)
    ensures q != [] ==> Renumber(q, from)[0].desc == from
  {
    if q != [] {
      RenumberKeyed(q[1..], from + 1);
      assert Renumber(q, from)[1..] == Renumber(q[1..], from + 1);
    }
  }

  lemma {:induction false} NoneAbove(q: seq<Node>, bound: nat, prio: int, key: nat)
    requires KeysBelow(q, bound) && bound <= key + 1
    ensures !Overtakes(q, prio, key)
  {
    if q != [] {
      NoneAbove(q[1..], bound, prio, key);
    }
  }

  lemma {:induction false} StripTids(q: seq<Node>)
    ensures Tids(Strip(q)) == Tids(q) && (DistinctThreads(Strip(q)) <==> DistinctThreads(q))
  {
    if q != [] {
      StripTids(q[1..]);
      assert Strip(q)[1..] == Strip(q[1..]);
    }
  }

  /** A key keeps arrival order exactly when no thread of its priority holds a larger one. */
  lemma {:induction false} InsertExact(q: seq<Node>, w: Node)
    requires Keyed(q) && w.tid !in Tids(q)
    ensures Strip(TreeInsert(q, w)) == Pend(Strip(q), Waiter(w.tid, w.prio, ())) <==> !Overtakes(q, w.prio, w.desc)
  {
    var t: Thread := Waiter(w.tid, w.prio, ());
    if q == [] {
      assert [w][1..] == [];
    } else if Less(w, q[0]) {
      assert TreeInsert(q, w)[1..] == q;
      assert Strip(q)[0].prio == q[0].prio;
      if w.prio < q[0].prio {
        NoneOfPriority(q, w.prio, w.desc);
      } else {
        assert Strip(TreeInsert(q, w))[0].tid == w.tid;
        assert Pend(Strip(q), t)[0] == Strip(q)[0] && Strip(q)[0].tid == q[0].tid;
        assert q[0].tid in Tids(q);
      }
    } else {
      InsertExact(q[1..], w);
      assert TreeInsert(q, w)[1..] == TreeInsert(q[1..], w);
      assert Strip(q)[1..] == Strip(q[1..]);
      assert Strip(TreeInsert(q, w)) == [Strip(q)[0]] + Strip(TreeInsert(q[1..], w));
      assert Pend(Strip(q), t) == [Strip(q)[0]] + Pend(Strip(q[1..]), t);
      assert Strip(TreeInsert(q, w))[1..] == Strip(TreeInsert(q[1..], w));
      assert Pend(Strip(q), t)[1..] == Pend(Strip(q[1..]), t);
    }
  }

  lemma {:induction false} NoneOfPriority(q: seq<Node>, prio: int, key: nat)
    requires Keyed(q) && (q != [] ==> prio < q[0].prio)
    ensures !Overtakes(q, prio, key)
  {
    if q != [] {
      NoneOfPriority(q[1..], prio, key);
    }
  }

  function TreeAfter(tree: Tree, op: Op): Tree {
    match op
    case Add(t) => TreeAdd(tree, t)
    case Remove(t) => TreeRemove(tree, t.tid)
  }

  function RunTree(tree: Tree, ops: seq<Op>): Tree
    decreases |ops|
  {
    if ops == [] then tree else RunTree(TreeAfter(tree, ops[0]), ops[1..])
  }

  function RunArrivals(arrivals: Arrivals, ops: seq<Op>): Arrivals
    decreases |ops|
  {
    if ops == [] then arrivals else RunArrivals(After(arrivals, ops[0]), ops[1..])
  }

  /** The nodes in key order are the threads as they would be picked. */
  ghost predicate TreeInv(tree: Tree, arrivals: Arrivals) {
    && DistinctThreads(arrivals) && Strip(tree.nodes) == Queue(arrivals)
    && Keyed(tree.nodes) && KeysBelow(tree.nodes, KEYS) && tree.next < KEYS
  }

  lemma {:induction false} InsertBelow(q: seq<Node>, w: Node, bound: nat, bound': nat)
    requires KeysBelow(q, bound) && w.desc < bound' && bound <= bound'
    ensures KeysBelow(TreeInsert(q, w), bound')
  {
    if q == [] {
      assert TreeInsert(q, w)[1..] == [];
    } else if Less(w, q[0]) {
      assert TreeInsert(q, w)[1..] == q;
      WeakerBound(q, bound, bound');
    } else {
      InsertBelow(q[1..], w, bound, bound');
      assert TreeInsert(q, w)[1..] == TreeInsert(q[1..], w);
    }
  }

  lemma {:induction false} WeakerBound(q: seq<Node>, bound: nat, bound': nat)
    requires KeysBelow(q, bound) && bound <= bound'
    ensures KeysBelow(q, bound')
  {
    if q != [] {
      WeakerBound(q[1..], bound, bound');
    }
  }

  lemma {:induction false} UnpendTree(q: seq<Node>, tid: ThreadId, bound: nat)
    requires Keyed(q) && KeysBelow(q, bound)
    ensures Keyed(Unpend(q, tid)) && KeysBelow(Unpend(q, tid), bound)
    ensures Strip(Unpend(q, tid)) == Unpend(Strip(q), tid)
    ensures q != [] && Unpend(q, tid) != [] ==> !Less(Unpend(q, tid)[0], q[0])
  {
    if q != [] {
      assert Strip(q)[1..] == Strip(q[1..]);
      if q[0].tid != tid {
        UnpendTree(q[1..], tid, bound);
        assert Unpend(q, tid)[1..] == Unpend(q[1..], tid);
      }
    }
  }

  /** One add keeps arrival order exactly when no queued thread of the same
      priority was left with a key above next_order_key by an earlier wrap. */
  lemma TreeAddExact(tree: Tree, t: Thread)
    requires Keyed(tree.nodes) && KeysBelow(tree.nodes, KEYS) && t.tid !in Tids(tree.nodes)
    requires tree.next < KEYS && |tree.nodes| < KEYS
    ensures Strip(TreeAdd(tree, t).nodes) == Pend(Strip(tree.nodes), t) <==> !Overtakes(tree.nodes, t.prio, tree.next)
    ensures Keyed(TreeAdd(tree, t).nodes) && KeysBelow(TreeAdd(tree, t).nodes, KEYS)
  {
    hide Keyed, KeysBelow, Overtakes, TreeInsert, Pend, Strip, Tids;
    var w: Node := Waiter(t.tid, t.prio, tree.next);
    Plain(t);
    if tree.next + 1 < KEYS {
      InsertExact(tree.nodes, w);
      TreeInsertKeyed(tree.nodes, w);
      InsertBelow(tree.nodes, w, KEYS, KEYS);
    } else {
      var renumbered := Renumber(tree.nodes, 0);
      RenumberKeyed(tree.nodes, 0);
      StripTids(tree.nodes);
      StripTids(renumbered);
      NoneAbove(tree.nodes, KEYS, t.prio, tree.next);
      NoneAbove(renumbered, |tree.nodes|, t.prio, tree.next);
      InsertExact(renumbered, w);
      TreeInsertKeyed(renumbered, w);
      InsertBelow(renumbered, w, |tree.nodes|, KEYS);
    }
  }

  ghost predicate InTurn(tree: Tree, op: Op) {
    op.Add? ==> !Overtakes(tree.nodes, op.thread.prio, tree.next)
  }

  /** No thread is ever added while one of its priority holds a larger key. */
  ghost predicate NoOvertaking(tree: Tree, ops: seq<Op>)
    decreases |ops|
  {
    ops == [] || (InTurn(tree, ops[0]) && NoOvertaking(TreeAfter(tree, ops[0]), ops[1..]))
  }

  /** There are never as many threads as keys. */
  ghost predicate Few(arrivals: Arrivals, ops: seq<Op>)
    decreases |ops|
  {
    |arrivals| < KEYS && (ops != [] ==> Few(After(arrivals, ops[0]), ops[1..]))
  }

  /** After every call the nodes in key order are the threads as they should be picked. */
  ghost predicate InOrder(tree: Tree, arrivals: Arrivals, ops: seq<Op>)
    decreases |ops|
  {
    && Strip(tree.nodes) == Queue(arrivals)
    && (ops != [] ==> InOrder(TreeAfter(tree, ops[0]), After(arrivals, ops[0]), ops[1..]))
  }

  lemma SameSize(tree: Tree, arrivals: Arrivals)
    requires TreeInv(tree, arrivals)
    ensures |tree.nodes| == |arrivals| && tree.next < KEYS
  {
  }

  lemma TreeStep(tree: Tree, arrivals: Arrivals, op: Op)
    requires TreeInv(tree, arrivals) && Legal(arrivals, op) && |arrivals| < KEYS
    ensures Strip(TreeAfter(tree, op).nodes) == Queue(After(arrivals, op)) <==> InTurn(tree, op)
    ensures InTurn(tree, op) ==> TreeInv(TreeAfter(tree, op), After(arrivals, op))
  {
    hide Keyed, KeysBelow, Overtakes, TreeInsert, Pend, Unpend, Strip, Tids, Queue, DistinctThreads;
    SameSize(tree, arrivals);
    LegalDistinct(arrivals, op);
    QueueSorted(arrivals);
    StripTids(tree.nodes);
    match op
    case Add(t) =>
      QueueAdd(arrivals, t);
      TreeAddExact(tree, t);
    case Remove(t) =>
      UnpendTree(tree.nodes, t.tid, KEYS);
      QueueRemove(arrivals, t.tid);
  }

  /** Through every run, of any length and with any number of wraps, the tree is in
      order after each call exactly when no add overtakes. */
  lemma {:induction false} TreeRun(tree: Tree, arrivals: Arrivals, ops: seq<Op>)
    requires TreeInv(tree, arrivals) && LegalRun(arrivals, ops) && Few(arrivals, ops)
    ensures InOrder(tree, arrivals, ops) <==> NoOvertaking(tree, ops)
    ensures NoOvertaking(tree, ops) ==> TreeInv(RunTree(tree, ops), RunArrivals(arrivals, ops))
    decreases |ops|
  {
    if ops != [] {
      TreeStep(tree, arrivals, ops[0]);
      if InTurn(tree, ops[0]) {
        hide TreeInv;
        TreeRun(TreeAfter(tree, ops[0]), After(arrivals, ops[0]), ops[1..]);
      }
    }
  }

  /** The key counter does not run out: it starts again whenever the queue empties. */
  ghost predicate NoWrap(tree: Tree, ops: seq<Op>)
    decreases |ops|
  {
    ops == [] || ((ops[0].Add? ==> tree.next + 1 < KEYS) && NoWrap(TreeAfter(tree, ops[0]), ops[1..]))
  }

  /** While the counter does not run out nothing overtakes, so the tree stays in order. */
  lemma {:induction false} NoWrapNoOvertaking(tree: Tree, ops: seq<Op>)
    requires Keyed(tree.nodes) && KeysBelow(tree.nodes, tree.next) && NoWrap(tree, ops)
    ensures NoOvertaking(tree, ops)
    decreases |ops|
  {
    hide Keyed, KeysBelow, Overtakes, TreeInsert, Unpend, Strip;
    if ops != [] {
      match ops[0] {
        case Add(t) =>
          var w: Node := Waiter(t.tid, t.prio, tree.next);
          NoneAbove(tree.nodes, tree.next, t.prio, tree.next);
          TreeInsertKeyed(tree.nodes, w);
          InsertBelow(tree.nodes, w, tree.next, tree.next + 1);
        case Remove(t) =>
          UnpendTree(tree.nodes, t.tid, tree.next);
          NoKeys(0);
      }
      NoWrapNoOvertaking(TreeAfter(tree, ops[0]), ops[1..]);
    }
  }

  lemma NoKeys(bound: nat)
    ensures KeysBelow([], bound)
  {
  }

  // ---------------------------------------------------------------- what a wrap does

  function Churn(k: nat): seq<Op> {
    if k == 0 then [] else [Add(Waiter(1, 0, ())), Remove(Waiter(1, 0, ()))] + Churn(k - 1)
  }

  lemma {:induction false} Churning(n: nat, k: nat)
    requires n + k < KEYS
    ensures RunTree(Tree([Waiter(0, 0, 0)], n), Churn(k)) == Tree([Waiter(0, 0, 0)], n + k)
    ensures RunArrivals([Waiter(0, 0, ())], Churn(k)) == [Waiter(0, 0, ())]
    ensures LegalRun([Waiter(0, 0, ())], Churn(k))
    decreases k
  {
    if k > 0 {
      Round(n);
      Churning(n + 1, k - 1);
      var ops := Churn(k);
      assert ops[1..][1..] == Churn(k - 1);
      assert ops[0] == Add(Waiter(1, 0, ())) && ops[1..][0] == Remove(Waiter(1, 0, ()));
    }
  }

  lemma Round(n: nat)
    requires n + 1 < KEYS
    ensures var x: Node, y: Node := Waiter(0, 0, 0), Waiter(1, 0, n);
            && TreeAdd(Tree([x], n), Waiter(1, 0, ())) == Tree([x, y], n + 1)
            && TreeRemove(Tree([x, y], n + 1), 1) == Tree([x], n + 1)
    ensures var x: Thread, y: Thread := Waiter(0, 0, ()), Waiter(1, 0, ());
            && Legal([x], Add(y)) && Legal([x, y], Remove(y)) && After([x], Add(y)) == [x, y]
            && After([x, y], Remove(y)) == [x]
  {
    InsertSecond(Waiter(0, 0, 0), Waiter(1, 0, n));
    RemoveSecond<nat>(Waiter(0, 0, 0), Waiter(1, 0, n));
    RemoveSecond<()>(Waiter(0, 0, ()), Waiter(1, 0, ()));
  }

  lemma InsertSecond(x: Node, y: Node)
    requires !Less(y, x)
    ensures TreeInsert([x], y) == [x, y]
  {
    assert [x][1..] == [];
    assert TreeInsert([], y) == [y];
    assert TreeInsert([x], y) == [x] + TreeInsert([], y);
  }

  lemma RemoveSecond<D(!new)>(x: Waiter<D>, y: Waiter<D>)
    requires x.tid != y.tid
    ensures Unpend([x, y], y.tid) == [x] && Tids([x]) == {x.tid} && Tids([x, y]) == {x.tid, y.tid}
  {
    assert [x, y][1..] == [y] && [y][1..] == [] && [x][1..] == [];
    assert Unpend([y], y.tid) == [];
    assert Tids([y]) == {y.tid};
    assert Unpend([x, y], y.tid) == [x] + Unpend([y], y.tid);
  }

  lemma {:induction false} RunAppend(tree: Tree, arrivals: Arrivals, ops: seq<Op>, more: seq<Op>)
    ensures RunTree(tree, ops + more) == RunTree(RunTree(tree, ops), more)
    ensures RunArrivals(arrivals, ops + more) == RunArrivals(RunArrivals(arrivals, ops), more)
    ensures LegalRun(arrivals, ops) && LegalRun(RunArrivals(arrivals, ops), more) ==> LegalRun(arrivals, ops + more)
    decreases |ops|
  {
    if ops == [] {
      assert ops + more == more;
    } else {
      assert (ops + more)[0] == ops[0] && (ops + more)[1..] == ops[1..] + more;
      RunAppend(TreeAfter(tree, ops[0]), After(arrivals, ops[0]), ops[1..], more);
    }
  }

  /** The thread added when the keys wrap keeps the largest key of all, and a
      thread of its priority added after it is picked before it. */
  lemma WrapOvertakes() returns (ops: seq<Op>)
    ensures LegalRun([], ops)
    ensures RunArrivals([], ops) == [Waiter(0, 0, ()), Waiter(2, 0, ()), Waiter(3, 0, ())]
    ensures Strip(RunTree(Tree([], 0), ops).nodes) == [Waiter(0, 0, ()), Waiter(3, 0, ()), Waiter(2, 0, ())]
  {
    hide RunTree, RunArrivals, LegalRun, Churn, Strip;
    var first, last := [Add(Waiter(0, 0, ()))], [Add(Waiter(2, 0, ())), Add(Waiter(3, 0, ()))];
    ops := first + (Churn(KEYS - 2) + last);
    Starting();
    Churning(1, KEYS - 2);
    Ending();
    RunAppend(Tree([Waiter(0, 0, 0)], 1), [Waiter(0, 0, ())], Churn(KEYS - 2), last);
    RunAppend(Tree([], 0), [], first, Churn(KEYS - 2) + last);
  }

  lemma Starting()
    ensures var ops := [Add(Waiter(0, 0, ()))];
            && RunTree(Tree([], 0), ops) == Tree([Waiter(0, 0, 0)], 1)
            && RunArrivals([], ops) == [Waiter(0, 0, ())] && LegalRun([], ops)
  {
    var ops := [Add(Waiter(0, 0, ()))];
    var none: Arrivals := [];
    assert ops[1..] == [];
    assert none + [Waiter(0, 0, ())] == [Waiter(0, 0, ())];
    assert TreeAfter(Tree([], 0), ops[0]) == Tree([Waiter(0, 0, 0)], 1);
  }

  lemma Ending()
    ensures var ops := [Add(Waiter(2, 0, ())), Add(Waiter(3, 0, ()))];
            var x: Thread, a: Thread, b: Thread := Waiter(0, 0, ()), Waiter(2, 0, ()), Waiter(3, 0, ());
            && Strip(RunTree(Tree([Waiter(0, 0, 0)], KEYS - 1), ops).nodes) == [x, b, a]
            && RunArrivals([x], ops) == [x, a, b] && LegalRun([x], ops)
  {
    var a: Thread, b: Thread := Waiter(2, 0, ()), Waiter(3, 0, ());
    var ops := [Add(a), Add(b)];
    assert ops[1..] == [Add(b)] && [Add(b)][1..] == [];
    EndingTree();
    EndingArrivals();
    var tree := Tree([Waiter(0, 0, 0)], KEYS - 1);
    assert RunTree(tree, ops) == RunTree(TreeAdd(tree, a), [Add(b)]);
    assert RunTree(TreeAdd(tree, a), [Add(b)]) == TreeAdd(TreeAdd(tree, a), b);
  }

  lemma EndingTree()
    ensures var x: Node, a: Node, b: Node := Waiter(0, 0, 0), Waiter(2, 0, KEYS - 1), Waiter(3, 0, 1);
            && TreeAdd(Tree([x], KEYS - 1), Waiter(2, 0, ())) == Tree([x, a], 1)
            && TreeAdd(Tree([x, a], 1), Waiter(3, 0, ())) == Tree([x, b, a], 2)
            && Strip([x, b, a]) == [Waiter(0, 0, ()), Waiter(3, 0, ()), Waiter(2, 0, ())]
  {
    var x: Node, a: Node, b: Node := Waiter(0, 0, 0), Waiter(2, 0, KEYS - 1), Waiter(3, 0, 1);
    assert [x][1..] == [] && [x, a][1..] == [a] && [x, b, a][1..] == [b, a] && [b, a][1..] == [a] && [a][1..] == [];
    assert Renumber([x], 0) == [x];
    InsertSecond(x, a);
    assert TreeInsert([a], b) == [b, a];
    assert TreeInsert([x, a], b) == [x] + TreeInsert([a], b);
    assert Strip([a]) == [Waiter(2, 0, ())];
    assert Strip([b, a]) == [Waiter(3, 0, ())] + Strip([a]);
    assert Strip([x, b, a]) == [Waiter(0, 0, ())] + Strip([b, a]);
  }

  lemma EndingArrivals()
    ensures var x: Thread, a: Thread, b: Thread := Waiter(0, 0, ()), Waiter(2, 0, ()), Waiter(3, 0, ());
            && RunArrivals([x], [Add(a), Add(b)]) == [x, a, b] && LegalRun([x], [Add(a), Add(b)])
  {
    var x: Thread, a: Thread, b: Thread := Waiter(0, 0, ()), Waiter(2, 0, ()), Waiter(3, 0, ());
    var ops := [Add(a), Add(b)];
    assert ops[1..] == [Add(b)] && [Add(b)][1..] == [];
    RemoveSecond(x, a);
    assert After([x], Add(a)) == [x, a] && After([x, a], Add(b)) == [x, a, b];
    assert LegalRun([x, a], [Add(b)]);
    assert RunArrivals([x, a], [Add(b)]) == [x, a, b];
  }

  // ---------------------------------------------------------------- the code of the tree, and all three at work

  /** The walk over the tree that gives every thread a new key. */
  method RenumberAll(nodes: seq<Node>) returns (r: seq<Node>, nextKey: nat)
    ensures r == Renumber(nodes, 0) && nextKey == |nodes|
  {
    r, nextKey := nodes, 0;
    assert r[..0] + Renumber(r[0..], 0) == Renumber(nodes, 0);
    for i := 0 to |nodes|
      invariant |r| == |nodes| && nextKey == i
      invariant r[..i] + Renumber(r[i..], i) == Renumber(nodes, 0)
    {
      RenumberOne(r, i);
      r := r[i := r[i].(desc := nextKey)];
      nextKey := nextKey + 1;
    }
    assert r[..|nodes|] + [] == r && r[|nodes|..] == [];
  }

  /** struct _priq_rb. */
  class TreeQueue {
    var nodes: seq<Node>
    var nextKey: nat

    ghost function View(): Tree reads this { Tree(nodes, nextKey) }

    constructor ()
      ensures View() == Tree([], 0)
    {
      nodes, nextKey := [], 0;
    }

    /** z_priq_rb_add. */
    method Add(t: Thread)
      requires nextKey < KEYS && |nodes| < KEYS
      modifies this
      ensures View() == TreeAdd(old(View()), t)
    {
      var key := nextKey;
      nextKey := (nextKey + 1) % KEYS;
      if nextKey == 0 {
        nodes, nextKey := RenumberAll(nodes);
      }
      nodes := TreeInsert(nodes, Waiter(t.tid, t.prio, key));
    }

    /** z_priq_rb_remove: the others keep their order, and an empty tree hands out key 0 next. */
    method Remove(t: Thread, ghost arrivals: Arrivals)
      requires TreeInv(View(), arrivals) && t in arrivals && |arrivals| < KEYS
      modifies this
      ensures TreeInv(View(), Unpend(arrivals, t.tid)) && View() == TreeRemove(old(View()), t.tid)
      ensures nextKey == if |arrivals| == 1 then 0 else old(nextKey)
    {
      SameSize(View(), arrivals);
      TreeStep(View(), arrivals, Op.Remove(t));
      TidsMember(arrivals, t);
      UnpendSize(arrivals, t.tid);
      SameSize(TreeRemove(View(), t.tid), Unpend(arrivals, t.tid));
      var tid := t.tid;
      nodes := Unpend(nodes, tid);
      if nodes == [] {
        nextKey := 0;
      }
    }

    /** z_priq_rb_best. */
    method Best(ghost arrivals: Arrivals) returns (best: Option<Thread>)
      requires TreeInv(View(), arrivals)
      ensures Picks(arrivals, best)
    {
      if nodes == [] {
        return None;
      }
      ghost var i := QueueHead(arrivals);
      best := Some(Waiter(nodes[0].tid, nodes[0].prio, ()));
    }
  }

  lemma {:induction false} UnpendSize(arrivals: Arrivals, tid: ThreadId)
    requires tid in Tids(arrivals)
    ensures |Unpend(arrivals, tid)| == |arrivals| - 1
  {
    if arrivals[0].tid != tid {
      UnpendSize(arrivals[1..], tid);
    }
  }

  lemma RenumberOne(nodes: seq<Node>, i: nat)
    requires i < |nodes|
    ensures var nodes' := nodes[i := nodes[i].(desc := i)];
            nodes[..i] + Renumber(nodes[i..], i) == nodes'[..i + 1] + Renumber(nodes'[i + 1..], i + 1)
  {
    var nodes' := nodes[i := nodes[i].(desc := i)];
    assert nodes[i..][1..] == nodes[i + 1..] == nodes'[i + 1..];
    assert nodes'[..i + 1] == nodes[..i] + [nodes[i].(desc := i)];
    Associative(nodes[..i], [nodes[i].(desc := i)], Renumber(nodes[i + 1..], i + 1));
  }

  ghost predicate PrioritiesInRange(ops: seq<Op>, highest: int) {
    forall op :: op in ops && op.Add? ==> highest <= op.thread.prio < highest + LEVELS
  }

  ghost predicate Agree(list: SortedList, levels: MultiQueue, tree: TreeQueue, arrivals: Arrivals)
    reads list, levels, levels.queues, tree
  {
    && list.Valid() && list.arrivals == arrivals
    && levels.Valid() && levels.arrivals == arrivals
    && TreeInv(tree.View(), arrivals)
  }

  method ApplyAdd(t: Thread, list: SortedList, levels: MultiQueue, tree: TreeQueue, ghost arrivals: Arrivals)
    requires Agree(list, levels, tree, arrivals) && t.tid !in Tids(arrivals) && |arrivals| < KEYS
    requires InTurn(tree.View(), Add(t)) && levels.highest <= t.prio < levels.highest + LEVELS
    modifies list, levels, levels.queues, tree
    ensures Agree(list, levels, tree, arrivals + [t]) && tree.View() == TreeAdd(old(tree.View()), t)
  {
    hide SortedList.Valid, MultiQueue.Valid, TreeInv, Tids, TreeAdd, InTurn;
    TreeStep(tree.View(), arrivals, Add(t));
    SameSize(tree.View(), arrivals);
    list.Add(t);
    levels.Add(t);
    tree.Add(t);
  }

  method ApplyRemove(t: Thread, list: SortedList, levels: MultiQueue, tree: TreeQueue, ghost arrivals: Arrivals)
    requires Agree(list, levels, tree, arrivals) && t in arrivals && |arrivals| < KEYS
    modifies list, levels, levels.queues, tree
    ensures Agree(list, levels, tree, Unpend(arrivals, t.tid)) && tree.View() == TreeRemove(old(tree.View()), t.tid)
  {
    hide SortedList.Valid, MultiQueue.Valid, TreeInv, Tids, Unpend, TreeRemove;
    TidsMember(arrivals, t);
    list.Remove(t.tid);
    levels.Remove(t);
    tree.Remove(t, arrivals);
  }

  /** One call made of all three back ends. */
  method Apply(op: Op, list: SortedList, levels: MultiQueue, tree: TreeQueue, ghost arrivals: Arrivals)
    requires Agree(list, levels, tree, arrivals) && Legal(arrivals, op) && |arrivals| < KEYS && InTurn(tree.View(), op)
    requires op.Add? ==> levels.highest <= op.thread.prio < levels.highest + LEVELS
    modifies list, levels, levels.queues, tree
    ensures Agree(list, levels, tree, After(arrivals, op)) && tree.View() == TreeAfter(old(tree.View()), op)
  {
    hide Agree, Tids, Unpend, TreeAdd, TreeRemove, InTurn;
    match op {
      case Add(t) => ApplyAdd(t, list, levels, tree, arrivals);
      case Remove(t) => ApplyRemove(t, list, levels, tree, arrivals);
    }
  }

  lemma PicksOne(arrivals: Arrivals, a: Option<Thread>, b: Option<Thread>)
    requires Picks(arrivals, a) && Picks(arrivals, b)
    ensures a == b
  {
    if a.Some? && b.Some? {
      var i: nat :| Earliest(arrivals, i) && arrivals[i] == a.value;
      var j: nat :| Earliest(arrivals, j) && arrivals[j] == b.value;
      assert i == j;
    }
  }

  lemma {:induction false} RunOne(arrivals: Arrivals, ops: seq<Op>, n: nat)
    requires n < |ops| && LegalRun(arrivals, ops)
    ensures RunArrivals(arrivals, ops[..n + 1]) == After(RunArrivals(arrivals, ops[..n]), ops[n])
    ensures LegalRun(RunArrivals(arrivals, ops[..n]), ops[n..]) && Legal(RunArrivals(arrivals, ops[..n]), ops[n])
    decreases n
  {
    if n == 0 {
      assert ops[..1] == [ops[0]] && [ops[0]][1..] == [] && ops[..0] == [] && ops[0..] == ops;
    } else {
      RunOne(After(arrivals, ops[0]), ops[1..], n - 1);
      assert ops[..n + 1][1..] == ops[1..][..n] && ops[..n][1..] == ops[1..][..n - 1] && ops[n..] == ops[1..][n - 1..];
    }
  }

  /** All three back ends driven through the same calls pick the same thread
      after each of them: the earliest of the highest priority. */
  method Drive(ops: seq<Op>, highest: int)
    returns (fromList: seq<Option<Thread>>, fromLevels: seq<Option<Thread>>, fromTree: seq<Option<Thread>>)
    requires LegalRun([], ops) && Few([], ops) && NoOvertaking(Tree([], 0), ops) && PrioritiesInRange(ops, highest)
    ensures fromList == fromLevels == fromTree && |fromList| == |ops|
    ensures forall k :: 0 <= k < |ops| ==> Picks(RunArrivals([], ops[..k + 1]), fromList[k])
  {
    hide SortedList.Valid, MultiQueue.Valid, TreeInv, LegalRun, RunArrivals, Picks, After, Legal, Overtakes, TreeAfter;
    var list := new SortedList();
    var levels := new MultiQueue(highest);
    var tree := new TreeQueue();
    ghost var arrivals: Arrivals := [];
    fromList, fromLevels, fromTree := [], [], [];
    Begin(ops);
    for n := 0 to |ops|
      invariant Agree(list, levels, tree, arrivals) && arrivals == RunArrivals([], ops[..n])
      invariant Few(arrivals, ops[n..]) && NoOvertaking(tree.View(), ops[n..]) && levels.highest == highest
      invariant fresh(list) && fresh(levels) && fresh(levels.queues) && fresh(tree)
      invariant fromList == fromLevels == fromTree && |fromList| == n
      invariant forall k :: 0 <= k < n ==> Picks(RunArrivals([], ops[..k + 1]), fromList[k])
    {
      RunOne([], ops, n);
      assert ops[n..][0] == ops[n] && ops[n..][1..] == ops[n + 1..];
      Apply(ops[n], list, levels, tree, arrivals);
      arrivals := After(arrivals, ops[n]);
      var a := list.Best();
      var b := levels.Best();
      var c := tree.Best(arrivals);
      PicksOne(arrivals, a, b);
      PicksOne(arrivals, a, c);
      fromList, fromLevels, fromTree := fromList + [a], fromLevels + [b], fromTree + [c];
    }
  }

  lemma Begin(ops: seq<Op>)
    ensures TreeInv(Tree([], 0), []) && RunArrivals([], ops[..0]) == [] && ops[0..] == ops
  {
    assert ops[..0] == [];
  }
}
