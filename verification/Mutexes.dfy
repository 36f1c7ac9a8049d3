/**
 Priority inheritance (kernel/mutex.c) on top of the scheduler.  The promise is
 that a thread runs at the best of its own priority and the priorities, up to
 the ceiling, of the first waiters for all the mutexes it owns.  What the code
 does is less: a mutex boosts its owner when a waiter comes, and restores the
 one priority it remembers when the waiter or the owner goes.  Each call has a
 lemma that says exactly when it keeps the promise.
 */
module Mutexes {
  import opened Lists
  import opened Scheduler
  import opened Wrappers

  const EBUSY := 16
  const EINVAL := 22
  const EPERM := 1

  /** A mutex is named by its wait queue. */
  datatype Mutex = Mutex(owner: Option<ThreadId>, lockCount: nat, origPrio: int)

  /** held and base are history: the mutexes a thread owns in the order in which
      it took them, and its priority when it owns none. */
  datatype Sys = Sys(
    s: Sched,
    mutexes: map<QueueId, Mutex>,
    held: map<ThreadId, seq<QueueId>>,
    base: map<ThreadId, int>,
    ceiling: int)  // CONFIG_PRIORITY_CEILING

  function Prio(x: Sys, t: ThreadId): int { T(x.s, t).prio }

  function Held(x: Sys, t: ThreadId): seq<QueueId> { if t in x.held then x.held[t] else [] }

  function Base(x: Sys, t: ThreadId): int { if t in x.base then x.base[t] else NOBODY.prio }

  function Mx(x: Sys, m: QueueId): Mutex { if m in x.mutexes then x.mutexes[m] else Mutex(None, 0, 0) }

  function Waiters(x: Sys, m: QueueId): seq<ThreadId> { WaitQ(x.s, m) }

  // ---------------------------------------------------------------- the code

  function Min(a: int, b: int): int { if a < b then a else b }

  /** z_get_new_prio_with_ceiling. */
  function Ceil(prio: int, ceiling: int): int { if prio >= ceiling then prio else ceiling }

  function NewPrioForInheritance(target: int, limit: int, ceiling: int): int { Ceil(Min(target, limit), ceiling) }

  /** adjust_owner_prio. */
  function Adjust(s: Sched, owner: ThreadId, prio: int): Sched {
    if T(s, owner).prio != prio then SetPrio(s, owner, prio) else s
  }

  /** k_mutex_lock by the current thread, up to the point where it returns or waits. */
  function Lock(x: Sys, m: QueueId, timed: bool, noWait: bool): (Sys, Option<int>)
    requires Mx(x, m).lockCount != 0 ==> Mx(x, m).owner.Some?
  {
    var t, mutex := x.s.current, Mx(x, m);
    if mutex.lockCount == 0 || mutex.owner == Some(t) then
      (x.(mutexes := x.mutexes[m := Mutex(Some(t), mutex.lockCount + 1,
                                          if mutex.lockCount == 0 then Prio(x, t) else mutex.origPrio)],
          held := if mutex.lockCount == 0 then x.held[t := Held(x, t) + [m]] else x.held),
       Some(0))
    else if noWait then (x, Some(-EBUSY))
    else
      var owner := mutex.owner.value;
      var boosted := NewPrioForInheritance(Prio(x, t), Prio(x, owner), x.ceiling);
      var s1 := if boosted < Prio(x, owner) then Adjust(x.s, owner, boosted) else x.s;
      (x.(s := Pend(s1, t, Some(m), timed)), None)
  }

  /** A waiter's timeout: it leaves the queue, and has yet to clean up. */
  function Expired(x: Sys, t: ThreadId): Sys { x.(s := Expire(x.s, t)) }

  /** What k_mutex_lock does in that thread when it runs again; the code takes it that there is an owner. */
  function CleanUp(x: Sys, m: QueueId): Sys
    requires Mx(x, m).owner.Some?
  {
    x.(s := Adjust(x.s, Mx(x, m).owner.value, Restored(x.s, m, Mx(x, m).origPrio, x.ceiling)))
  }

  /** Both at once. */
  function TimedOut(x: Sys, t: ThreadId, m: QueueId): Sys
    requires Mx(x, m).owner.Some?
  {
    CleanUp(Expired(x, t), m)
  }

  /** The owner's priority as the clean-up after a timeout computes it. */
  function Restored(s: Sched, m: QueueId, orig: int, ceiling: int): int {
    if WaitQ(s, m) == [] then orig else NewPrioForInheritance(T(s, WaitQ(s, m)[0]).prio, orig, ceiling)
  }

  /** k_mutex_unlock by the current thread. */
  function Unlock(x: Sys, m: QueueId): (Sys, int) {
    var t, mutex := x.s.current, Mx(x, m);
    if mutex.owner.None? then (x, -EINVAL)
    else if mutex.owner.value != t then (x, -EPERM)
    else if mutex.lockCount > 1 then (x.(mutexes := x.mutexes[m := mutex.(lockCount := mutex.lockCount - 1)]), 0)
    else
      var s1 := Adjust(x.s, t, mutex.origPrio);
      var x1 := x.(s := s1, held := x.held[t := Remove(Held(x, t), m)]);
      if WaitQ(s1, m) == [] || T(s1, WaitQ(s1, m)[0]).pendedOn.None? then
        (x1.(mutexes := x.mutexes[m := mutex.(owner := None, lockCount := 0)]), 0)
      else
        var w := WaitQ(s1, m)[0];
        (x.(s := Wake(s1, w),
            mutexes := x.mutexes[m := mutex.(owner := Some(w), origPrio := T(s1, w).prio)],
            held := x1.held[w := Held(x1, w) + [m]]),
         0)
  }

  // ---------------------------------------------------------------- priorities and wait queues

  lemma SetPrioEffect(s: Sched, t: ThreadId, prio: int)
    ensures var s' := SetPrio(s, t, prio);
            && s'.waitqs == s.waitqs && s'.current == s.current && s'.idle == s.idle
            && T(s', t) == T(s, t).(prio := prio)
            && forall u :: u != t ==> T(s', u) == T(s, u)
  {
    hide Insert, Remove, UpdateCache;
    if Ready(T(s, t)) {
      var s1 := s.(runq := Remove(s.runq, t));
      var s2 := Set(s1, t, T(s1, t).(prio := prio));
      UpdateFrame(s2.(runq := Insert(s2, s2.runq, t)), true);
    }
  }

  lemma AdjustEffect(s: Sched, t: ThreadId, prio: int)
    requires Placement(s) && t != s.idle
    ensures var s' := Adjust(s, t, prio);
            && Placement(s') && s'.waitqs == s.waitqs && s'.current == s.current && s'.idle == s.idle
            && T(s', t) == T(s, t).(prio := prio)
            && forall u :: u != t ==> T(s', u) == T(s, u)
  {
    hide SetPrio, Placement;
    SetPrioEffect(s, t, prio);
    SetPrioPlaces(s, t, prio);
  }

  lemma UnreadyEffect(s: Sched, t: ThreadId)
    ensures var s' := UnreadyThread(s, t);
            && s'.waitqs == s.waitqs && s'.idle == s.idle && s'.current == s.current
            && T(s', t) == T(s, t).(queued := false) && forall u :: u != t ==> T(s', u) == T(s, u)
  {
    hide Remove, UpdateCache;
    UpdateFrame(RemoveIfQueued(s, t), t == s.current);
  }

  lemma PendEffect(s: Sched, m: QueueId, timed: bool)
    ensures var s' := Pend(s, s.current, Some(m), timed);
            && s'.waitqs == s.waitqs[m := Insert(s, WaitQ(s, m), s.current)] && s'.idle == s.idle
            && T(s', s.current).prio == T(s, s.current).prio && T(s', s.current).pendedOn == Some(m)
            && forall u :: u != s.current ==> T(s', u) == T(s, u)
  {
    var t := s.current;
    UnreadyEffect(s, t);
    var s1 := UnreadyThread(s, t);
    var s2 := Set(s1, t, T(s1, t).(pending := true));
    SetEffect(s1, t, T(s1, t).(pending := true));
    InsertFrame(s, s2, WaitQ(s, m), t);
    hide Insert, UnreadyThread;
    var b := T(s2, t).(pendedOn := Some(m));
    SetEffect(s2, t, b);
    var s3 := WaitAdd(s2, t, m);
    SetEffect(s3, t, T(s3, t).(timeout := true));
    hide Set, T;
  }

  lemma SetEffect(s: Sched, t: ThreadId, b: Tcb)
    ensures var s' := Set(s, t, b);
            T(s', t) == b && (forall u :: u != t ==> T(s', u) == T(s, u)) && s' == s.(tcbs := s'.tcbs)
  {
  }

  /** Leaving a wait queue, woken or timed out. */
  ghost predicate Leaves(s: Sched, s': Sched, t: ThreadId) {
    && T(s, t).pendedOn.Some? && s'.idle == s.idle && s'.current == s.current
    && s'.waitqs == s.waitqs[T(s, t).pendedOn.value := Remove(WaitQ(s, T(s, t).pendedOn.value), t)]
    && SamePrio(s, s') && T(s', t).pendedOn == None
    && forall u :: u != t ==> T(s', u) == T(s, u)
  }

  lemma ReadyEffect(s: Sched, t: ThreadId)
    ensures var s' := ReadyThread(s, t);
            && s'.waitqs == s.waitqs && s'.idle == s.idle && s'.current == s.current
            && T(s', t).prio == T(s, t).prio && T(s', t).pendedOn == T(s, t).pendedOn
            && forall u :: u != t ==> T(s', u) == T(s, u)
  {
    hide Insert, UpdateCache;
    if Ready(T(s, t)) {
      UpdateFrame(RunAdd(s, t), false);
    }
  }

  lemma WakeEffect(s: Sched, t: ThreadId)
    requires T(s, t).pendedOn.Some?
    ensures Leaves(s, Wake(s, t), t)
  {
    hide Remove, ReadyThread;
    var s1 := WaitRemove(s, t);
    ReadyEffect(Set(s1, t, T(s1, t).(timeout := false)), t);
  }

  lemma ExpireEffect(s: Sched, t: ThreadId)
    requires T(s, t).pendedOn.Some?
    ensures Leaves(s, Expire(s, t), t)
  {
    hide Remove, ReadyThread;
    var s0 := Set(s, t, T(s, t).(timeout := false));
    var s1 := WaitRemove(s0, t);
    assert WaitQ(s0, T(s, t).pendedOn.value) == WaitQ(s, T(s, t).pendedOn.value);
    ReadyEffect(Set(s1, t, T(s1, t).(prestart := false, suspended := false)), t);
  }

  // ---------------------------------------------------------------- the promise

  /** What the waiters q ask for. */
  function BoostOf(x: Sys, q: seq<ThreadId>): Option<int> {
    if q == [] then None else Some(Ceil(Prio(x, q[0]), x.ceiling))
  }

  function Boost(x: Sys, m: QueueId): Option<int> { BoostOf(x, Waiters(x, m)) }

  function Raised(prio: int, boost: Option<int>): int { if boost.None? then prio else Min(prio, boost.value) }

  /** The best of base and what the waiters for the mutexes ms ask for. */
  function Wanted(x: Sys, ms: seq<QueueId>, base: int): int {
    if ms == [] then base else Raised(Wanted(x, ms[..|ms| - 1], base), Boost(x, ms[|ms| - 1]))
  }

  /** The priority a thread is to have, ... */
  function Level(x: Sys, t: ThreadId): int { Wanted(x, Held(x, t), Base(x, t)) }

  /** ... and what it would be without one of its mutexes. */
  function LevelWithout(x: Sys, t: ThreadId, m: QueueId): int { Wanted(x, Remove(Held(x, t), m), Base(x, t)) }

  function Owns(x: Sys, t: ThreadId, m: QueueId): nat {
    if m in x.mutexes && x.mutexes[m].owner == Some(t) then 1 else 0
  }

  ghost predicate Ownership(x: Sys) {
    && (forall m :: m in x.mutexes ==> (x.mutexes[m].owner.None? <==> x.mutexes[m].lockCount == 0))
    && (forall m :: m in x.mutexes && x.mutexes[m].owner.None? ==> Waiters(x, m) == [])
    && (forall m :: m in x.mutexes ==> x.mutexes[m].owner != Some(x.s.idle))
    && (forall t: ThreadId, m: QueueId :: Count(Held(x, t), m) == Owns(x, t, m))
  }

  /** What every call keeps, whatever becomes of priorities. */
  ghost predicate Books(x: Sys) { Placement(x.s) && Ownership(x) }

  ghost predicate Ordered(x: Sys) {
    forall m :: m in x.mutexes ==> Sorted(x.s, Waiters(x, m))
  }

  ghost predicate Levels(x: Sys) { forall t :: Prio(x, t) == Level(x, t) }

  /** Every thread has the priority it is to have, and first waiters are best waiters. */
  ghost predicate Right(x: Sys) { Books(x) && Ordered(x) && Levels(x) }

  predicate Top(x: Sys, t: ThreadId, m: QueueId) {
    Held(x, t) != [] && Held(x, t)[|Held(x, t)| - 1] == m
  }

  /** The thread is not waiting for a mutex. */
  predicate Unblocked(x: Sys, t: ThreadId) { T(x.s, t).pendedOn.Some? ==> T(x.s, t).pendedOn.value !in x.mutexes }

  /** No thread waits for a mutex it owns. */
  ghost predicate NoSelfWait(x: Sys) {
    forall m :: m in x.mutexes && x.mutexes[m].owner.Some? ==> T(x.s, x.mutexes[m].owner.value).pendedOn != Some(m)
  }

  /** The priority lies between those of o's neighbours in q. */
  predicate FitsIn(s: Sched, q: seq<ThreadId>, o: ThreadId, prio: int) {
    forall i :: 0 <= i < |q| && q[i] == o ==>
      (i > 0 ==> T(s, q[i - 1]).prio <= prio) && (i + 1 < |q| ==> prio <= T(s, q[i + 1]).prio)
  }

  predicate WaitsFor(x: Sys, o: ThreadId, n: QueueId) { n in x.mutexes && T(x.s, o).pendedOn == Some(n) }

  /** If o itself waits for a mutex, giving it this priority neither puts that
      queue out of order nor asks for another priority of the owner. */
  predicate Absorbs(x: Sys, o: ThreadId, prio: int) {
    !Unblocked(x, o) ==>
      var n := T(x.s, o).pendedOn.value;
      && FitsIn(x.s, Waiters(x, n), o, prio)
      && (Waiters(x, n) != [] && Waiters(x, n)[0] == o && Mx(x, n).owner.Some? ==>
            var p := Mx(x, n).owner.value; Prio(x, p) == Raised(LevelWithout(x, p, n), Some(Ceil(prio, x.ceiling))))
  }

  lemma HeldIs(x: Sys, t: ThreadId, m: QueueId)
    requires Ownership(x)
    ensures m in Held(x, t) <==> Owns(x, t, m) == 1
  {
    Member(Held(x, t), m);
    assert Count(Held(x, t), m) == Owns(x, t, m);
  }

  lemma HeldOnce(x: Sys, o: ThreadId, m: QueueId)
    requires Ownership(x) && Mx(x, m).owner == Some(o)
    ensures Count(Held(x, o), m) == 1 && m in x.mutexes && m in Held(x, o)
  {
    assert Count(Held(x, o), m) == Owns(x, o, m);
    Member(Held(x, o), m);
    hide Count, Held;
  }

  lemma WaiterHasOwner(x: Sys, t: ThreadId, m: QueueId)
    requires Books(x) && WaitsFor(x, t, m)
    ensures x.mutexes[m].owner.Some?
  {
    assert Count(WaitQ(x.s, m), t) == One(T(x.s, t).pendedOn == Some(m));
    hide Sorted;
  }

  /** The owner of a mutex is not idle and not among its waiters. */
  lemma OwnerFacts(x: Sys, m: QueueId, o: ThreadId)
    requires Books(x) && NoSelfWait(x) && m in x.mutexes && x.mutexes[m].owner == Some(o)
    ensures o != x.s.idle && x.mutexes[m].lockCount != 0 && Count(WaitQ(x.s, m), o) == 0 && !WaitsFor(x, o, m)
  {
    assert Count(WaitQ(x.s, m), o) == One(T(x.s, o).pendedOn == Some(m));
    hide Count, Sorted;
  }

  lemma OwnershipFrom(x: Sys)
    requires forall m :: m in x.mutexes ==> (x.mutexes[m].owner.None? <==> x.mutexes[m].lockCount == 0)
    requires forall m :: m in x.mutexes && x.mutexes[m].owner.None? ==> Waiters(x, m) == []
    requires forall m :: m in x.mutexes ==> x.mutexes[m].owner != Some(x.s.idle)
    requires forall t: ThreadId, m: QueueId :: Count(Held(x, t), m) == Owns(x, t, m)
    ensures Ownership(x)
  {
  }

  /** A thread at the head of a wait queue is pended on it. */
  lemma HeadIsPended(x: Sys, m: QueueId)
    requires Placement(x.s) && Waiters(x, m) != []
    ensures T(x.s, Waiters(x, m)[0]).pendedOn == Some(m)
  {
    CountAt(Waiters(x, m), 0);
    hide Sorted;
  }

  // ---------------------------------------------------------------- what the boosts make of a priority

  lemma {:induction false} WantedFrame(x: Sys, x': Sys, ms: seq<QueueId>, base: int)
    requires forall m :: m in ms ==> Boost(x', m) == Boost(x, m)
    ensures Wanted(x', ms, base) == Wanted(x, ms, base)
  {
    if ms != [] {
      hide Boost;
      assert forall m :: m in ms[..|ms| - 1] ==> m in ms;
      WantedFrame(x, x', ms[..|ms| - 1], base);
    }
  }

  lemma {:induction false} RemoveLast(ms: seq<QueueId>, m: QueueId)
    requires ms != [] && ms[|ms| - 1] == m && Count(ms, m) == 1
    ensures Remove(ms, m) == ms[..|ms| - 1]
  {
    if |ms| > 1 {
      CountAt(ms[1..], |ms| - 2);
      assert ms[1..][|ms| - 2] == m;
      RemoveLast(ms[1..], m);
      assert ms[..|ms| - 1] == [ms[0]] + ms[1..][..|ms| - 2];
    }
  }

  lemma RemoveBelow(ms: seq<QueueId>, m: QueueId)
    requires ms != [] && ms[|ms| - 1] != m && Count(ms, m) == 1
    ensures var below := ms[..|ms| - 1]; Count(below, m) == 1 && Remove(ms, m) == Remove(below, m) + [ms[|ms| - 1]]
  {
    var below, top := ms[..|ms| - 1], ms[|ms| - 1];
    assert ms == below + [top];
    AppendCount(below, top, m);
    RemoveAppend(below, top, m);
  }

  lemma {:induction false} RemoveAppend(ms: seq<QueueId>, top: QueueId, m: QueueId)
    requires Count(ms, m) == 1
    ensures Remove(ms + [top], m) == Remove(ms, m) + [top]
  {
    assert (ms + [top])[1..] == ms[1..] + [top];
    if ms[0] != m {
      RemoveAppend(ms[1..], top, m);
    }
  }

  /** The order in which mutexes were taken does not matter: any of them can be counted last. */
  lemma {:induction false} WantedSplit(x: Sys, ms: seq<QueueId>, m: QueueId, base: int)
    requires Count(ms, m) == 1
    ensures Wanted(x, ms, base) == Raised(Wanted(x, Remove(ms, m), base), Boost(x, m))
    decreases |ms|
  {
    hide Boost;
    var below, top := ms[..|ms| - 1], ms[|ms| - 1];
    if top == m {
      RemoveLast(ms, m);
    } else {
      RemoveBelow(ms, m);
      WantedSplit(x, below, m, base);
      assert (Remove(below, m) + [top])[..|Remove(below, m)|] == Remove(below, m);
      hide Remove, Count;
    }
  }

  lemma {:induction false} RemoveMember(ms: seq<QueueId>, m: QueueId, n: QueueId)
    requires Count(ms, m) == 1
    ensures n in Remove(ms, m) <==> n in ms && n != m
  {
    RemoveCount(ms, m, n);
    Member(Remove(ms, m), n);
    Member(ms, n);
  }

  /** A thread whose mutexes, but for one, ask for what they did. */
  lemma LevelBut(x: Sys, x': Sys, t: ThreadId, m: QueueId)
    requires Held(x', t) == Held(x, t) && Base(x', t) == Base(x, t) && Count(Held(x, t), m) == 1
    requires forall n :: n in Held(x, t) && n != m ==> Boost(x', n) == Boost(x, n)
    ensures Level(x', t) == Raised(LevelWithout(x, t, m), Boost(x', m))
  {
    hide Boost, Count, Held, Base, Wanted, Remove, Raised;
    var ms := Held(x, t);
    WantedSplit(x', ms, m, Base(x, t));
    forall n | n in Remove(ms, m)
      ensures Boost(x', n) == Boost(x, n)
    {
      RemoveMember(ms, m, n);
    }
    WantedFrame(x, x', Remove(ms, m), Base(x, t));
  }

  lemma LevelSplit(x: Sys, t: ThreadId, m: QueueId)
    requires Ownership(x) && Mx(x, m).owner == Some(t)
    ensures Level(x, t) == Raised(LevelWithout(x, t, m), Boost(x, m))
  {
    HeldOnce(x, t, m);
    hide Ownership;
    LevelBut(x, x, t, m);
  }

  lemma LevelSame(x: Sys, x': Sys, t: ThreadId)
    requires Held(x', t) == Held(x, t) && Base(x', t) == Base(x, t)
    requires forall n :: n in Held(x, t) ==> Boost(x', n) == Boost(x, n)
    ensures Level(x', t) == Level(x, t)
  {
    hide Boost, Wanted, Held, Base;
    WantedFrame(x, x', Held(x, t), Base(x, t));
  }

  /** A mutex whose waiters stay, and none of whose waiters is the one thread that changes priority. */
  lemma BoostOther(x: Sys, x': Sys, o: ThreadId, n: QueueId)
    requires Placement(x.s) && T(x.s, o).pendedOn != Some(n) && Waiters(x', n) == Waiters(x, n)
    requires x'.ceiling == x.ceiling
    requires forall u :: u != o ==> Prio(x', u) == Prio(x, u)
    ensures Boost(x', n) == Boost(x, n)
  {
    if Waiters(x, n) != [] {
      HeadIsPended(x, n);
    }
    hide Placement;
  }

  /** Boosting on top of what there is. */
  lemma BoostArithmetic(rest: int, best: Option<int>, arriving: int, ceiling: int)
    ensures var prio := Raised(rest, if best.None? then None else Some(Ceil(best.value, ceiling)));
            var boosted := NewPrioForInheritance(arriving, prio, ceiling);
            (if boosted < prio then boosted else prio)
            == Raised(rest, Some(Ceil(if best.Some? && best.value <= arriving then best.value else arriving, ceiling)))
  {
  }

  lemma {:induction false} InsertHead(s: Sched, q: seq<ThreadId>, t: ThreadId)
    ensures Insert(s, q, t) != []
    ensures Insert(s, q, t)[0] == if q != [] && T(s, q[0]).prio <= T(s, t).prio then q[0] else t
  {
  }

  // ---------------------------------------------------------------- order in wait queues

  lemma {:induction false} SortedFromByPrio(s: Sched, s': Sched, q: seq<ThreadId>, prio: int, o: ThreadId)
    requires SortedFrom(s, q, prio) && Count(q, o) == 0 && forall u :: u != o ==> T(s', u).prio == T(s, u).prio
    ensures SortedFrom(s', q, prio)
  {
    if q != [] {
      SortedFromByPrio(s, s', q[1..], T(s, q[0]).prio, o);
    }
  }

  lemma SortedByPrio(s: Sched, s': Sched, q: seq<ThreadId>, o: ThreadId)
    requires Sorted(s, q) && Count(q, o) == 0 && forall u :: u != o ==> T(s', u).prio == T(s, u).prio
    ensures Sorted(s', q)
  {
    if q != [] {
      SortedStart(s, q, 0);
      SortedFromByPrio(s, s', q, T(s, q[0]).prio, o);
      SortedStart(s', q, T(s, q[0]).prio);
    }
  }

  lemma SortedByPrioOnly(s: Sched, s': Sched, q: seq<ThreadId>)
    requires Sorted(s, q) && SamePrio(s, s')
    ensures Sorted(s', q)
  {
    if q != [] {
      SortedStart(s, q, 0);
      SortedFromSame(s, s', q, T(s, q[0]).prio);
      SortedStart(s', q, T(s, q[0]).prio);
    }
  }

  lemma {:induction false} SortedFromSame(s: Sched, s': Sched, q: seq<ThreadId>, prio: int)
    requires SortedFrom(s, q, prio) && SamePrio(s, s')
    ensures SortedFrom(s', q, prio)
  {
    if q != [] {
      SortedFromSame(s, s', q[1..], T(s, q[0]).prio);
    }
  }

  lemma {:induction false} FitsInSorted(s: Sched, s': Sched, q: seq<ThreadId>, i: nat)
    requires i < |q| && Sorted(s, q) && Count(q, q[i]) == 1
    requires forall u :: u != q[i] ==> T(s', u).prio == T(s, u).prio
    ensures Sorted(s', q) <==> FitsIn(s, q, q[i], T(s', q[i]).prio)
  {
    var o := q[i];
    forall j | 0 <= j < |q| && j != i
      ensures q[j] != o
    {
      if j < i {
        if q[j] == o {
          OnlyOnce(q, j, i);
        }
      } else {
        OnlyOnce(q, i, j);
      }
    }
    hide Count, Sorted;
    SortedPairs(s, q);
    SortedPairs(s', q);
    FitsExact(s, s', q, i, T(s', o).prio);
  }

  lemma {:induction false} IndexIn(q: seq<ThreadId>, o: ThreadId) returns (i: nat)
    requires Count(q, o) == 1
    ensures i < |q| && q[i] == o
  {
    if q[0] == o {
      i := 0;
    } else {
      i := IndexIn(q[1..], o);
      i := i + 1;
    }
  }

  // ---------------------------------------------------------------- one thread changes priority

  /** Only o has another priority, or another base, and only the queue of m, which o owns, has other waiters. */
  ghost predicate Moved(x: Sys, x': Sys, o: ThreadId, m: Option<QueueId>) {
    && Books(x') && x'.mutexes == x.mutexes && x'.held == x.held && x'.ceiling == x.ceiling
    && (forall u :: u != o ==> Prio(x', u) == Prio(x, u) && Base(x', u) == Base(x, u))
    && (forall n: QueueId :: Some(n) != m ==> Waiters(x', n) == Waiters(x, n))
    && (m.Some? ==>
         Mx(x, m.value).owner == Some(o) && Sorted(x'.s, Waiters(x', m.value)) && Count(Waiters(x', m.value), o) == 0)
  }

  lemma MovedBoost(x: Sys, x': Sys, o: ThreadId, m: Option<QueueId>, n: QueueId)
    requires Placement(x.s) && Moved(x, x', o, m) && Some(n) != m && T(x.s, o).pendedOn != Some(n)
    ensures Boost(x', n) == Boost(x, n)
  {
    hide Placement, Books, Boost;
    BoostOther(x, x', o, n);
  }

  /** Threads that have nothing to do with o are to have the priority they have. */
  lemma MovedElsewhere(x: Sys, x': Sys, o: ThreadId, m: Option<QueueId>, u: ThreadId)
    requires Books(x) && Moved(x, x', o, m) && u != o && !(exists n :: WaitsFor(x, o, n) && Mx(x, n).owner == Some(u))
    ensures Level(x', u) == Level(x, u)
  {
    forall n | n in Held(x, u)
      ensures Boost(x', n) == Boost(x, n)
    {
      HeldIs(x, u, n);
      assert !WaitsFor(x, o, n);
      MovedBoost(x, x', o, m, n);
    }
    hide Books, Boost;
    LevelSame(x, x', u);
  }

  /** The owner of the mutex that o waits for is to have another priority only if o is the first waiter. */
  lemma MovedAbove(x: Sys, x': Sys, o: ThreadId, m: Option<QueueId>, n: QueueId, p: ThreadId)
    requires Books(x) && NoSelfWait(x) && Moved(x, x', o, m) && WaitsFor(x, o, n) && Mx(x, n).owner == Some(p)
    ensures p != o && Waiters(x', n) == Waiters(x, n) != []
    ensures Level(x', p) == if Waiters(x, n)[0] == o then Raised(LevelWithout(x, p, n),
                                                                 Some(Ceil(Prio(x', o), x.ceiling))) else Level(x, p)
  {
    assert Count(WaitQ(x.s, n), o) == One(T(x.s, o).pendedOn == Some(n));
    HeldOnce(x, p, n);
    forall k | k in Held(x, p) && k != n
      ensures Boost(x', k) == Boost(x, k)
    {
      HeldIs(x, p, k);
      MovedBoost(x, x', o, m, k);
    }
    LevelBut(x, x', p, n);
    LevelSplit(x, p, n);
    hide Books, NoSelfWait, Level, LevelWithout;
  }

  lemma MovedPrios(x: Sys, x': Sys, o: ThreadId, m: Option<QueueId>)
    requires Moved(x, x', o, m)
    ensures forall u :: u != o ==> T(x'.s, u).prio == T(x.s, u).prio
  {
    forall u | u != o
      ensures T(x'.s, u).prio == T(x.s, u).prio
    {
      assert Prio(x', u) == Prio(x, u);
    }
  }

  lemma WaitCount(s: Sched, n: QueueId, t: ThreadId)
    requires Placement(s)
    ensures Count(WaitQ(s, n), t) == One(T(s, t).pendedOn == Some(n))
  {
  }

  lemma MovedQueue(x: Sys, x': Sys, o: ThreadId, m: Option<QueueId>, n: QueueId)
    requires Placement(x.s) && Sorted(x.s, Waiters(x, n)) && Moved(x, x', o, m)
    ensures Sorted(x'.s, Waiters(x', n))
       <==> (T(x.s, o).pendedOn == Some(n) && Some(n) != m ==> FitsIn(x.s, Waiters(x, n), o, Prio(x', o)))
  {
    assert Some(n) != m ==> Waiters(x', n) == Waiters(x, n);
    assert Some(n) == m ==> Sorted(x'.s, Waiters(x', n));
    hide Placement, Books, Sorted, Count, FitsIn;
    WaitCount(x.s, n, o);
    MovedPrios(x, x', o, m);
    hide Moved;
    if Some(n) != m {
      if T(x.s, o).pendedOn == Some(n) {
        var i := IndexIn(WaitQ(x.s, n), o);
        FitsInSorted(x.s, x'.s, WaitQ(x.s, n), i);
      } else {
        SortedByPrio(x.s, x'.s, WaitQ(x.s, n), o);
      }
    }
  }

  lemma MovedOrdered(x: Sys, x': Sys, o: ThreadId, m: Option<QueueId>)
    requires Books(x) && Ordered(x) && Moved(x, x', o, m) && (T(x.s, o).pendedOn.Some? ==> T(x.s, o).pendedOn != m)
    ensures Ordered(x') <==> (!Unblocked(x, o) ==> FitsIn(x.s, Waiters(x, T(x.s, o).pendedOn.value), o, Prio(x', o)))
  {
    hide Placement, Ownership, Sorted, FitsIn;
    forall n | n in x.mutexes
      ensures Sorted(x'.s, Waiters(x', n))
         <==> (T(x.s, o).pendedOn == Some(n) ==> FitsIn(x.s, Waiters(x, n), o, Prio(x', o)))
    {
      assert Sorted(x.s, Waiters(x, n));
      MovedQueue(x, x', o, m, n);
    }
    assert x'.mutexes == x.mutexes;
    hide Moved, Waiters, Prio;
  }

  ghost predicate LevelsBut(x: Sys, x': Sys, o: ThreadId, p: ThreadId) {
    forall u :: u != o && u != p ==> Prio(x', u) == Level(x', u)
  }

  /** Only o, and the owner p of the mutex that o waits for, if it waits for one, are concerned. */
  lemma MovedLevels(x: Sys, x': Sys, o: ThreadId, m: Option<QueueId>, p: ThreadId)
    requires Books(x) && Levels(x) && Moved(x, x', o, m)
    requires forall n :: WaitsFor(x, o, n) ==> Mx(x, n).owner == Some(p)
    ensures LevelsBut(x, x', o, p)
  {
    hide Books, Level;
    forall u | u != o && u != p
      ensures Prio(x', u) == Level(x', u)
    {
      MovedElsewhere(x, x', o, m, u);
    }
  }

  /** The promise is kept exactly when o is at its level and its new priority is absorbed. */
  lemma MovedExact(x: Sys, x': Sys, o: ThreadId, m: Option<QueueId>)
    requires Right(x) && NoSelfWait(x) && Moved(x, x', o, m)
    ensures Right(x') <==> Prio(x', o) == Level(x', o) && Absorbs(x, o, Prio(x', o))
  {
    hide Books, Ordered, Level, LevelWithout, FitsIn, NoSelfWait, Raised, Prio, Waiters;
    assert Books(x') && (m.Some? ==> Mx(x, m.value).owner == Some(o));
    NotItsOwn(x, o, m);
    MovedOrdered(x, x', o, m);
    if Unblocked(x, o) {
      MovedLevels(x, x', o, m, o);
    } else {
      var n := T(x.s, o).pendedOn.value;
      WaiterHasOwner(x, o, n);
      var p := x.mutexes[n].owner.value;
      MovedAbove(x, x', o, m, n, p);
      MovedLevels(x, x', o, m, p);
      assert Prio(x', p) == Prio(x, p);
    }
    hide Moved;
  }

  lemma NotItsOwn(x: Sys, o: ThreadId, m: Option<QueueId>)
    requires NoSelfWait(x) && (m.Some? ==> Mx(x, m.value).owner == Some(o))
    ensures T(x.s, o).pendedOn.Some? ==> T(x.s, o).pendedOn != m
  {
  }

  /** A priority that does not change is absorbed. */
  lemma SameIsAbsorbed(x: Sys, o: ThreadId)
    requires Right(x) && NoSelfWait(x)
    ensures Absorbs(x, o, Prio(x, o))
  {
    hide Right, Absorbs, NoSelfWait;
    assert Moved(x, x, o, None) by { assert Right(x); BooksOf(x); }
    assert Prio(x, o) == Level(x, o) by { LevelOf(x, o); }
    MovedExact(x, x, o, None);
  }

  lemma BooksOf(x: Sys)
    requires Right(x)
    ensures Books(x)
  {
  }

  lemma LevelOf(x: Sys, t: ThreadId)
    requires Right(x)
    ensures Prio(x, t) == Level(x, t)
  {
    hide Books, Ordered;
  }

  // ---------------------------------------------------------------- taking a free mutex

  /** A free mutex taken by the current thread. */
  function Taken(x: Sys, m: QueueId): Sys {
    var t := x.s.current;
    x.(mutexes := x.mutexes[m := Mutex(Some(t), 1, Prio(x, t))], held := x.held[t := Held(x, t) + [m]])
  }

  lemma TakenOwnership(x: Sys, m: QueueId)
    requires Ownership(x) && m in x.mutexes && x.s.current != x.s.idle && x.mutexes[m].owner.None?
    ensures Ownership(Taken(x, m))
  {
    var t := x.s.current;
    var x' := Taken(x, m);
    forall u: ThreadId, n: QueueId
      ensures Count(Held(x', u), n) == Owns(x', u, n)
    {
      assert Count(Held(x, u), n) == Owns(x, u, n);
      AppendCount(Held(x, t), m, n);
      hide Count;
    }
    hide Count, Owns;
  }

  lemma TakenLevel(x: Sys, m: QueueId, u: ThreadId)
    requires Ownership(x) && m in x.mutexes && x.mutexes[m].owner.None?
    ensures Level(Taken(x, m), u) == Level(x, u)
  {
    assert Waiters(x, m) == [];
    var t, x' := x.s.current, Taken(x, m);
    hide Ownership;
    assert forall n :: Boost(x', n) == Boost(x, n);
    WantedFrame(x, x', Held(x, u), Base(x, u));
    if u == t {
      assert Held(x', t) == Held(x, t) + [m] && (Held(x, t) + [m])[..|Held(x, t)|] == Held(x, t);
      assert Boost(x', m) == None;
    }
  }

  lemma TakenKeeps(x: Sys, m: QueueId)
    requires Right(x) && m in x.mutexes && x.s.current != x.s.idle && x.mutexes[m].owner.None?
    ensures Right(Taken(x, m))
  {
    hide Placement, Ownership, Level, Sorted;
    TakenOwnership(x, m);
    forall u
      ensures Prio(Taken(x, m), u) == Level(Taken(x, m), u)
    {
      TakenLevel(x, m, u);
    }
  }

  // ---------------------------------------------------------------- a thread starts to wait

  function BoostedPrio(x: Sys, m: QueueId): int
    requires Mx(x, m).owner.Some?
  {
    var prio := Prio(x, Mx(x, m).owner.value);
    var boosted := NewPrioForInheritance(Prio(x, x.s.current), prio, x.ceiling);
    if boosted < prio then boosted else prio
  }

  lemma BoostFacts(x: Sys, m: QueueId)
    requires Placement(x.s) && Mx(x, m).owner.Some? && Mx(x, m).owner.value != x.s.idle
    requires Mx(x, m).owner.value != x.s.current
    ensures var o, s1 := Mx(x, m).owner.value, Adjust(x.s, Mx(x, m).owner.value, BoostedPrio(x, m));
            && Placement(s1) && s1.idle == x.s.idle && s1.current == x.s.current && s1.waitqs == x.s.waitqs
            && T(s1, o).prio == BoostedPrio(x, m) && T(s1, s1.current) == T(x.s, x.s.current)
            && (forall u :: u != o ==> T(s1, u).prio == T(x.s, u).prio)
  {
    hide Placement, Adjust;
    AdjustEffect(x.s, Mx(x, m).owner.value, BoostedPrio(x, m));
  }

  lemma PendFacts(s: Sched, m: QueueId, timed: bool)
    requires Placement(s) && s.current != s.idle && Ready(T(s, s.current))
    ensures var s' := Pend(s, s.current, Some(m), timed);
            && Placement(s') && s'.idle == s.idle && SamePrio(s, s')
            && (forall n :: n != m ==> WaitQ(s', n) == WaitQ(s, n))
            && WaitQ(s', m) == Insert(s', WaitQ(s, m), s.current)
  {
    PendPlaces(s, Some(m), timed);
    hide Placement, Insert, Pend;
    PendEffect(s, m, timed);
    InsertFrame(s, Pend(s, s.current, Some(m), timed), WaitQ(s, m), s.current);
  }

  /** The scheduler's state once the current thread waits for m. */
  function BlockedState(x: Sys, m: QueueId, timed: bool): Sched
    requires Mx(x, m).owner.Some?
  {
    Pend(Adjust(x.s, Mx(x, m).owner.value, BoostedPrio(x, m)), x.s.current, Some(m), timed)
  }

  lemma LockBlocks(x: Sys, m: QueueId, timed: bool)
    requires Mx(x, m).owner.Some? && Mx(x, m).owner.value != x.s.current && Mx(x, m).lockCount != 0
    ensures Lock(x, m, timed, false) == (x.(s := BlockedState(x, m, timed)), None)
  {
    hide Pend, SetPrio, UpdateCache;
  }

  lemma BlockedFacts(x: Sys, m: QueueId, timed: bool)
    requires Placement(x.s) && Mx(x, m).owner.Some? && Mx(x, m).owner.value != x.s.current
    requires Mx(x, m).owner.value != x.s.idle
    requires x.s.current != x.s.idle && Ready(T(x.s, x.s.current))
    ensures var s' := BlockedState(x, m, timed);
            && Placement(s') && s'.idle == x.s.idle
            && (forall u :: u != Mx(x, m).owner.value ==> T(s', u).prio == T(x.s, u).prio)
            && T(s', Mx(x, m).owner.value).prio == BoostedPrio(x, m)
            && (forall n :: n != m ==> WaitQ(s', n) == WaitQ(x.s, n))
            && WaitQ(s', m) == Insert(s', WaitQ(x.s, m), x.s.current)
  {
    hide Placement, Adjust, Pend, Insert, BoostedPrio;
    BoostFacts(x, m);
    var s1 := Adjust(x.s, Mx(x, m).owner.value, BoostedPrio(x, m));
    PendFacts(s1, m, timed);
    assert forall n :: WaitQ(s1, n) == WaitQ(x.s, n);
    hide WaitQ;
  }

  lemma {:induction false} InsertApart(s: Sched, s': Sched, q: seq<ThreadId>, t: ThreadId, o: ThreadId)
    requires Count(q, o) == 0 && t != o && forall u :: u != o ==> T(s', u).prio == T(s, u).prio
    ensures Insert(s', q, t) == Insert(s, q, t) && Count(Insert(s, q, t), o) == 0
  {
    if q != [] {
      InsertApart(s, s', q[1..], t, o);
    }
    InsertCount(s, q, t, o);
  }

  lemma BlockedSorted(x: Sys, s': Sched, m: QueueId, o: ThreadId)
    requires Sorted(x.s, WaitQ(x.s, m)) && Count(WaitQ(x.s, m), o) == 0
    requires forall u :: u != o ==> T(s', u).prio == T(x.s, u).prio
    requires WaitQ(s', m) == Insert(s', WaitQ(x.s, m), x.s.current)
    ensures Sorted(s', WaitQ(s', m))
  {
    hide Sorted, Insert;
    SortedByPrio(x.s, s', WaitQ(x.s, m), o);
    InsertKeepsSorted(s', WaitQ(x.s, m), x.s.current);
  }

  /** A queue without o asks for what it asked for before. */
  lemma BoostApart(x: Sys, x': Sys, o: ThreadId, q: seq<ThreadId>)
    requires Count(q, o) == 0 && x'.ceiling == x.ceiling && forall u :: u != o ==> T(x'.s, u).prio == T(x.s, u).prio
    ensures BoostOf(x', q) == BoostOf(x, q)
  {
    if q != [] {
      CountAt(q, 0);
    }
  }

  /** The priority the owner is given is what it is to have once the current thread waits too. */
  lemma BoostedLevel(x: Sys, m: QueueId, o: ThreadId)
    requires Mx(x, m).owner == Some(o) && Prio(x, o) == Raised(LevelWithout(x, o, m), Boost(x, m))
    ensures Raised(LevelWithout(x, o, m), BoostOf(x, Insert(x.s, WaitQ(x.s, m), x.s.current))) == BoostedPrio(x, m)
  {
    var q, t := WaitQ(x.s, m), x.s.current;
    InsertHead(x.s, q, t);
    BoostArithmetic(LevelWithout(x, o, m), if q == [] then None else Some(Prio(x, q[0])), Prio(x, t), x.ceiling);
    hide Insert, WaitQ, LevelWithout;
  }

  /** A thread that waits changes the state of its owner, its own place, and nothing else. */
  lemma BlockMoves(x: Sys, m: QueueId, timed: bool)
    requires Books(x) && Ordered(x) && NoSelfWait(x) && m in x.mutexes && x.mutexes[m].owner.Some?
    requires x.mutexes[m].owner != Some(x.s.current)
    requires x.s.current != x.s.idle && Ready(T(x.s, x.s.current))
    ensures var x', o := x.(s := BlockedState(x, m, timed)), x.mutexes[m].owner.value;
            && Moved(x, x', o, Some(m)) && Prio(x', o) == BoostedPrio(x, m)
            && Boost(x', m) == BoostOf(x, Insert(x.s, WaitQ(x.s, m), x.s.current))
  {
    hide Books, Ownership, Sorted, Count, BlockedState, Insert, BoostedPrio, BoostOf, NoSelfWait, Placement;
    var o, s' := x.mutexes[m].owner.value, BlockedState(x, m, timed);
    OwnerFacts(x, m, o);
    assert Sorted(x.s, WaitQ(x.s, m));
    BlockBooks(x, m, timed);
    BlockedSorted(x, s', m, o);
    InsertApart(x.s, s', WaitQ(x.s, m), x.s.current, o);
    BoostApart(x, x.(s := s'), o, Insert(x.s, WaitQ(x.s, m), x.s.current));
  }

  lemma BlockBooks(x: Sys, m: QueueId, timed: bool)
    requires Books(x) && m in x.mutexes && x.mutexes[m].owner.Some? && x.mutexes[m].owner != Some(x.s.current)
    requires x.s.current != x.s.idle && Ready(T(x.s, x.s.current))
    ensures var s', o := BlockedState(x, m, timed), x.mutexes[m].owner.value;
            && Books(x.(s := s')) && T(s', o).prio == BoostedPrio(x, m)
            && (forall u :: u != o ==> T(s', u).prio == T(x.s, u).prio)
            && (forall n :: n != m ==> WaitQ(s', n) == WaitQ(x.s, n))
            && WaitQ(s', m) == Insert(s', WaitQ(x.s, m), x.s.current)
  {
    var o, s' := x.mutexes[m].owner.value, BlockedState(x, m, timed);
    assert o != x.s.idle;
    hide Placement, Ownership, BlockedState, Insert, BoostedPrio;
    BlockedFacts(x, m, timed);
    AdjustedOwnership(x, s', o, m);
  }

  lemma AdjustedOwnership(x: Sys, s': Sched, o: ThreadId, m: QueueId)
    requires Ownership(x) && Mx(x, m).owner == Some(o) && s'.idle == x.s.idle
    requires forall n :: n != m ==> WaitQ(s', n) == WaitQ(x.s, n)
    ensures Ownership(x.(s := s'))
  {
    var x' := x.(s := s');
    forall t: ThreadId, n: QueueId
      ensures Count(Held(x', t), n) == Owns(x', t, n)
    {
      assert Held(x', t) == Held(x, t) && Owns(x', t, n) == Owns(x, t, n);
    }
    hide Count;
  }

  /** What the owner is to have afterwards: m asks for what its waiters ask for, the others for what they did. */
  lemma MovedLevel(x: Sys, x': Sys, o: ThreadId, m: QueueId)
    requires Books(x) && NoSelfWait(x) && Moved(x, x', o, Some(m)) && Base(x', o) == Base(x, o)
    ensures Level(x', o) == Raised(LevelWithout(x, o, m), Boost(x', m))
  {
    HeldOnce(x, o, m);
    forall n | n in Held(x, o) && n != m
      ensures Boost(x', n) == Boost(x, n)
    {
      HeldIs(x, o, n);
      MovedBoost(x, x', o, Some(m), n);
    }
    hide Books, NoSelfWait, Boost, Level, LevelWithout, Raised;
    LevelBut(x, x', o, m);
  }

  /** A new waiter leaves every thread at its level exactly when the boost of the
      owner is absorbed where the owner itself waits. */
  lemma BlockExact(x: Sys, m: QueueId, timed: bool)
    requires Right(x) && NoSelfWait(x) && m in x.mutexes && x.mutexes[m].owner.Some?
    requires x.mutexes[m].owner != Some(x.s.current)
    requires x.s.current != x.s.idle && Ready(T(x.s, x.s.current)) && x.mutexes[m].lockCount != 0
    ensures Right(Lock(x, m, timed, false).0) <==> Absorbs(x, x.mutexes[m].owner.value, BoostedPrio(x, m))
  {
    hide Books, Ordered, NoSelfWait, Moved, Level, LevelWithout, Boost, BoostOf, BoostedPrio, BlockedState, Lock;
    hide Absorbs, Insert, Raised;
    var o, x' := x.mutexes[m].owner.value, x.(s := BlockedState(x, m, timed));
    LockBlocks(x, m, timed);
    BlockMoves(x, m, timed);
    MovedExact(x, x', o, Some(m));
    MovedLevel(x, x', o, m);
    OwnershipOf(x);
    hide Ownership;
    LevelSplit(x, o, m);
    LevelOf(x, o);
    BoostedLevel(x, m, o);
  }

  lemma OwnershipOf(x: Sys)
    requires Books(x)
    ensures Ownership(x)
  {
  }

  // ---------------------------------------------------------------- a waiter goes

  /** Thread t has left the queue of m, and nothing else has changed. */
  ghost predicate Left(x: Sys, s': Sched, t: ThreadId, m: QueueId) {
    && Placement(s') && s'.idle == x.s.idle && SamePrio(x.s, s')
    && (forall n :: n != m ==> WaitQ(s', n) == WaitQ(x.s, n)) && WaitQ(s', m) == Remove(WaitQ(x.s, m), t)
  }

  lemma ExpireLeaves(x: Sys, t: ThreadId, m: QueueId)
    requires Placement(x.s) && T(x.s, t).timeout && T(x.s, t).pendedOn == Some(m)
    ensures Left(x, Expire(x.s, t), t, m) && forall u :: u != t ==> T(Expire(x.s, t), u) == T(x.s, u)
  {
    ExpirePlaces(x.s, t);
    ExpireEffect(x.s, t);
    hide Placement, Expire, Remove;
  }

  lemma AbortEffect(s: Sched, t: ThreadId)
    requires T(s, t).pendedOn.Some? && T(s, t).pending
    ensures var s' := Abort(s, t);
            && s'.idle == s.idle && SamePrio(s, s')
            && s'.waitqs == s.waitqs[T(s, t).pendedOn.value := Remove(WaitQ(s, T(s, t).pendedOn.value), t)]
            && forall u :: u != t ==> T(s', u) == T(s, u)
  {
    hide Remove, UpdateCache;
  }

  lemma AbortLeaves(x: Sys, t: ThreadId, m: QueueId)
    requires Placement(x.s) && T(x.s, t).pendedOn == Some(m) && t != x.s.idle
    ensures Left(x, Abort(x.s, t), t, m)
  {
    PendedPends(x.s, t);
    AbortPlaces(x.s, t);
    AbortEffect(x.s, t);
    hide Placement, Abort, Remove;
  }

  lemma TimedOutSorted(x: Sys, s': Sched, t: ThreadId, m: QueueId, o: ThreadId)
    requires Sorted(x.s, WaitQ(x.s, m)) && Count(WaitQ(x.s, m), o) == 0
    requires forall u :: u != o ==> T(s', u).prio == T(x.s, u).prio
    requires WaitQ(s', m) == Remove(WaitQ(x.s, m), t)
    ensures Sorted(s', WaitQ(s', m))
  {
    hide Sorted, Remove;
    SortedByPrio(x.s, s', WaitQ(x.s, m), o);
    RemoveKeepsSorted(s', WaitQ(x.s, m), t);
  }

  lemma LeftBooks(x: Sys, s': Sched, t: ThreadId, m: QueueId)
    requires Books(x) && WaitsFor(x, t, m) && Left(x, s', t, m)
    ensures Books(x.(s := s'))
  {
    WaiterHasOwner(x, t, m);
    hide Placement, Ownership, Remove;
    AdjustedOwnership(x, s', x.mutexes[m].owner.value, m);
  }

  lemma LeftMoves(x: Sys, s': Sched, t: ThreadId, m: QueueId, o: ThreadId)
    requires Books(x) && Ordered(x) && NoSelfWait(x) && WaitsFor(x, t, m) && x.mutexes[m].owner == Some(o)
    requires Left(x, s', t, m)
    ensures Moved(x, x.(s := s'), o, Some(m)) && Boost(x.(s := s'), m) == BoostOf(x, Remove(Waiters(x, m), t))
  {
    hide Books, Sorted, Count, Remove, BoostOf, NoSelfWait, Placement;
    OwnerFacts(x, m, o);
    assert Sorted(x.s, WaitQ(x.s, m));
    LeftBooks(x, s', t, m);
    TimedOutSorted(x, s', t, m, o);
    RemoveCount(WaitQ(x.s, m), t, o);
    BoostApart(x, x.(s := s'), o, Remove(WaitQ(x.s, m), t));
  }

  /** What the owner of m is to have without the waiter t. */
  function LevelAfter(x: Sys, t: ThreadId, m: QueueId): int
    requires Mx(x, m).owner.Some?
  {
    Raised(LevelWithout(x, Mx(x, m).owner.value, m), BoostOf(x, Remove(Waiters(x, m), t)))
  }

  /** A waiter that goes, and leaves the owner at its priority, keeps the promise
      exactly when it made no difference. */
  lemma LeftExact(x: Sys, s': Sched, t: ThreadId, m: QueueId)
    requires Right(x) && NoSelfWait(x) && WaitsFor(x, t, m) && Mx(x, m).owner.Some? && Left(x, s', t, m)
    ensures Right(x.(s := s')) <==> Prio(x, Mx(x, m).owner.value) == LevelAfter(x, t, m)
  {
    hide Books, Ordered, NoSelfWait, Moved, Level, LevelWithout, BoostOf, Absorbs, Remove, Raised, Placement;
    var o, x' := Mx(x, m).owner.value, x.(s := s');
    LeftMoves(x, s', t, m, o);
    MovedLevel(x, x', o, m);
    MovedExact(x, x', o, Some(m));
    SameIsAbsorbed(x, o);
    assert Prio(x', o) == Prio(x, o);
  }

  /** z_thread_single_abort takes a waiter out of the queue and leaves the owner at its priority. */
  lemma AbortWaiterExact(x: Sys, t: ThreadId, m: QueueId)
    requires Right(x) && NoSelfWait(x) && WaitsFor(x, t, m) && t != x.s.idle && Mx(x, m).owner.Some?
    ensures Right(x.(s := Abort(x.s, t))) <==> Prio(x, Mx(x, m).owner.value) == LevelAfter(x, t, m)
  {
    hide Ownership, Ordered, Levels, NoSelfWait, LevelAfter, Left, Abort, Placement;
    AbortLeaves(x, t, m);
    LeftExact(x, Abort(x.s, t), t, m);
  }

  /** So does a timeout, until the thread has cleaned up. */
  lemma ExpiredExact(x: Sys, t: ThreadId, m: QueueId)
    requires Right(x) && NoSelfWait(x) && WaitsFor(x, t, m) && T(x.s, t).timeout && Mx(x, m).owner.Some?
    ensures Right(Expired(x, t)) <==> Prio(x, Mx(x, m).owner.value) == LevelAfter(x, t, m)
  {
    hide Ownership, Ordered, Levels, NoSelfWait, LevelAfter, Left, Expire, Placement;
    ExpireLeaves(x, t, m);
    LeftExact(x, Expire(x.s, t), t, m);
  }

  /** What the clean-up gives the owner, in terms of the state before the timeout. */
  function RestoredTo(x: Sys, t: ThreadId, m: QueueId): int {
    var rest := Remove(Waiters(x, m), t);
    if rest == [] then Mx(x, m).origPrio else NewPrioForInheritance(Prio(x, rest[0]), Mx(x, m).origPrio, x.ceiling)
  }

  lemma AdjustMoves(x: Sys, o: ThreadId, prio: int)
    requires Books(x) && o != x.s.idle
    ensures Moved(x, x.(s := Adjust(x.s, o, prio)), o, None) && Prio(x.(s := Adjust(x.s, o, prio)), o) == prio
  {
    hide Placement, Ownership, Adjust;
    AdjustEffect(x.s, o, prio);
    var s' := Adjust(x.s, o, prio);
    assert forall n :: WaitQ(s', n) == WaitQ(x.s, n);
    SameOwnership(x, s');
  }

  lemma SameOwnership(x: Sys, s': Sched)
    requires Ownership(x) && s'.idle == x.s.idle && forall n :: WaitQ(s', n) == WaitQ(x.s, n)
    ensures Ownership(x.(s := s'))
  {
    var x' := x.(s := s');
    forall t: ThreadId, n: QueueId
      ensures Count(Held(x', t), n) == Owns(x', t, n)
    {
      assert Held(x', t) == Held(x, t) && Owns(x', t, n) == Owns(x, t, n);
    }
    hide Count, Held, Owns;
    OwnershipFrom(x');
  }

  /** Two changes to the same thread, one after the other. */
  lemma MovedTwice(x: Sys, x1: Sys, x2: Sys, o: ThreadId, m: QueueId)
    requires Moved(x, x1, o, Some(m)) && Moved(x1, x2, o, None)
    ensures Moved(x, x2, o, Some(m)) && Boost(x2, m) == Boost(x1, m)
  {
    hide Books, Sorted;
    MovedPrios(x1, x2, o, None);
    SortedByPrio(x1.s, x2.s, Waiters(x1, m), o);
    BoostApart(x1, x2, o, Waiters(x1, m));
  }

  lemma TimedOutMoves(x: Sys, t: ThreadId, m: QueueId, o: ThreadId)
    requires Books(x) && Ordered(x) && NoSelfWait(x) && WaitsFor(x, t, m) && T(x.s, t).timeout
    requires x.mutexes[m].owner == Some(o)
    ensures var x' := TimedOut(x, t, m);
            && Moved(x, x', o, Some(m)) && Prio(x', o) == RestoredTo(x, t, m) && Base(x', o) == Base(x, o)
            && Boost(x', m) == BoostOf(x, Remove(Waiters(x, m), t))
  {
    hide Ownership, Placement, Ordered, Moved, BoostOf, NoSelfWait, Remove, Expire, Adjust;
    OwnerFacts(x, m, o);
    ExpireLeaves(x, t, m);
    var x1 := Expired(x, t);
    LeftMoves(x, x1.s, t, m, o);
    LeftBooks(x, x1.s, t, m);
    AdjustMoves(x1, o, Restored(x1.s, m, Mx(x1, m).origPrio, x1.ceiling));
    MovedTwice(x, x1, TimedOut(x, t, m), o, m);
  }

  /** The timeout of a waiter keeps the promise exactly when what the mutex remembers
      and its first waiter left make of the owner is its level, and that is absorbed. */
  predicate TimeoutGuard(x: Sys, t: ThreadId, m: QueueId)
    requires Mx(x, m).owner.Some?
  {
    RestoredTo(x, t, m) == LevelAfter(x, t, m) && Absorbs(x, Mx(x, m).owner.value, RestoredTo(x, t, m))
  }

  lemma TimedOutExact(x: Sys, t: ThreadId, m: QueueId)
    requires Right(x) && NoSelfWait(x) && WaitsFor(x, t, m) && T(x.s, t).timeout && Mx(x, m).owner.Some?
    ensures Right(TimedOut(x, t, m)) <==> TimeoutGuard(x, t, m)
  {
    hide Books, Ordered, NoSelfWait, Moved, Level, LevelWithout, BoostOf, Absorbs, Remove, Raised, TimedOut, RestoredTo;
    var o, x' := Mx(x, m).owner.value, TimedOut(x, t, m);
    TimedOutMoves(x, t, m, o);
    MovedLevel(x, x', o, m);
    MovedExact(x, x', o, Some(m));
  }

  /** A clean-up on its own keeps the promise exactly when it changes nothing. */
  lemma CleanUpExact(x: Sys, m: QueueId)
    requires Right(x) && NoSelfWait(x) && m in x.mutexes && Mx(x, m).owner.Some?
    ensures Right(CleanUp(x, m)) <==> Restored(x.s, m, Mx(x, m).origPrio, x.ceiling) == Prio(x, Mx(x, m).owner.value)
  {
    hide Books, Ordered, NoSelfWait, Moved, Level, Absorbs, Restored, Adjust;
    var o, x' := Mx(x, m).owner.value, CleanUp(x, m);
    OwnerFacts(x, m, o);
    AdjustMoves(x, o, Restored(x.s, m, Mx(x, m).origPrio, x.ceiling));
    OwnLevel(x, x', o);
    MovedExact(x, x', o, None);
    SameIsAbsorbed(x, o);
    LevelOf(x, o);
  }

  /** What a thread is to have does not depend on what it has. */
  lemma OwnLevel(x: Sys, x': Sys, o: ThreadId)
    requires Books(x) && NoSelfWait(x) && Moved(x, x', o, None) && Base(x', o) == Base(x, o)
    ensures Level(x', o) == Level(x, o)
  {
    forall n | n in Held(x, o)
      ensures Boost(x', n) == Boost(x, n)
    {
      HeldIs(x, o, n);
      MovedBoost(x, x', o, None, n);
    }
    hide Books, NoSelfWait, Boost, Level;
    LevelSame(x, x', o);
  }

  // ---------------------------------------------------------------- releasing

  /** The current thread has given m up: with no waiters it is free. */
  function Freed(x: Sys, m: QueueId): Sys {
    var t, mutex := x.s.current, Mx(x, m);
    x.(s := Adjust(x.s, t, mutex.origPrio), held := x.held[t := Remove(Held(x, t), m)],
       mutexes := x.mutexes[m := mutex.(owner := None, lockCount := 0)])
  }

  /** Otherwise the first waiter has it. */
  function HandedOver(x: Sys, m: QueueId, w: ThreadId): Sys
    requires T(Adjust(x.s, x.s.current, Mx(x, m).origPrio), w).pendedOn.Some?
  {
    var t, mutex := x.s.current, Mx(x, m);
    var s1 := Adjust(x.s, t, mutex.origPrio);
    var held1 := x.held[t := Remove(Held(x, t), m)];
    x.(s := Wake(s1, w), held := held1[w := (if w in held1 then held1[w] else []) + [m]],
       mutexes := x.mutexes[m := mutex.(owner := Some(w), origPrio := T(s1, w).prio)])
  }

  ghost predicate Releasing(x: Sys, m: QueueId) {
    && Books(x) && m in x.mutexes && x.mutexes[m].owner == Some(x.s.current) && x.mutexes[m].lockCount == 1
    && Ready(T(x.s, x.s.current))
  }

  lemma ReleaseFacts(x: Sys, m: QueueId)
    requires Releasing(x, m)
    ensures var t := x.s.current; T(x.s, t).pendedOn.None? && t != x.s.idle && Count(Held(x, t), m) == 1
  {
    HeldOnce(x, x.s.current, m);
    NotPended(x.s, x.s.current);
    hide Sorted, Count;
  }

  lemma ReleaseSched(x: Sys, m: QueueId)
    requires Releasing(x, m)
    ensures var t, s1 := x.s.current, Adjust(x.s, x.s.current, Mx(x, m).origPrio);
            && Placement(s1) && s1.idle == x.s.idle && s1.waitqs == x.s.waitqs
            && T(s1, t) == T(x.s, t).(prio := Mx(x, m).origPrio) && forall u :: u != t ==> T(s1, u) == T(x.s, u)
  {
    hide Adjust, Ownership;
    assert x.s.current != x.s.idle by { ReleaseFacts(x, m); }
    AdjustEffect(x.s, x.s.current, Mx(x, m).origPrio);
    hide Placement;
  }

  /** Releasing leaves the counts right: m moves from the releasing thread to w, or to nobody. */
  lemma ReleaseCounts(x: Sys, x': Sys, m: QueueId, w: Option<ThreadId>)
    requires Ownership(x) && m in x.mutexes && x.mutexes[m].owner == Some(x.s.current) && w != Some(x.s.current)
    requires x'.mutexes.Keys == x.mutexes.Keys && x'.mutexes[m].owner == w
    requires forall n :: n in x.mutexes && n != m ==> x'.mutexes[n] == x.mutexes[n]
    requires Held(x', x.s.current) == Remove(Held(x, x.s.current), m)
    requires forall u: ThreadId :: u != x.s.current ==> Held(x', u) == if w == Some(u) then Held(x, u) + [m]
                                                                       else Held(x, u)
    ensures forall u: ThreadId, n: QueueId :: Count(Held(x', u), n) == Owns(x', u, n)
  {
    forall u: ThreadId, n: QueueId
      ensures Count(Held(x', u), n) == Owns(x', u, n)
    {
      assert Count(Held(x, u), n) == Owns(x, u, n);
      hide Held;
      RemoveCount(Held(x, u), m, n);
      AppendCount(Held(x, u), m, n);
      hide Count, Remove;
    }
  }

  /** What a release leaves: the releasing thread back at the priority m remembered ... */
  ghost predicate RestoredPrio(x: Sys, x': Sys, m: QueueId) {
    && x'.s.idle == x.s.idle && x'.ceiling == x.ceiling && x'.base == x.base
    && T(x'.s, x.s.current).prio == Mx(x, m).origPrio
    && forall u :: u != x.s.current ==> T(x'.s, u).prio == T(x.s, u).prio
  }

  /** ... the wait queue of m without its first thread, if it had one ... */
  ghost predicate FirstLeft(x: Sys, x': Sys, m: QueueId, w: Option<ThreadId>) {
    && (forall n :: n != m ==> Waiters(x', n) == Waiters(x, n))
    && (if w.None? then Waiters(x, m) == [] == Waiters(x', m)
        else Waiters(x, m) != [] && Waiters(x, m)[0] == w.value && Waiters(x', m) == Waiters(x, m)[1..])
  }

  /** ... and m with that thread, or with nobody. */
  ghost predicate PassedOn(x: Sys, x': Sys, m: QueueId, w: Option<ThreadId>) {
    && x'.mutexes == x.mutexes[m := if w.None? then Mutex(None, 0, Mx(x, m).origPrio)
                                    else Mutex(w, 1, Prio(x, w.value))]
    && Held(x', x.s.current) == Remove(Held(x, x.s.current), m)
    && forall u: ThreadId :: u != x.s.current ==> Held(x', u) == if w == Some(u) then Held(x, u) + [m] else Held(x, u)
  }

  ghost predicate Released(x: Sys, x': Sys, m: QueueId, w: Option<ThreadId>) {
    Placement(x'.s) && RestoredPrio(x, x', m) && FirstLeft(x, x', m, w) && PassedOn(x, x', m, w)
  }

  lemma FirstIsPended(x: Sys, m: QueueId)
    requires Releasing(x, m) && Waiters(x, m) != []
    ensures var w := Waiters(x, m)[0]; w != x.s.current && w != x.s.idle && T(x.s, w).pendedOn == Some(m)
  {
    HeadIsPended(x, m);
    hide Sorted, Count, Ownership;
  }

  lemma ReleasedCounts(x: Sys, x': Sys, m: QueueId, w: Option<ThreadId>)
    requires Ownership(x) && m in x.mutexes && x.mutexes[m].owner == Some(x.s.current) && w != Some(x.s.current)
    requires PassedOn(x, x', m, w)
    ensures forall u: ThreadId, n: QueueId :: Count(Held(x', u), n) == Owns(x', u, n)
  {
    hide Ownership, Remove, Held, Prio, Count, Owns;
    ReleaseCounts(x, x', m, w);
  }

  lemma ReleasedOwners(x: Sys, x': Sys, m: QueueId, w: Option<ThreadId>)
    requires Ownership(x) && m in x.mutexes && w != Some(x.s.idle) && x'.s.idle == x.s.idle
    requires FirstLeft(x, x', m, w) && PassedOn(x, x', m, w)
    ensures forall n :: n in x'.mutexes ==> (x'.mutexes[n].owner.None? <==> x'.mutexes[n].lockCount == 0)
    ensures forall n :: n in x'.mutexes && x'.mutexes[n].owner.None? ==> Waiters(x', n) == []
    ensures forall n :: n in x'.mutexes ==> x'.mutexes[n].owner != Some(x'.s.idle)
  {
    assert forall n :: n in x'.mutexes && n != m ==> x'.mutexes[n] == x.mutexes[n];
    hide PassedOn, Waiters, Held, Count, Owns, Prio;
  }

  lemma ReleasedOwnership(x: Sys, x': Sys, m: QueueId, w: Option<ThreadId>)
    requires Releasing(x, m) && Released(x, x', m, w)
    ensures Ownership(x')
  {
    hide Ownership, Placement, RestoredPrio, PassedOn, Count, Held, Owns;
    if w.Some? {
      FirstIsPended(x, m);
    }
    ReleasedIdle(x, x', m);
    ReleasedCounts(x, x', m, w);
    ReleasedOwners(x, x', m, w);
    OwnershipFrom(x');
  }

  lemma ReleasedIdle(x: Sys, x': Sys, m: QueueId)
    requires RestoredPrio(x, x', m)
    ensures x'.s.idle == x.s.idle
  {
  }

  lemma TailSorted(s: Sched, q: seq<ThreadId>)
    requires Sorted(s, q) && q != []
    ensures Sorted(s, q[1..]) && (|q| > 1 ==> T(s, q[0]).prio <= T(s, q[1..][0]).prio)
  {
  }

  lemma ReleasedOrdered(x: Sys, x': Sys, m: QueueId, w: Option<ThreadId>)
    requires Releasing(x, m) && Ordered(x) && Released(x, x', m, w)
    ensures Ordered(x')
  {
    var t := x.s.current;
    ReleaseFacts(x, m);
    hide Ownership, Sorted, Count, Held, Remove;
    forall n | n in x'.mutexes
      ensures Sorted(x'.s, Waiters(x', n))
    {
      assert Sorted(x.s, Waiters(x, n));
      assert Count(WaitQ(x.s, n), t) == One(T(x.s, t).pendedOn == Some(n));
      hide Placement;
      SortedByPrio(x.s, x'.s, Waiters(x, n), t);
      if n == m && w.Some? {
        TailSorted(x'.s, Waiters(x, m));
      }
    }
  }

  lemma SecondIsPended(x: Sys, m: QueueId)
    requires Releasing(x, m) && |Waiters(x, m)| > 1
    ensures Waiters(x, m)[1] != x.s.current
  {
    CountAt(Waiters(x, m), 1);
    WaitCount(x.s, m, Waiters(x, m)[1]);
    ReleaseFacts(x, m);
    hide Count, Sorted, Ownership, Placement;
  }

  /** The new owner is at least as important as everyone who still waits. */
  lemma ReleasedBoost(x: Sys, x': Sys, m: QueueId, w: ThreadId)
    requires Releasing(x, m) && Ordered(x) && Released(x, x', m, Some(w))
    ensures Raised(Prio(x, w), Boost(x', m)) == Prio(x, w)
  {
    assert Sorted(x.s, Waiters(x, m));
    TailSorted(x.s, Waiters(x, m));
    if Waiters(x', m) != [] {
      SecondIsPended(x, m);
    }
    hide Sorted, Placement, Ownership, Ordered, Held, Remove, Count;
  }

  lemma ReleasedOther(x: Sys, x': Sys, m: QueueId, w: Option<ThreadId>, n: QueueId)
    requires Placement(x.s) && T(x.s, x.s.current).pendedOn.None? && n != m && RestoredPrio(x, x', m)
    requires FirstLeft(x, x', m, w)
    ensures Boost(x', n) == Boost(x, n)
  {
    hide Placement, Boost;
    BoostOther(x, x', x.s.current, n);
  }

  /** Mutexes other than m ask for what they asked for before. */
  lemma ReleasedWanted(x: Sys, x': Sys, m: QueueId, w: Option<ThreadId>, ms: seq<QueueId>, base: int)
    requires Releasing(x, m) && Released(x, x', m, w) && m !in ms
    ensures Wanted(x', ms, base) == Wanted(x, ms, base)
  {
    ReleaseFacts(x, m);
    assert Placement(x.s);
    hide Releasing, Boost, Wanted, Placement, PassedOn;
    forall n | n in ms
      ensures Boost(x', n) == Boost(x, n)
    {
      ReleasedOther(x, x', m, w, n);
    }
    WantedFrame(x, x', ms, base);
  }

  lemma ReleasedOthers(x: Sys, x': Sys, m: QueueId, w: Option<ThreadId>, u: ThreadId)
    requires Releasing(x, m) && Right(x) && Released(x, x', m, w) && u != x.s.current
    ensures Prio(x', u) == Level(x', u)
  {
    LevelOf(x, u);
    HeldIs(x, u, m);
    ReleasedWanted(x, x', m, w, Held(x, u), Base(x, u));
    if w == Some(u) {
      ReleasedBoost(x, x', m, u);
      assert (Held(x, u) + [m])[..|Held(x, u)|] == Held(x, u);
    }
    hide Releasing, Right, Boost, Remove, Waiters, Placement, FirstLeft;
  }

  lemma ReleasedSelf(x: Sys, x': Sys, m: QueueId, w: Option<ThreadId>)
    requires Releasing(x, m) && Released(x, x', m, w)
    ensures Level(x', x.s.current) == LevelWithout(x, x.s.current, m) && Prio(x', x.s.current) == Mx(x, m).origPrio
  {
    hide Wanted, Releasing, Remove, Waiters, Placement, Count, FirstLeft, Held;
    var t := x.s.current;
    var rest := Remove(Held(x, t), m);
    ReleaseFacts(x, m);
    RemoveMember(Held(x, t), m, m);
    ReleasedWanted(x, x', m, w, rest, Base(x, t));
  }

  lemma ReleasedExact(x: Sys, x': Sys, m: QueueId, w: Option<ThreadId>)
    requires Releasing(x, m) && Right(x) && Released(x, x', m, w)
    ensures Right(x') <==> Mx(x, m).origPrio == LevelWithout(x, x.s.current, m)
  {
    ReleasedOwnership(x, x', m, w);
    ReleasedOrdered(x, x', m, w);
    ReleasedSelf(x, x', m, w);
    forall u | u != x.s.current
      ensures Prio(x', u) == Level(x', u)
    {
      ReleasedOthers(x, x', m, w, u);
    }
    hide Ownership, Ordered, Level, LevelWithout, Placement, Releasing;
  }

  lemma FreedIs(x: Sys, m: QueueId)
    requires Releasing(x, m) && Waiters(x, m) == []
    ensures Released(x, Freed(x, m), m, None)
  {
    ReleaseSched(x, m);
    hide Adjust, Placement, Remove, Ownership;
    var x' := Freed(x, m);
    assert forall n :: Waiters(x', n) == Waiters(x, n);
    assert FirstLeft(x, x', m, None);
    assert RestoredPrio(x, x', m);
    hide FirstLeft, RestoredPrio;
    assert PassedOn(x, x', m, None);
  }

  lemma HandedSched(x: Sys, m: QueueId, w: ThreadId)
    requires Releasing(x, m) && Waiters(x, m) != [] && Waiters(x, m)[0] == w
    ensures var s1 := Adjust(x.s, x.s.current, Mx(x, m).origPrio);
            && T(s1, w) == T(x.s, w) && T(x.s, w).pendedOn == Some(m) && w != x.s.current
            && Placement(Wake(s1, w)) && Leaves(s1, Wake(s1, w), w) && s1.waitqs == x.s.waitqs && s1.idle == x.s.idle
            && T(s1, x.s.current).prio == Mx(x, m).origPrio && forall u :: u != x.s.current ==> T(s1, u) == T(x.s, u)
  {
    ReleaseSched(x, m);
    FirstIsPended(x, m);
    hide Releasing, Adjust, Placement, Wake, Leaves;
    var s1 := Adjust(x.s, x.s.current, Mx(x, m).origPrio);
    WakePlaces(s1, w);
    WakeEffect(s1, w);
  }

  lemma HandedPassed(x: Sys, m: QueueId, w: ThreadId)
    requires m in x.mutexes && x.mutexes[m].lockCount == 1 && w != x.s.current
    requires T(Adjust(x.s, x.s.current, Mx(x, m).origPrio), w) == T(x.s, w) && T(x.s, w).pendedOn.Some?
    ensures PassedOn(x, HandedOver(x, m, w), m, Some(w))
  {
    hide Adjust, Wake, Remove;
  }

  lemma HandedRest(x: Sys, x': Sys, s1: Sched, m: QueueId, w: ThreadId)
    requires x' == x.(s := x'.s, held := x'.held, mutexes := x'.mutexes) && Leaves(s1, x'.s, w)
    requires s1.waitqs == x.s.waitqs && s1.idle == x.s.idle && T(s1, x.s.current).prio == Mx(x, m).origPrio
    requires T(s1, w).pendedOn == Some(m) && Waiters(x, m) != [] && Waiters(x, m)[0] == w
    requires forall u :: u != x.s.current ==> T(s1, u) == T(x.s, u)
    ensures RestoredPrio(x, x', m) && FirstLeft(x, x', m, Some(w))
  {
    assert forall n :: WaitQ(s1, n) == WaitQ(x.s, n);
    HandedQueues(s1, x'.s, w, m);
  }

  lemma HandedIs(x: Sys, m: QueueId, w: ThreadId)
    requires Releasing(x, m) && Waiters(x, m) != [] && Waiters(x, m)[0] == w
    ensures T(Adjust(x.s, x.s.current, Mx(x, m).origPrio), w) == T(x.s, w) && T(x.s, w).pendedOn.Some?
    ensures Released(x, HandedOver(x, m, w), m, Some(w))
  {
    HandedSched(x, m, w);
    assert x.mutexes[m].lockCount == 1 && m in x.mutexes;
    hide Releasing, Adjust, Placement, Wake, PassedOn, RestoredPrio, FirstLeft, Leaves;
    HandedPassed(x, m, w);
    HandedRest(x, HandedOver(x, m, w), Adjust(x.s, x.s.current, Mx(x, m).origPrio), m, w);
  }

  lemma HandedQueues(s1: Sched, s2: Sched, w: ThreadId, m: QueueId)
    requires Leaves(s1, s2, w) && T(s1, w).pendedOn == Some(m) && WaitQ(s1, m) != [] && WaitQ(s1, m)[0] == w
    ensures (forall n :: n != m ==> WaitQ(s2, n) == WaitQ(s1, n)) && WaitQ(s2, m) == WaitQ(s1, m)[1..]
  {
  }

  /** Which of the two a release is. */
  lemma ReleaseIs(x: Sys, m: QueueId)
    requires Releasing(x, m)
    ensures Released(x, Unlock(x, m).0, m, if Waiters(x, m) == [] then None else Some(Waiters(x, m)[0]))
  {
    UnlockReleases(x, m);
    hide Releasing, Released, Unlock, Freed, HandedOver;
    if Waiters(x, m) == [] {
      FreedIs(x, m);
    } else {
      HandedIs(x, m, Waiters(x, m)[0]);
    }
  }

  /** Giving a mutex up leaves every thread at its level, the new owner included, exactly
      when it remembers what the releasing thread is to have without it. */
  lemma ReleaseExact(x: Sys, m: QueueId)
    requires Releasing(x, m) && Right(x)
    ensures Right(Unlock(x, m).0) <==> Mx(x, m).origPrio == LevelWithout(x, x.s.current, m)
  {
    hide Releasing, Right, Released, Unlock, LevelWithout;
    ReleaseIs(x, m);
    ReleasedExact(x, Unlock(x, m).0, m, if Waiters(x, m) == [] then None else Some(Waiters(x, m)[0]));
  }

  lemma UnlockReleases(x: Sys, m: QueueId)
    requires Releasing(x, m)
    ensures Waiters(x, m) == [] ==> Unlock(x, m).0 == Freed(x, m)
    ensures var s1 := Adjust(x.s, x.s.current, Mx(x, m).origPrio);
            Waiters(x, m) != [] && T(s1, Waiters(x, m)[0]).pendedOn.Some? ==>
              Unlock(x, m).0 == HandedOver(x, m, Waiters(x, m)[0])
  {
    ReleaseSched(x, m);
    if Waiters(x, m) != [] {
      FirstIsPended(x, m);
    }
    hide Adjust, Placement, Remove, Wake, Ownership;
    var s1 := Adjust(x.s, x.s.current, Mx(x, m).origPrio);
    assert WaitQ(s1, m) == Waiters(x, m);
  }
}
