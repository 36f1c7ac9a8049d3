/**
 The code of kernel/mutex.c: each mutex an object of its own, on the kernel of
 module SchedulerKernel.  Each call takes its step of module Mutexes, and leaves
 every owner at the right priority exactly under the guard of module MutexRuns.
 */
module MutexKernel {
  import opened DLists
  import opened Lists
  import opened Mutexes
  import MutexRuns
  import opened Scheduler
  import opened SchedulerKernel
  import opened Wrappers

  /** struct k_mutex; it is named by its wait queue. */
  class KMutex {
    const waitQ: QueueId
    var owner: Option<ThreadId>
    var lockCount: nat
    var origPrio: S8

    constructor (w: QueueId)
      ensures waitQ == w && Fields() == Mutex(None, 0, 0)
    {
      waitQ, owner, lockCount, origPrio := w, None, 0, 0;
    }

    function Fields(): Mutex reads this { Mutex(owner, lockCount, origPrio) }
  }

  ghost function Table(all: map<QueueId, KMutex>): map<QueueId, Mutex>
    reads all.Values
  {
    map m | m in all :: all[m].Fields()
  }

  /** No two names for one mutex. */
  ghost predicate Named(all: map<QueueId, KMutex>) { forall m :: m in all ==> all[m].waitQ == m }

  /** The mutexes of the system. */
  class MutexSystem {
    const kernel: Kernel
    const ceiling: S8
    ghost var all: map<QueueId, KMutex>
    ghost var held: map<ThreadId, seq<QueueId>>
    ghost var base: map<ThreadId, int>

    ghost predicate Valid() reads this, kernel, kernel.links { kernel.Wired() && Named(all) }

    ghost predicate Has(mutex: KMutex) reads this, kernel {
      mutex.waitQ in all && all[mutex.waitQ] == mutex && mutex.waitQ in kernel.waitqs
    }

    ghost function View(): Sys reads this, kernel, all.Values {
      Sys(kernel.View(), Table(all), held, base, ceiling)
    }

    constructor (k: Kernel, ceiling: S8)
      requires k.Wired() && Placement(k.View())
      ensures Valid() && kernel == k && all == map[] && MutexRuns.Fresh(View()) && Right(View())
    {
      kernel, this.ceiling := k, ceiling;
      all, held, base := map[], map[], map t | t in k.threads :: k.threads[t].prio as int;
      new;
      hide Placement;
      MutexRuns.FreshRight(View());
    }

    /** z_impl_k_mutex_init: the new mutex disturbs no other. */
    method InitMutex(w: QueueId) returns (mutex: KMutex)
      requires Valid() && w !in kernel.waitqs && w !in all
      modifies this`all, kernel, kernel.links
      ensures Valid() && Has(mutex) && fresh(mutex) && mutex.waitQ == w && mutex.owner.None?
      ensures old(Right(View())) ==> Right(View())
    {
      hide Right, Kernel.Wired;
      ghost var x := View();
      mutex := new KMutex(w);
      kernel.InitQueue(w);
      all := all[w := mutex];
      assert Table(all) == x.mutexes[w := Mutex(None, 0, 0)];
      if Right(x) {
        OneMore(x, View(), w);
      }
    }

    /** adjust_owner_prio. */
    method AdjustOwnerPrio(owner: ThreadId, prio: S8)
      requires kernel.Wired() && Placement(kernel.View()) && owner != kernel.idle
      modifies kernel, kernel.links
      ensures kernel.Wired() && kernel.View() == Adjust(old(kernel.View()), owner, prio) && Placement(kernel.View())
    {
      hide Placement, SetPrio, Kernel.Wired, Kernel.Thread;
      AdjustEffect(kernel.View(), owner, prio);
      kernel.ThreadIs(owner);
      if kernel.Thread(owner).prio != prio {
        var _ := kernel.SetPriority(owner, prio);
      }
    }

    /** z_impl_k_mutex_lock: 0 or -EBUSY, or None when the caller now waits. */
    method LockMutex(mutex: KMutex, timed: bool, noWait: bool) returns (rc: Option<int>)
      requires Valid() && Has(mutex) && Placement(kernel.View()) && Ready(T(kernel.View(), kernel.current))
      requires mutex.owner != Some(kernel.idle)
      requires mutex.lockCount != 0 ==> mutex.owner.Some?
      modifies this`held, kernel, kernel.links, mutex
      ensures Valid() && Has(mutex) && Mx(old(View()), mutex.waitQ) == old(mutex.Fields())
      ensures (View(), rc) == Mutexes.Lock(old(View()), mutex.waitQ, timed, noWait)
      ensures LocksRight(old(View()), mutex.waitQ, timed, noWait, View())
      ensures rc == Some(0)
          <==> mutex.owner == Some(old(kernel.current)) && mutex.lockCount == old(mutex.lockCount) + 1
    {
      hide Right, NoSelfWait, MutexRuns.Guarded, Placement, Kernel.Wired, Pend, Adjust, Table, LocksRight, Ready;
      ghost var x := View();
      var m, t := mutex.waitQ, kernel.current;
      MutexIs(x, mutex);
      LocksRightly(x, m, timed, noWait);
      if mutex.lockCount == 0 || mutex.owner == Some(t) {
        Take(mutex);
        MutexIs(View(), mutex);
        rc := Some(0);
      } else if noWait {
        rc := Some(-EBUSY);
      } else {
        Block(mutex, timed);
        rc := None;
      }
    }

    /** The first part of z_impl_k_mutex_lock: the mutex is free, or the caller's own. */
    method Take(mutex: KMutex)
      requires Valid() && Has(mutex) && (mutex.lockCount == 0 || mutex.owner == Some(kernel.current))
      modifies this`held, mutex
      ensures Valid()
      ensures var x, m, mx := old(View()), mutex.waitQ, old(mutex.Fields());
              View() == x.(mutexes := x.mutexes[m := Mutex(Some(x.s.current), mx.lockCount + 1,
                                                            if mx.lockCount == 0 then Prio(x, x.s.current)
                                                            else mx.origPrio)],
                           held := if mx.lockCount == 0 then x.held[x.s.current := Held(x, x.s.current) + [m]]
                                   else x.held)
    {
      hide Kernel.Wired, Table, Kernel.Thread, Kernel.View;
      kernel.Fields();
      ghost var x := View();
      var t := kernel.current;
      kernel.ThreadIs(t);
      TableBefore(mutex, x.mutexes);
      if mutex.lockCount == 0 {
        held := held[t := Held(x, t) + [mutex.waitQ]];
        mutex.origPrio := kernel.Thread(t).prio;
      }
      mutex.lockCount, mutex.owner := mutex.lockCount + 1, Some(t);
      TableUpdate(mutex, x.mutexes);
    }

    /** The second part: the owner boosted, the caller pended. */
    method Block(mutex: KMutex, timed: bool)
      requires Valid() && Has(mutex) && Placement(kernel.View()) && Ready(T(kernel.View(), kernel.current))
      requires mutex.owner.Some? && mutex.owner != Some(kernel.idle) && mutex.owner != Some(kernel.current)
      modifies kernel, kernel.links
      ensures Valid() && Has(mutex)
      ensures var x, o := old(View()), mutex.owner.value;
              var boosted := NewPrioForInheritance(Prio(x, x.s.current), Prio(x, o), x.ceiling);
              View() == x.(s := Pend(if boosted < Prio(x, o) then Adjust(x.s, o, boosted)
                                     else x.s, x.s.current, Some(mutex.waitQ), timed))
    {
      hide Placement, Adjust, Pend, Kernel.Wired, Table, Kernel.Thread, Good, Kernel.View;
      kernel.Fields();
      ghost var x := View();
      var owner, t := mutex.owner.value, kernel.current;
      kernel.ThreadIs(t);
      kernel.ThreadIs(owner);
      RunningNotPended(x.s);
      var boosted := NewPrioForInheritance(kernel.Thread(t).prio, kernel.Thread(owner).prio, ceiling);
      AdjustEffect(x.s, owner, boosted);
      if boosted < kernel.Thread(owner).prio {
        AdjustOwnerPrio(owner, boosted);
      }
      PlacedGood(kernel.View());
      kernel.Fields();
      PendEffect(kernel.View(), mutex.waitQ, timed);
      kernel.PendOn(t, Some(mutex.waitQ), timed);
      kernel.Fields();
    }

    /** A waiter's timeout: z_thread_timeout takes it out of the queue. */
    method WaiterTimedOut(t: ThreadId, mutex: KMutex)
      requires Valid() && Has(mutex) && Placement(kernel.View()) && T(kernel.View(), t).timeout
      requires T(kernel.View(), t).pendedOn == Some(mutex.waitQ)
      modifies kernel, kernel.links
      ensures Valid() && Has(mutex) && View() == Expired(old(View()), t)
      ensures ExpiresRight(old(View()), t, mutex.waitQ, View())
    {
      hide Right, NoSelfWait, MutexRuns.Guarded, Placement, Kernel.Wired, Expire, Table, ExpiresRight, Kernel.View;
      kernel.Fields();
      ghost var x := View();
      MutexIs(x, mutex);
      ExpiresRightly(x, t, mutex.waitQ);
      ExpireQueues(x.s, t, mutex.waitQ);
      kernel.TimedOut(t);
      kernel.Fields();
    }

    /** The rest of z_impl_k_mutex_lock in that thread, which takes it that the mutex has an owner. */
    method CleanUpAfter(mutex: KMutex)
      requires Valid() && Has(mutex) && Placement(kernel.View()) && mutex.owner.Some?
      requires mutex.owner != Some(kernel.idle)
      modifies kernel, kernel.links
      ensures Valid() && Mx(old(View()), mutex.waitQ).owner.Some? && View() == CleanUp(old(View()), mutex.waitQ)
      ensures CleansUpRight(old(View()), mutex.waitQ, View())
    {
      hide Right, NoSelfWait, MutexRuns.Guarded, Placement, Kernel.Wired, Adjust, Table, CleansUpRight, Kernel.Thread;
      hide Kernel.View;
      kernel.Fields();
      ghost var x := View();
      var m := mutex.waitQ;
      MutexIs(x, mutex);
      CleansUpRightly(x, m);
      var prio := mutex.origPrio;
      var n := kernel.FirstWaiting(m);
      FirstIsHead(kernel.waitqs[m], m + 1);
      if n != Head(m + 1) {
        kernel.ThreadIs(n);
        prio := NewPrioForInheritance(kernel.Thread(n).prio, mutex.origPrio, ceiling);
      }
      AdjustOwnerPrio(mutex.owner.value, prio);
    }

    /** z_impl_k_mutex_unlock. */
    method UnlockMutex(mutex: KMutex) returns (rc: int)
      requires Valid() && Has(mutex) && Placement(kernel.View()) && Ready(T(kernel.View(), kernel.current))
      requires mutex.owner != Some(kernel.idle)
      modifies this`held, kernel, kernel.links, mutex
      ensures Valid() && (View(), rc) == Mutexes.Unlock(old(View()), mutex.waitQ)
      ensures UnlocksRight(old(View()), mutex.waitQ, View())
      ensures rc == 0 <==> old(mutex.owner) == Some(old(kernel.current))
    {
      hide Right, NoSelfWait, MutexRuns.Guarded, Placement, Kernel.Wired, Wake, Adjust, Remove, Table, UnlocksRight;
      hide Ready;
      ghost var x := View();
      MutexIs(x, mutex);
      UnlocksRightly(x, mutex.waitQ);
      if mutex.owner.None? {
        return -EINVAL;
      }
      if mutex.owner.value != kernel.current {
        return -EPERM;
      }
      if mutex.lockCount > 1 {
        TableBefore(mutex, x.mutexes);
        mutex.lockCount := mutex.lockCount - 1;
        TableUpdate(mutex, x.mutexes);
        return 0;
      }
      UnlockIs(x, mutex.waitQ);
      hide Mutexes.Unlock;
      Release(mutex);
      rc := 0;
    }

    /** The first waiter is woken and gets the mutex. */
    method HandOn(mutex: KMutex, n: ThreadId)
      requires Valid() && Has(mutex) && Placement(kernel.View()) && T(kernel.View(), n).pendedOn.Some?
      modifies kernel, kernel.links, mutex
      ensures Valid() && kernel.View() == Wake(old(kernel.View()), n)
      ensures Table(all) == old(Table(all))[mutex.waitQ := old(mutex.Fields()).(owner := Some(n),
          origPrio := T(old(kernel.View()), n).prio)]
    {
      hide Placement, Wake, Kernel.Wired, Table, Kernel.Thread, Kernel.View, T;
      ghost var before := Table(all);
      TableBefore(mutex, before);
      kernel.ThreadIs(n);
      var prio := kernel.Thread(n).prio;
      kernel.UnpendAndReady(n);
      mutex.owner, mutex.origPrio := Some(n), prio;
      TableSame(mutex, before);
    }

    /** Nobody waits: the mutex is free. */
    method LetGo(mutex: KMutex)
      requires Valid() && Has(mutex)
      modifies mutex
      ensures Valid()
      ensures Table(all) == old(Table(all))[mutex.waitQ := old(mutex.Fields()).(owner := None, lockCount := 0)]
    {
      hide Kernel.Wired, Table;
      ghost var before := Table(all);
      TableBefore(mutex, before);
      mutex.owner, mutex.lockCount := None, 0;
      TableSame(mutex, before);
    }

    /** The last lock given up: the owner's priority restored, the mutex handed on. */
    method Release(mutex: KMutex)
      requires Valid() && Has(mutex) && Placement(kernel.View()) && kernel.current != kernel.idle
      modifies this`held, kernel, kernel.links, mutex
      ensures Valid() && View() == Handed(old(View()), mutex.waitQ)
    {
      hide Placement, Adjust, Wake, Remove, Kernel.Wired, Table, Kernel.View, Handed, T;
      kernel.Fields();
      ghost var x := View();
      var m, t := mutex.waitQ, kernel.current;
      MutexIs(x, mutex);
      AdjustEffect(x.s, t, mutex.origPrio);
      AdjustOwnerPrio(t, mutex.origPrio);
      kernel.Fields();
      ghost var s1 := kernel.View();
      var n := kernel.FirstWaiting(m);
      FirstIsHead(kernel.waitqs[m], m + 1);
      held := held[t := Remove(Held(x, t), m)];
      if n == Head(m + 1) {
        HandedToNone(x, m, s1);
        LetGo(mutex);
      } else {
        HeadPends(s1, m);
        HandedToFirst(x, m, s1, n);
        HandOn(mutex, n);
        held := held[n := (if n in held then held[n] else []) + [m]];
      }
    }

    lemma MutexIs(x: Sys, mutex: KMutex)
      requires Has(mutex) && x.mutexes == Table(all)
      ensures mutex.waitQ in x.mutexes && x.mutexes[mutex.waitQ] == Mx(x, mutex.waitQ) == mutex.Fields()
    {
    }

    lemma TableBefore(mutex: KMutex, before: map<QueueId, Mutex>)
      requires Has(mutex) && Named(all) && before == Table(all)
      ensures before.Keys == all.Keys
      ensures forall m :: m in all && m != mutex.waitQ ==> all[m] != mutex && before[m] == all[m].Fields()
    {
    }

    lemma TableSame(mutex: KMutex, before: map<QueueId, Mutex>)
      requires mutex.waitQ in all && all[mutex.waitQ] == mutex && before.Keys == all.Keys
      requires forall m :: m in all && m != mutex.waitQ ==> before[m] == all[m].Fields()
      ensures Table(all) == before[mutex.waitQ := mutex.Fields()]
    {
    }

    /** Writing one mutex changes its own entry only. */
    lemma TableUpdate(mutex: KMutex, before: map<QueueId, Mutex>)
      requires Has(mutex) && before.Keys == all.Keys
      requires forall m :: m in all && m != mutex.waitQ ==> before[m] == all[m].Fields()
      ensures Table(all) == before[mutex.waitQ := mutex.Fields()]
    {
    }
  }

  // ---------------------------------------------------------------- what the calls promise

  /** With inheritance right before, it is right afterwards exactly under the guard. */
  ghost predicate LocksRight(x: Sys, m: QueueId, timed: bool, noWait: bool, x': Sys) {
    Right(x) && NoSelfWait(x) && x.s.current != x.s.idle ==>
      (Right(x') <==> MutexRuns.Guarded(x, MutexRuns.EMutexLock(m, timed, noWait)))
  }

  ghost predicate ExpiresRight(x: Sys, t: ThreadId, m: QueueId, x': Sys) {
    Right(x) && NoSelfWait(x) ==> (Right(x') <==> MutexRuns.Guarded(x, MutexRuns.EMutexExpire(t, m)))
  }

  ghost predicate CleansUpRight(x: Sys, m: QueueId, x': Sys) {
    Right(x) && NoSelfWait(x) ==> (Right(x') <==> MutexRuns.Guarded(x, MutexRuns.EMutexCleanUp(m)))
  }

  ghost predicate UnlocksRight(x: Sys, m: QueueId, x': Sys) {
    Right(x) && NoSelfWait(x) ==> (Right(x') <==> MutexRuns.Guarded(x, MutexRuns.EMutexUnlock(m)))
  }

  lemma LocksRightly(x: Sys, m: QueueId, timed: bool, noWait: bool)
    requires m in x.mutexes && Ready(T(x.s, x.s.current)) && (x.mutexes[m].lockCount != 0 ==> x.mutexes[m].owner.Some?)
    ensures LocksRight(x, m, timed, noWait, Mutexes.Lock(x, m, timed, noWait).0)
  {
    hide Right, NoSelfWait, MutexRuns.Guarded, Mutexes.Lock;
    if Right(x) && NoSelfWait(x) && x.s.current != x.s.idle {
      MutexRuns.LockExact(x, m, timed, noWait);
    }
  }

  lemma ExpiresRightly(x: Sys, t: ThreadId, m: QueueId)
    requires m in x.mutexes && T(x.s, t).timeout && T(x.s, t).pendedOn == Some(m)
    ensures ExpiresRight(x, t, m, Expired(x, t))
  {
    hide Right, NoSelfWait, Expired, MutexRuns.Guarded;
    if Right(x) && NoSelfWait(x) {
      MutexRuns.AfterExact(x, MutexRuns.EMutexExpire(t, m));
    }
  }

  lemma CleansUpRightly(x: Sys, m: QueueId)
    requires m in x.mutexes && Mx(x, m).owner.Some?
    ensures CleansUpRight(x, m, CleanUp(x, m))
  {
    hide Right, NoSelfWait, CleanUp, MutexRuns.Guarded;
    if Right(x) && NoSelfWait(x) {
      MutexRuns.AfterExact(x, MutexRuns.EMutexCleanUp(m));
    }
  }

  lemma UnlocksRightly(x: Sys, m: QueueId)
    requires m in x.mutexes && Ready(T(x.s, x.s.current))
    ensures UnlocksRight(x, m, Mutexes.Unlock(x, m).0)
  {
    hide Right, NoSelfWait, MutexRuns.Guarded, Mutexes.Unlock;
    if Right(x) && NoSelfWait(x) {
      MutexRuns.UnlockExact(x, m);
    }
  }

  /** The last lock given up. */
  ghost function Handed(x: Sys, m: QueueId): Sys {
    var t, mutex := x.s.current, Mx(x, m);
    var s1 := Adjust(x.s, t, mutex.origPrio);
    var held1 := x.held[t := Remove(Held(x, t), m)];
    if WaitQ(s1, m) == [] || T(s1, WaitQ(s1, m)[0]).pendedOn.None? then
      x.(s := s1, held := held1, mutexes := x.mutexes[m := mutex.(owner := None, lockCount := 0)])
    else
      var w := WaitQ(s1, m)[0];
      x.(s := Wake(s1, w), held := held1[w := (if w in held1 then held1[w] else []) + [m]],
         mutexes := x.mutexes[m := mutex.(owner := Some(w), origPrio := T(s1, w).prio)])
  }

  lemma HandedToNone(x: Sys, m: QueueId, s1: Sched)
    requires s1 == Adjust(x.s, x.s.current, Mx(x, m).origPrio) && WaitQ(s1, m) == []
    ensures Handed(x, m) == x.(s := s1, held := x.held[x.s.current := Remove(Held(x, x.s.current), m)],
                               mutexes := x.mutexes[m := Mx(x, m).(owner := None, lockCount := 0)])
  {
  }

  lemma HandedToFirst(x: Sys, m: QueueId, s1: Sched, w: ThreadId)
    requires s1 == Adjust(x.s, x.s.current, Mx(x, m).origPrio) && WaitQ(s1, m) != [] && WaitQ(s1, m)[0] == w
    requires T(s1, w).pendedOn.Some?
    ensures var held1 := x.held[x.s.current := Remove(Held(x, x.s.current), m)];
            Handed(x, m) == x.(s := Wake(s1, w), held := held1[w := (if w in held1 then held1[w] else []) + [m]],
                               mutexes := x.mutexes[m := Mx(x, m).(owner := Some(w), origPrio := T(s1, w).prio)])
  {
    hide Wake, Adjust, Remove;
  }

  lemma UnlockIs(x: Sys, m: QueueId)
    requires Mx(x, m).owner == Some(x.s.current) && Mx(x, m).lockCount <= 1
    ensures Mutexes.Unlock(x, m) == (Handed(x, m), 0)
  {
    hide Adjust, Wake, Remove;
  }

  lemma ExpireQueues(s: Sched, t: ThreadId, m: QueueId)
    requires Placement(s) && T(s, t).timeout && T(s, t).pendedOn == Some(m) && m in s.waitqs
    ensures var s' := Expire(s, t); Placement(s') && s'.idle == s.idle && m in s'.waitqs
  {
    ExpirePlaces(s, t);
    ExpireEffect(s, t);
    hide Placement, Expire, Remove;
  }

  // ---------------------------------------------------------------- one more mutex

  lemma QueueInit(s: Sched, w: QueueId)
    requires Placement(s) && w !in s.waitqs
    ensures Placement(s.(waitqs := s.waitqs[w := []]))
  {
    var s' := s.(waitqs := s.waitqs[w := []]);
    assert forall n :: WaitQ(s', n) == WaitQ(s, n);
    hide Count, Sorted;
    FrameKeepsSorted(s, s', s.runq, 0);
  }

  ghost predicate Added(x: Sys, x': Sys, w: QueueId) {
    && w !in x.s.waitqs && w !in x.mutexes
    && x' == x.(s := x.s.(waitqs := x.s.waitqs[w := []]), mutexes := x.mutexes[w := Mutex(None, 0, 0)])
  }

  lemma AddedOwnership(x: Sys, x': Sys, w: QueueId)
    requires Ownership(x) && Added(x, x', w)
    ensures Ownership(x')
  {
    assert forall n :: WaitQ(x'.s, n) == WaitQ(x.s, n);
    forall t: ThreadId, n: QueueId
      ensures Count(Held(x', t), n) == Owns(x', t, n)
    {
      assert Count(Held(x, t), n) == Owns(x, t, n);
    }
    hide Count, Held, Owns;
    OwnershipFrom(x');
  }

  lemma AddedOrdered(x: Sys, x': Sys, w: QueueId)
    requires Ordered(x) && Added(x, x', w)
    ensures Ordered(x')
  {
    assert forall n :: WaitQ(x'.s, n) == WaitQ(x.s, n);
    assert Waiters(x', w) == [];
    forall n | n in x'.mutexes
      ensures Sorted(x'.s, Waiters(x', n))
    {
      if n != w {
        assert Sorted(x.s, Waiters(x, n));
        hide Sorted;
        SortedByPrioOnly(x.s, x'.s, Waiters(x, n));
      }
    }
  }

  lemma AddedLevel(x: Sys, x': Sys, w: QueueId, u: ThreadId)
    requires Added(x, x', w)
    ensures Level(x', u) == Level(x, u)
  {
    assert forall n :: Boost(x', n) == Boost(x, n);
    hide Boost, Level;
    LevelSame(x, x', u);
  }

  lemma OneMore(x: Sys, x': Sys, w: QueueId)
    requires Right(x) && Added(x, x', w)
    ensures Right(x')
  {
    hide Placement, Ownership, Ordered, Level;
    QueueInit(x.s, w);
    AddedOwnership(x, x', w);
    AddedOrdered(x, x', w);
    forall u
      ensures Prio(x', u) == Level(x', u)
    {
      AddedLevel(x, x', w, u);
    }
  }
}
