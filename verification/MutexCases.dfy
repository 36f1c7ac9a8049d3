/**
 Special cases of priority inheritance: mutexes that nest, a single mutex, the
 clean-up after a timeout, and the runs that break the promise.
 */
module MutexCases {
  import opened Lists
  import opened Mutexes
  import opened MutexRuns
  import opened Scheduler
  import opened Wrappers

  // ---------------------------------------------------------------- nesting

  /** Each mutex remembers what the ones taken before it make of the thread. */
  ghost predicate Remembers(x: Sys, ms: seq<QueueId>, base: int) {
    forall i :: 0 <= i < |ms| ==> Mx(x, ms[i]).origPrio == Wanted(x, ms[..i], base)
  }

  ghost predicate StackedAt(x: Sys, t: ThreadId) { Remembers(x, Held(x, t), Base(x, t)) }

  ghost predicate Stacked(x: Sys) { forall t :: StackedAt(x, t) }

  /** The waiters for a mutex that is not the last its owner took ask for what they did. */
  ghost predicate Steady(x: Sys, x': Sys) {
    forall n :: n in x.mutexes && x.mutexes[n].owner.Some? && !Top(x, x.mutexes[n].owner.value, n) ==>
      Boost(x', n) == Boost(x, n)
  }

  /** Mutexes are given up in reverse order, and a thread is boosted only through the last one it took. */
  ghost predicate Nested(x: Sys, e: MutexRuns.Event)
    requires Legal(x, e)
  {
    if e.EMutexUnlock? && Releases(x, e.m) then Top(x, x.s.current, e.m) else Steady(x, After(x, e))
  }

  lemma BelowTop(x: Sys, t: ThreadId, i: nat, k: nat)
    requires Ownership(x) && k < i < |Held(x, t)|
    ensures var m := Held(x, t)[k]; m in x.mutexes && x.mutexes[m].owner == Some(t) && !Top(x, t, m)
  {
    var ms := Held(x, t);
    HeldIs(x, t, ms[k]);
    OnlyOnce(ms, k, |ms| - 1);
  }

  lemma StackedFrame(x: Sys, x': Sys, t: ThreadId)
    requires Ownership(x) && StackedAt(x, t) && Steady(x, x') && Held(x', t) == Held(x, t)
    requires (Held(x, t) != [] ==> Base(x', t) == Base(x, t)) && forall m :: Mx(x', m).origPrio == Mx(x, m).origPrio
    ensures StackedAt(x', t)
  {
    var ms := Held(x, t);
    forall i | 0 <= i < |ms|
      ensures Mx(x', ms[i]).origPrio == Wanted(x', ms[..i], Base(x, t))
    {
      forall m | m in ms[..i]
        ensures Boost(x', m) == Boost(x, m)
      {
        var k :| 0 <= k < i && ms[k] == m;
        BelowTop(x, t, i, k);
      }
      hide Boost, Wanted, Ownership, Steady, Mx;
      WantedFrame(x, x', ms[..i], Base(x, t));
    }
  }

  /** A mutex taken at the priority the others make of the thread. */
  lemma StackedPush(x: Sys, x': Sys, t: ThreadId, m: QueueId, prio: int)
    requires StackedAt(x, t) && Held(x', t) == Held(x, t) + [m] && Base(x', t) == Base(x, t)
    requires Mx(x', m).origPrio == prio == Level(x, t)
    requires forall n :: n in Held(x, t) ==> Boost(x', n) == Boost(x, n) && Mx(x', n).origPrio == Mx(x, n).origPrio
    ensures StackedAt(x', t)
  {
    var ms, base := Held(x, t), Base(x, t);
    forall i | 0 <= i < |ms| + 1
      ensures Mx(x', (ms + [m])[i]).origPrio == Wanted(x', (ms + [m])[..i], base)
    {
      assert (ms + [m])[..i] == ms[..i];
      assert ms[..|ms|] == ms;
      forall n | n in ms[..i]
        ensures Boost(x', n) == Boost(x, n)
      {
        assert n in ms;
      }
      hide Boost, Wanted, Mx;
      WantedFrame(x, x', ms[..i], base);
    }
  }

  lemma TakenStacked(x: Sys, m: QueueId, u: ThreadId)
    requires Right(x) && StackedAt(x, u) && m in x.mutexes && x.mutexes[m].owner.None?
    ensures StackedAt(Taken(x, m), u)
  {
    var x' := Taken(x, m);
    LevelOf(x, u);
    assert forall n :: Boost(x', n) == Boost(x, n);
    forall n | n in Held(x, u)
      ensures Mx(x', n).origPrio == Mx(x, n).origPrio
    {
      HeldIs(x, u, n);
    }
    hide Right, Boost, Level, Wanted;
    if u == x.s.current {
      StackedPush(x, x', u, m, Prio(x, u));
    } else {
      RemembersFrame(x, x', Held(x, u), Base(x, u));
    }
  }

  lemma RemembersFrame(x: Sys, x': Sys, ms: seq<QueueId>, base: int)
    requires Remembers(x, ms, base)
    requires forall n :: n in ms ==> Boost(x', n) == Boost(x, n) && Mx(x', n).origPrio == Mx(x, n).origPrio
    ensures Remembers(x', ms, base)
  {
    hide Boost, Wanted, Mx;
    forall i | 0 <= i < |ms|
      ensures Mx(x', ms[i]).origPrio == Wanted(x', ms[..i], base)
    {
      assert ms[i] in ms && forall n :: n in ms[..i] ==> n in ms;
      WantedFrame(x, x', ms[..i], base);
    }
  }

  lemma RemembersBelow(x: Sys, ms: seq<QueueId>, base: int)
    requires Remembers(x, ms, base) && ms != []
    ensures Remembers(x, ms[..|ms| - 1], base)
  {
    hide Wanted;
    var below := ms[..|ms| - 1];
    forall i | 0 <= i < |below|
      ensures Mx(x, below[i]).origPrio == Wanted(x, below[..i], base)
    {
      assert below[..i] == ms[..i];
    }
  }

  /** The releasing thread keeps its other mutexes, ... */
  lemma ReleasedStack(x: Sys, x': Sys, m: QueueId, w: Option<ThreadId>)
    requires Releasing(x, m) && Top(x, x.s.current, m) && StackedAt(x, x.s.current) && Released(x, x', m, w)
    ensures StackedAt(x', x.s.current)
  {
    var t := x.s.current;
    var ms := Held(x, t);
    ReleaseFacts(x, m);
    assert Placement(x.s);
    hide Releasing, Placement, Boost, Remembers, Remove, Count, FirstLeft;
    RemoveLast(ms, m);
    RemoveMember(ms, m, m);
    var below := ms[..|ms| - 1];
    RemembersBelow(x, ms, Base(x, t));
    forall n | n in below
      ensures Boost(x', n) == Boost(x, n) && Mx(x', n).origPrio == Mx(x, n).origPrio
    {
      ReleasedOther(x, x', m, w, n);
    }
    RemembersFrame(x, x', below, Base(x, t));
  }

  /** ... the new owner gets one more, and the others are not concerned. */
  lemma ReleasedStacks(x: Sys, x': Sys, m: QueueId, w: Option<ThreadId>, u: ThreadId)
    requires Releasing(x, m) && Right(x) && StackedAt(x, u) && Released(x, x', m, w) && u != x.s.current
    ensures StackedAt(x', u)
  {
    ReleaseFacts(x, m);
    LevelOf(x, u);
    HeldIs(x, u, m);
    forall n | n in Held(x, u)
      ensures Boost(x', n) == Boost(x, n) && Mx(x', n).origPrio == Mx(x, n).origPrio
    {
      ReleasedOther(x, x', m, w, n);
      hide Releasing, Right, Boost, FirstLeft, Placement, Remove;
    }
    hide Releasing, Right, Boost, Level, Wanted, FirstLeft, Placement, Remove;
    if w == Some(u) {
      StackedPush(x, x', u, m, Prio(x, u));
    } else {
      RemembersFrame(x, x', Held(x, u), Base(x, u));
    }
  }

  lemma ReleasedStacked(x: Sys, m: QueueId)
    requires Releasing(x, m) && Right(x) && Stacked(x) && Top(x, x.s.current, m)
    ensures Stacked(Unlock(x, m).0)
  {
    hide Releasing, Right, Released, Unlock, StackedAt, Top;
    var x' := Unlock(x, m).0;
    var w := if Waiters(x, m) == [] then None else Some(Waiters(x, m)[0]);
    ReleaseIs(x, m);
    ReleasedStack(x, x', m, w);
    forall u | u != x.s.current
      ensures StackedAt(x', u)
    {
      ReleasedStacks(x, x', m, w, u);
    }
  }

  /** Only locking and unlocking touch mutexes and what threads hold. */
  lemma OtherTable(x: Sys, e: MutexRuns.Event)
    requires Legal(x, e) && !e.EMutexLock? && !e.EMutexUnlock?
    ensures var x' := After(x, e);
            && x'.mutexes == x.mutexes && x'.held == x.held
            && forall u :: Held(x, u) != [] ==> Base(x', u) == Base(x, u)
  {
    hide Expire, Adjust, Step, Restored;
  }

  lemma LockTable(x: Sys, e: MutexRuns.Event)
    requires Books(x) && Legal(x, e) && e.EMutexLock? && Mx(x, e.m).lockCount != 0
    ensures var x' := After(x, e);
            && x'.held == x.held && x'.base == x.base
            && (x'.mutexes == x.mutexes || x'.mutexes == Recounted(x, e.m, Mx(x, e.m).lockCount + 1).mutexes)
  {
    hide Books, Lock, BlockedState;
    LockNow(x, e.m, e.timed, e.noWait);
    FreeIffUnlocked(x, e.m);
    if Mx(x, e.m).owner != Some(x.s.current) {
      LockBlocks(x, e.m, e.timed);
    }
  }

  lemma UnlockTable(x: Sys, e: MutexRuns.Event)
    requires Books(x) && Legal(x, e) && e.EMutexUnlock? && !Releases(x, e.m)
    ensures After(x, e) == x || (Mx(x, e.m).lockCount > 1 && After(x, e) == Recounted(x, e.m, Mx(x, e.m).lockCount - 1))
  {
    hide Books, Unlock;
    UnlockNow(x, e.m);
    FreeIffUnlocked(x, e.m);
  }

  /** What events other than taking and giving up a mutex leave of a thread's stack. */
  lemma AfterRest(x: Sys, e: MutexRuns.Event, u: ThreadId)
    requires Books(x) && Legal(x, e) && !(e.EMutexUnlock? && Releases(x, e.m))
    requires !(e.EMutexLock? && Mx(x, e.m).lockCount == 0)
    ensures var x' := After(x, e);
            && Held(x', u) == Held(x, u) && (Held(x, u) != [] ==> Base(x', u) == Base(x, u))
            && forall m :: Mx(x', m).origPrio == Mx(x, m).origPrio && Mx(x', m).owner == Mx(x, m).owner
  {
    hide Books, After;
    if e.EMutexLock? {
      LockTable(x, e);
    } else if e.EMutexUnlock? {
      UnlockTable(x, e);
    } else {
      OtherTable(x, e);
    }
  }

  lemma AfterStacked(x: Sys, e: MutexRuns.Event)
    requires Right(x) && NoSelfWait(x) && Stacked(x) && Legal(x, e) && Nested(x, e)
    ensures Stacked(After(x, e))
  {
    BooksOf(x);
    OwnershipOf(x);
    if e.EMutexUnlock? && Releases(x, e.m) {
      hide Books, Ownership, Ordered, Levels, Stacked, NoSelfWait;
      ReleasedStacked(x, e.m);
    } else if e.EMutexLock? && Mx(x, e.m).lockCount == 0 {
      FreeIffUnlocked(x, e.m);
      LockNow(x, e.m, e.timed, e.noWait);
      hide Right, Books, Ownership, StackedAt, NoSelfWait, Lock;
      forall u
        ensures StackedAt(Taken(x, e.m), u)
      {
        TakenStacked(x, e.m, u);
      }
    } else {
      hide Right, Books, Ownership, StackedAt, NoSelfWait, After, Legal, Steady;
      forall u
        ensures StackedAt(After(x, e), u)
      {
        AfterRest(x, e, u);
        StackedFrame(x, After(x, e), u);
      }
    }
  }

  /** The last mutex of a nest remembers what the others make of the thread. */
  lemma NestedRelease(x: Sys, m: QueueId)
    requires Ownership(x) && Stacked(x) && Releases(x, m) && Top(x, x.s.current, m)
    ensures Mx(x, m).origPrio == LevelWithout(x, x.s.current, m)
  {
    var t := x.s.current;
    HeldOnce(x, t, m);
    RemoveLast(Held(x, t), m);
    assert StackedAt(x, t);
    hide Ownership, Wanted, Remove, Count;
  }

  ghost predicate NestedRun(x: Sys, es: seq<MutexRuns.Event>)
    requires LegalRun(x, es)
    decreases |es|
  {
    es == [] || (Nested(x, es[0]) && NestedRun(After(x, es[0]), es[1..]))
  }

  /** Every event but the releases is within its guard. */
  ghost predicate GuardedElse(x: Sys, es: seq<MutexRuns.Event>)
    requires LegalRun(x, es)
    decreases |es|
  {
    es == [] || ((es[0].EMutexUnlock? || Guarded(x, es[0])) && GuardedElse(After(x, es[0]), es[1..]))
  }

  /** Through every nested run releases keep the promise by themselves. */
  lemma {:induction false} NestingSuffices(x: Sys, es: seq<MutexRuns.Event>)
    requires Right(x) && NoSelfWait(x) && Stacked(x) && LegalRun(x, es) && NestedRun(x, es)
    ensures AlwaysRight(x, es) <==> GuardedElse(x, es)
    decreases |es|
  {
    if es != [] {
      BooksOf(x);
      OwnershipOf(x);
      AfterExact(x, es[0]);
      AfterBooks(x, es[0]);
      AfterStacked(x, es[0]);
      if es[0].EMutexUnlock? && Releases(x, es[0].m) {
        NestedRelease(x, es[0].m);
      }
      hide Right, Books, Ownership, NoSelfWait, Stacked, After, Legal, LevelWithout, Nested;
      if Guarded(x, es[0]) {
        NestingSuffices(After(x, es[0]), es[1..]);
      }
    }
  }

  // ---------------------------------------------------------------- one mutex

  /** What is left of the guards when there is only one mutex: no word about
      nesting or about owners that wait, only the ceiling, waiters that go without
      a clean-up and priorities given from outside. */
  predicate PlainGuard(x: Sys, e: MutexRuns.Event) {
    match e
    case EMutexLock(_, _, _) => true
    case EMutexUnlock(_) => true
    case EMutexTimeout(t, m) =>
      Mx(x, m).owner.Some? ==> Remove(Waiters(x, m), t) == [] || Base(x, Mx(x, m).owner.value) >= x.ceiling
    case _ => Guarded(x, e)
  }

  lemma OnlyMutex(x: Sys, o: ThreadId, m: QueueId)
    requires Ownership(x) && x.mutexes.Keys == {m} && Mx(x, m).owner == Some(o)
    ensures Held(x, o) == [m]
  {
    HeldOnce(x, o, m);
    var ms := Held(x, o);
    forall k | 0 <= k < |ms|
      ensures ms[k] == m
    {
      HeldIs(x, o, ms[k]);
    }
    if |ms| > 1 {
      OnlyOnce(ms, 0, 1);
    }
  }

  lemma OnlyLevel(x: Sys, o: ThreadId, m: QueueId)
    requires Ownership(x) && Grounded(x) && x.mutexes.Keys == {m} && Mx(x, m).owner == Some(o)
    ensures LevelWithout(x, o, m) == Base(x, o) == Mx(x, m).origPrio && Level(x, o) == Raised(Base(x, o), Boost(x, m))
  {
    OnlyMutex(x, o, m);
    assert GroundedAt(x, o);
    LevelSplit(x, o, m);
    assert Remove([m], m) == [];
    hide Ownership, Boost;
  }

  lemma RestoredArithmetic(base: int, best: int, ceiling: int)
    ensures NewPrioForInheritance(best, base, ceiling) == Min(base, Ceil(best, ceiling)) <==> base >= ceiling
  {
  }

  lemma OneMutexTimeout(x: Sys, m: QueueId, t: ThreadId, o: ThreadId)
    requires Ownership(x) && Grounded(x) && x.mutexes.Keys == {m} && Mx(x, m).owner == Some(o)
    ensures RestoredTo(x, t, m) == LevelAfter(x, t, m) <==> Remove(Waiters(x, m), t) == [] || Base(x, o) >= x.ceiling
  {
    OnlyLevel(x, o, m);
    var rest := Remove(Waiters(x, m), t);
    RestoredArithmetic(Base(x, o), if rest == [] then 0 else Prio(x, rest[0]), x.ceiling);
    hide Ownership, Remove, Grounded, LevelWithout;
  }

  /** With one mutex in play the nesting takes care of itself. */
  lemma OneMutexGuards(x: Sys, m: QueueId, e: MutexRuns.Event)
    requires Books(x) && NoSelfWait(x) && Grounded(x) && x.mutexes.Keys == {m} && Legal(x, e)
    ensures Guarded(x, e) <==> PlainGuard(x, e)
  {
    hide Placement, Ownership, Grounded, Remove, BoostedPrio, LevelWithout, OutsideGuard, Outside, Restored;
    hide NoDifference, RestoredTo, LevelAfter;
    if x.mutexes[m].owner.Some? {
      var o := x.mutexes[m].owner.value;
      OnlyLevel(x, o, m);
      assert Unblocked(x, o);
      if e.EMutexTimeout? {
        OneMutexTimeout(x, m, e.t, o);
      }
    }
  }

  lemma OneMutexFirst(x: Sys, m: QueueId, e: MutexRuns.Event)
    requires Ownership(x) && x.mutexes.Keys == {m} && Legal(x, e)
    ensures FirstLast(x, e)
  {
    if e.EMutexUnlock? && Releases(x, e.m) {
      OnlyMutex(x, x.s.current, m);
    }
    hide Ownership;
  }

  lemma AfterKeys(x: Sys, e: MutexRuns.Event)
    requires Legal(x, e)
    ensures After(x, e).mutexes.Keys == x.mutexes.Keys
  {
    hide Pend, Adjust, Wake, Expire, Step, Remove, Restored;
  }

  ghost predicate PlainRun(x: Sys, es: seq<MutexRuns.Event>)
    requires LegalRun(x, es)
    decreases |es|
  {
    es == [] || (PlainGuard(x, es[0]) && PlainRun(After(x, es[0]), es[1..]))
  }

  lemma {:induction false} OneMutexRun(x: Sys, m: QueueId, es: seq<MutexRuns.Event>)
    requires Right(x) && NoSelfWait(x) && Grounded(x) && x.mutexes.Keys == {m} && LegalRun(x, es)
    ensures AlwaysRight(x, es) <==> PlainRun(x, es)
    decreases |es|
  {
    if es != [] {
      BooksOf(x);
      OwnershipOf(x);
      OneMutexGuards(x, m, es[0]);
      OneMutexFirst(x, m, es[0]);
      AfterExact(x, es[0]);
      AfterBooks(x, es[0]);
      AfterGrounded(x, es[0]);
      AfterKeys(x, es[0]);
      hide Right, Books, Ownership, NoSelfWait, Grounded, After, Legal, Guarded, PlainGuard, FirstLast;
      if Guarded(x, es[0]) {
        OneMutexRun(After(x, es[0]), m, es[1..]);
      }
    }
  }

  // ---------------------------------------------------------------- the clean-up after a timeout

  /** A clean-up puts the owner of the only mutex at its level, whatever happened since the
      timeout, exactly when nobody waits or the owner's own priority is not above the ceiling. */
  lemma CleanedUp(x: Sys, m: QueueId, o: ThreadId)
    requires Books(x) && NoSelfWait(x) && Grounded(x) && x.mutexes.Keys == {m} && Mx(x, m).owner == Some(o)
    ensures var x' := CleanUp(x, m); Prio(x', o) == Level(x', o) <==> Waiters(x, m) == [] || Base(x, o) >= x.ceiling
  {
    OnlyLevel(x, o, m);
    OwnerFacts(x, m, o);
    var prio := Restored(x.s, m, Mx(x, m).origPrio, x.ceiling);
    RestoredArithmetic(Base(x, o), if Waiters(x, m) == [] then 0 else Prio(x, Waiters(x, m)[0]), x.ceiling);
    hide Books, Adjust, Level, Moved, NoSelfWait, Grounded;
    AdjustMoves(x, o, prio);
    OwnLevel(x, CleanUp(x, m), o);
  }

  /** So with one mutex, and timeouts and clean-ups apart, an owner is right again after each clean-up. */
  lemma {:induction false} CleanedUpAgain(x: Sys, m: QueueId, es: seq<MutexRuns.Event>, o: ThreadId)
    requires Books(x) && NoSelfWait(x) && Grounded(x) && x.mutexes.Keys == {m} && LegalRun(x, es)
    requires Mx(MutexRuns.Run(x, es), m).owner == Some(o)
    ensures var y := MutexRuns.Run(x, es);
            Prio(CleanUp(y, m), o) == Level(CleanUp(y, m), o) <==> Waiters(y, m) == [] || Base(y, o) >= y.ceiling
    decreases |es|
  {
    if es == [] {
      CleanedUp(x, m, o);
    } else {
      OwnershipOf(x);
      OneMutexFirst(x, m, es[0]);
      AfterBooks(x, es[0]);
      AfterGrounded(x, es[0]);
      AfterKeys(x, es[0]);
      hide Books, Ownership, NoSelfWait, Grounded, After, Legal, FirstLast;
      CleanedUpAgain(After(x, es[0]), m, es[1..], o);
    }
  }

  /** An event leaves a mutex without an owner exactly when it gives the mutex up with nobody
      waiting, or finds it so and does not lock it. */
  lemma NoOwnerExact(x: Sys, e: MutexRuns.Event, m: QueueId)
    requires Books(x) && Legal(x, e) && m in x.mutexes
    ensures Mx(After(x, e), m).owner.None?
       <==> if x.mutexes[m].owner.None? then !(e.EMutexLock? && e.m == m)
            else e == EMutexUnlock(m) && Releases(x, m) && Waiters(x, m) == []
  {
    FreeIffUnlocked(x, m);
    if e.EMutexLock? && Mx(x, e.m).lockCount == 0 {
      FreeIffUnlocked(x, e.m);
      LockNow(x, e.m, e.timed, e.noWait);
      hide Books, Lock;
    } else if e.EMutexUnlock? && Releases(x, e.m) {
      ReleaseIs(x, e.m);
      hide Books, Unlock, RestoredPrio, FirstLeft, Placement, Remove;
    } else {
      hide Books, After;
      AfterRest(x, e, 0);
    }
  }

  // ---------------------------------------------------------------- an owner above the ceiling

  /** Thread 1, of priority -10, owns mutex 0 under a ceiling of -5; threads 2 and 3 wait for it. */
  function AboveCeiling(): Sys {
    var running := Tcb(-10, 0, false, false, false, false, true, false, None);
    var waiting := Tcb(3, 0, false, true, false, false, false, true, Some(0));
    Sys(Sched(map[0 := running.(prio := 15, queued := false), 1 := running, 2 := waiting, 3 := waiting.(prio := 4)],
              [1], map[0 := [2, 3]], 0, 1, 1, None, -20),
        map[0 := Mutex(Some(1), 1, -10)], map[1 := [0]],
        map[0 := 15, 1 := -10, 2 := 3, 3 := 4], -5)
  }

  lemma AboveCeilingLists()
    ensures InLists(AboveCeiling().s)
  {
    var s := AboveCeiling().s;
    forall t: ThreadId
      ensures Count(s.runq, t) == One(T(s, t).queued)
    {
      assert [1][1..] == [];
    }
    forall w: QueueId, t: ThreadId
      ensures Count(WaitQ(s, w), t) == One(T(s, t).pendedOn == Some(w))
    {
      assert [2, 3][1..] == [3] && [3][1..] == [];
      assert Count([3], t) == One(t == 3);
    }
    hide Count;
  }

  lemma AboveCeilingSorted()
    ensures Sorted(AboveCeiling().s, [2, 3]) && Sorted(AboveCeiling().s, [1])
  {
    assert [1][1..] == [] && [2, 3][1..] == [3] && [3][1..] == [];
  }

  lemma AboveCeilingPlaced()
    ensures Placement(AboveCeiling().s)
  {
    AboveCeilingLists();
    AboveCeilingSorted();
    hide InLists, Sorted;
  }

  lemma AboveCeilingOwned()
    ensures Ownership(AboveCeiling())
  {
    var x := AboveCeiling();
    forall t: ThreadId, m: QueueId
      ensures Count(Held(x, t), m) == Owns(x, t, m)
    {
      assert [0][1..] == [];
    }
    hide Count, Held;
  }

  lemma AboveCeilingRight()
    ensures Right(AboveCeiling())
  {
    var x := AboveCeiling();
    AboveCeilingPlaced();
    AboveCeilingSorted();
    AboveCeilingOwned();
    hide Placement, Ownership, Sorted;
    assert [0][..0] == [] && Boost(x, 0) == Some(3);
    assert Wanted(x, [], -10) == -10;
  }

  lemma AboveCeilingFacts()
    ensures var x := AboveCeiling();
            && NoSelfWait(x) && Top(x, 1, 0) && 0 in x.mutexes && x.mutexes[0] == Mx(x, 0) == Mutex(Some(1), 1, -10)
            && x.ceiling == -5
            && Waiters(x, 0) == [2, 3] && Prio(x, 3) == 4 && Base(x, 1) == -10 && Unblocked(x, 1) && x.s.idle == 0
            && T(x.s, 2).timeout && T(x.s, 2).pendedOn == Some(0)
            && Remove([2, 3], 2) == [3]
  {
    assert [2, 3][1..] == [3];
  }

  /** When thread 2 gives up, thread 1 is left at the ceiling, below the priority it had before anyone waited. */
  lemma CeilingBroken()
    ensures var x := AboveCeiling();
            && Right(x) && NoSelfWait(x) && T(x.s, 2).timeout && WaitsFor(x, 2, 0) && Mx(x, 0).owner == Some(1)
            && Base(x, 1) == -10 && Prio(TimedOut(x, 2, 0), 1) == -5 && !Right(TimedOut(x, 2, 0))
  {
    hide Books, Ordered, Levels, TimedOut, Expire, Remove, AboveCeiling, NoSelfWait, Top, Base, Waiters, Unblocked, Mx;
    hide Absorbs, Moved, LevelAfter;
    var x := AboveCeiling();
    AboveCeilingRight();
    AboveCeilingFacts();
    TimedOutExact(x, 2, 0);
    TimedOutMoves(x, 2, 0, 1);
    CeilingLevel();
  }

  lemma CeilingLevel()
    ensures LevelAfter(AboveCeiling(), 2, 0) == -10
  {
    var x := AboveCeiling();
    AboveCeilingFacts();
    assert Remove([0], 0) == [];
  }

  /** Threads 2 and 3 time out; thread 1 unlocks before either has cleaned up, and they find no owner. */
  lemma CleanUpTooLate()
    ensures var es := [EMutexExpire(2, 0), EMutexExpire(3, 0), EMutexUnlock(0)];
            LegalRun(AboveCeiling(), es) && Mx(MutexRuns.Run(AboveCeiling(), es), 0).owner.None?
  {
    AboveCeilingRight();
    AboveCeilingFacts();
    AboveCeilingTimes();
    BooksOf(AboveCeiling());
    hide Right, Books, NoSelfWait, AboveCeiling, Waiters, Ready;
    BothTimeOut(AboveCeiling());
  }

  lemma BothTimeOut(x: Sys)
    requires Books(x) && NoSelfWait(x) && 0 in x.mutexes && x.mutexes[0] == Mutex(Some(x.s.current), 1, -10)
    requires Ready(T(x.s, x.s.current))
    requires Waiters(x, 0) == [2, 3] && x.s.current != 2 && x.s.current != 3 && Remove([2, 3], 2) == [3]
    requires Remove([3], 3) == []
    requires T(x.s, 2).timeout && T(x.s, 2).pendedOn == Some(0) && T(x.s, 3).timeout && T(x.s, 3).pendedOn == Some(0)
    ensures var es := [EMutexExpire(2, 0), EMutexExpire(3, 0), EMutexUnlock(0)];
            LegalRun(x, es) && Mx(MutexRuns.Run(x, es), 0).owner.None?
  {
    hide Ownership, NoSelfWait, Expire, Placement;
    var x1 := Expired(x, 2);
    ExpireLeaves(x, 2, 0);
    ExpiredBooks(x, 2, 0);
    ExpireCurrent(x.s, 2);
    var x2 := Expired(x1, 3);
    ExpireLeaves(x1, 3, 0);
    ExpiredBooks(x1, 3, 0);
    ExpireCurrent(x1.s, 3);
    NoOwnerExact(x2, EMutexUnlock(0), 0);
    hide Books, Left;
    LateRun(x, x1, x2);
  }

  lemma AboveCeilingTimes()
    ensures var x := AboveCeiling();
            && x.s.current == 1 && Ready(T(x.s, 1)) && T(x.s, 3).timeout && T(x.s, 3).pendedOn == Some(0)
            && Remove([3], 3) == []
  {
  }

  lemma ExpireCurrent(s: Sched, t: ThreadId)
    requires T(s, t).pendedOn.Some?
    ensures Expire(s, t).current == s.current
  {
    hide Expire;
    ExpireEffect(s, t);
  }

  lemma LateRun(x: Sys, x1: Sys, x2: Sys)
    requires x1 == Expired(x, 2) && x2 == Expired(x1, 3)
    requires Legal(x, EMutexExpire(2, 0)) && Legal(x1, EMutexExpire(3, 0)) && Legal(x2, EMutexUnlock(0))
    ensures var es := [EMutexExpire(2, 0), EMutexExpire(3, 0), EMutexUnlock(0)];
            LegalRun(x, es) && MutexRuns.Run(x, es) == Unlock(x2, 0).0
  {
    var es := [EMutexExpire(2, 0), EMutexExpire(3, 0), EMutexUnlock(0)];
    hide Expire, Unlock;
    assert es[1..] == [EMutexExpire(3, 0), EMutexUnlock(0)] && es[1..][1..] == [EMutexUnlock(0)];
    assert es[1..][1..][1..] == [];
  }

  // ---------------------------------------------------------------- owners that wait, and mutexes given up early

  /** Thread 2, of priority 5, waits for mutex 11, and thread 1, whose own priority is 8, runs at 5
      because it owns that mutex; thread 3 is ready too. */
  function Inheriting(current: ThreadId, prio: int): Sched {
    var ready := Tcb(5, 0, false, false, false, false, true, false, None);
    Sched(map[0 := ready.(prio := 15, queued := false), 1 := ready, 3 := ready.(prio := prio),
              2 := ready.(pending := true, queued := false, pendedOn := Some(11))],
          if prio < 5 then [3, 1] else [1, 3], map[11 := [2]], 0, current, current, None, -20)
  }

  lemma PairFacts(s: Sched, a: ThreadId, b: ThreadId, t: ThreadId)
    ensures Count([a], t) == One(t == a) && Count([a, b], t) == One(t == a) + One(t == b)
    ensures Sorted(s, [a]) && (T(s, a).prio <= T(s, b).prio ==> Sorted(s, [a, b]))
  {
    assert [a, b][1..] == [b] && [b][1..] == [] && [a][1..] == [];
    assert Count([b], t) == One(t == b);
  }

  lemma InheritingLists(current: ThreadId, prio: int)
    ensures InLists(Inheriting(current, prio))
  {
    var s := Inheriting(current, prio);
    hide Count;
    forall t: ThreadId
      ensures Count(s.runq, t) == One(T(s, t).queued)
    {
      PairFacts(s, 1, 3, t);
      PairFacts(s, 3, 1, t);
    }
    forall w: QueueId, t: ThreadId
      ensures Count(WaitQ(s, w), t) == One(T(s, t).pendedOn == Some(w))
    {
      PairFacts(s, 2, 2, t);
      assert Count([], t) == 0 by { NoneIn(t); }
    }
  }

  lemma NoneIn(t: ThreadId)
    ensures Count([], t) == 0
  {
  }

  lemma InheritingPlaced(current: ThreadId, prio: int)
    ensures Placement(Inheriting(current, prio)) && Sorted(Inheriting(current, prio), [2])
  {
    var s := Inheriting(current, prio);
    hide InLists, Sorted, Count;
    InheritingLists(current, prio);
    PairFacts(s, 1, 3, 0);
    PairFacts(s, 3, 1, 0);
    PairFacts(s, 2, 2, 0);
  }

  /** Thread 2 owns mutex 10, and thread 3, of priority 2, is about to lock it. */
  function OwnerWaits(): Sys {
    Sys(Inheriting(3, 2), map[10 := Mutex(Some(2), 1, 5), 11 := Mutex(Some(1), 1, 8)], map[1 := [11], 2 := [10]],
        map[0 := 15, 1 := 8, 2 := 5, 3 := 2], -10)
  }

  /** Thread 1 owns mutex 10 as well, and took it before mutex 11; nobody waits for it. */
  function TwoHeld(): Sys {
    Sys(Inheriting(1, 9), map[10 := Mutex(Some(1), 1, 8), 11 := Mutex(Some(1), 1, 8)], map[1 := [10, 11]],
        map[0 := 15, 1 := 8, 2 := 5, 3 := 9], -10)
  }

  lemma OneHeld(m: QueueId, n: QueueId)
    ensures Count([], n) == 0 && Count([m], n) == One(n == m) && [m][..0] == []
  {
    assert [m][1..] == [];
  }

  lemma OwnerWaitsOwned()
    ensures Ownership(OwnerWaits()) && NoSelfWait(OwnerWaits())
  {
    var x := OwnerWaits();
    hide Count;
    forall t: ThreadId, m: QueueId
      ensures Count(Held(x, t), m) == Owns(x, t, m)
    {
      OneHeld(10, m);
      OneHeld(11, m);
    }
    assert Waiters(x, 10) == [];
  }

  lemma OwnerWaitsRight()
    ensures Right(OwnerWaits()) && NoSelfWait(OwnerWaits())
  {
    var x := OwnerWaits();
    hide Placement, Sorted, Ownership, NoSelfWait;
    InheritingPlaced(3, 2);
    OwnerWaitsOwned();
    SortedEmpty(x.s);
    OneHeld(10, 0);
    OneHeld(11, 0);
    assert Waiters(x, 10) == [] && Waiters(x, 11) == [2];
    assert Boost(x, 10) == None && Boost(x, 11) == Some(5) && Wanted(x, [], 8) == 8 && Wanted(x, [], 5) == 5;
  }

  lemma SortedEmpty(s: Sched)
    ensures Sorted(s, [])
  {
  }

  lemma TwoHeldOwned()
    ensures Ownership(TwoHeld())
  {
    var x := TwoHeld();
    hide Count;
    forall t: ThreadId, m: QueueId
      ensures Count(Held(x, t), m) == Owns(x, t, m)
    {
      OneHeld(10, m);
      PairFacts(x.s, 10, 11, m);
    }
    assert Waiters(x, 10) == [];
  }

  lemma TwoHeldRight()
    ensures Right(TwoHeld())
  {
    var x := TwoHeld();
    hide Placement, Sorted, Ownership;
    InheritingPlaced(1, 9);
    TwoHeldOwned();
    SortedEmpty(x.s);
    OneHeld(10, 0);
    assert [10, 11][..1] == [10];
    assert Waiters(x, 10) == [] && Waiters(x, 11) == [2];
    assert Boost(x, 10) == None && Boost(x, 11) == Some(5) && Wanted(x, [], 8) == 8 && Wanted(x, [10], 8) == 8;
  }

  /** The boost of thread 2 to priority 2 is not passed on: thread 1, on which it waits, stays at 5. */
  lemma BoostNotPassedOn()
    ensures var x := OwnerWaits();
            && Right(x) && NoSelfWait(x) && Top(x, 2, 10) && Legal(x, EMutexLock(10, false, false))
            && var x' := Lock(x, 10, false, false).0;
               && Prio(x', 2) == 2 && T(x'.s, 2).pendedOn == Some(11) && Mx(x', 11).owner == Some(1) && Prio(x', 1) == 5
               && !Right(x')
  {
    var x := OwnerWaits();
    OwnerWaitsRight();
    assert BoostedPrio(x, 10) == 2;
    assert Remove([11], 11) == [] && Waiters(x, 11) == [2] && LevelWithout(x, 1, 11) == 8;
    assert !Absorbs(x, 2, 2);
    BlockExact(x, 10, false);
    LockBlocks(x, 10, false);
    AdjustEffect(x.s, 2, 2);
    PendEffect(Adjust(x.s, 2, 2), 10, false);
    hide Right, NoSelfWait, Lock, Adjust, Pend, Placement, Absorbs;
  }

  /** Mutex 10, for which nobody waits, is given up before mutex 11: thread 1 falls back to 8
      although thread 2 still waits. */
  lemma GivenUpEarly()
    ensures var x := TwoHeld();
            var x' := Unlock(x, 10).0;
            && Right(x) && Releasing(x, 10) && Boost(x, 10) == None
            && Held(x', 1) == [11] && Waiters(x', 11) == [2] && Prio(x', 2) == 5 && Prio(x', 1) == 8
            && !Right(x')
  {
    var x := TwoHeld();
    TwoHeldRight();
    assert Waiters(x, 10) == [] && Waiters(x, 11) == [2];
    assert [10, 11][1..] == [11] && Remove([10, 11], 10) == [11];
    OneHeld(11, 0);
    assert Wanted(x, [], 8) == 8 && LevelWithout(x, 1, 10) == 5;
    ReleaseExact(x, 10);
    UnlockReleases(x, 10);
    ReleaseSched(x, 10);
    assert WaitQ(x.s, 11) == [2];
    hide Right, Unlock, Adjust, Placement, Remove, Ownership;
  }

  // ---------------------------------------------------------------- a waiter for an outer mutex

  /** Thread 1, of priority 8, took mutex 10 and then mutex 11; nobody waits, and thread 3, of priority 2, runs. */
  function Undisturbed(): Sys {
    var ready := Tcb(8, 0, false, false, false, false, true, false, None);
    Sys(Sched(map[0 := ready.(prio := 15, queued := false), 1 := ready, 3 := ready.(prio := 2)],
              [3, 1], map[], 0, 3, 3, None, -20),
        map[10 := Mutex(Some(1), 1, 8), 11 := Mutex(Some(1), 1, 8)], map[1 := [10, 11]],
        map[0 := 15, 1 := 8, 3 := 2], -10)
  }

  lemma UndisturbedPlaced()
    ensures Placement(Undisturbed().s)
  {
    var s := Undisturbed().s;
    hide Count, Sorted;
    forall t: ThreadId
      ensures Count(s.runq, t) == One(T(s, t).queued)
    {
      PairFacts(s, 3, 1, t);
    }
    forall w: QueueId, t: ThreadId
      ensures Count(WaitQ(s, w), t) == One(T(s, t).pendedOn == Some(w))
    {
      NoneIn(t);
    }
    PairFacts(s, 3, 1, 0);
  }

  lemma UndisturbedRight()
    ensures Right(Undisturbed()) && NoSelfWait(Undisturbed())
  {
    var x := Undisturbed();
    UndisturbedPlaced();
    hide Placement, Count, Sorted;
    forall t: ThreadId, m: QueueId
      ensures Count(Held(x, t), m) == Owns(x, t, m)
    {
      OneHeld(10, m);
      PairFacts(x.s, 10, 11, m);
    }
    SortedEmpty(x.s);
    assert Waiters(x, 10) == [] && Waiters(x, 11) == [];
    assert Ownership(x) && Ordered(x);
    hide Ownership, Ordered;
    OneHeld(10, 0);
    assert [10, 11][..1] == [10];
    assert Boost(x, 10) == None && Boost(x, 11) == None && Wanted(x, [], 8) == 8 && Wanted(x, [10], 8) == 8;
  }

  /** The scheduler once thread 3 waits for mutex 10: thread 1 is the next to run. */
  lemma UndisturbedBlocks()
    ensures var x := Undisturbed();
            var s' := BlockedState(x, 10, false);
            && BoostedPrio(x, 10) == 2 && s'.cache == 1 && s'.waitqs == map[10 := [3]]
            && T(s', 1) == T(x.s, 1).(prio := 2) && T(s', 3).prio == 2
  {
    var s := Undisturbed().s;
    assert [3, 1][1..] == [1] && [1][1..] == [] && [3][1..] == [];
    assert Remove([3, 1], 1) == [3] && Remove([3, 1], 3) == [1];
    var s2 := Set(s.(runq := [3]), 1, T(s, 1).(prio := 2));
    assert Insert(s2, [3], 1) == [3] + Insert(s2, [], 1) == [3, 1];
    var s3 := UpdateCache(s2.(runq := [3, 1]), true);
    assert Adjust(s, 1, 2) == s3;
    assert s3.runq == [3, 1] && s3.current == 3 && s3.preempted.None?;
    var s4 := RemoveIfQueued(s3, 3);
    assert s4.runq == [1];
    assert UnreadyThread(s3, 3).cache == 1;
    var s5 := Set(UnreadyThread(s3, 3), 3, T(UnreadyThread(s3, 3), 3).(pending := true));
    assert Insert(s5, WaitQ(s5, 10), 3) == [3];
  }

  /** Thread 3 locks mutex 10, and thread 1 runs at 2 as it should.  Then it releases mutex 11,
      the last one it took, and is back at 8 although thread 3 still waits. */
  lemma ReverseReleaseDrops()
    ensures var x, es := Undisturbed(), [EMutexLock(10, false, false), EOther(ESwap)];
            && Right(x) && NoSelfWait(x) && LegalRun(x, es) && AlwaysRight(x, es)
            && LegalRun(x, es + [EMutexUnlock(11)])
            && var x2, y := MutexRuns.Run(x, es), MutexRuns.Run(x, es + [EMutexUnlock(11)]);
               && Prio(x2, 1) == 2 && Top(x2, 1, 11)
               && !Right(y) && Held(y, 1) == [10] && Waiters(y, 10) == [3] && Prio(y, 3) == 2 && Prio(y, 1) == 8
  {
    var x := Undisturbed();
    UndisturbedRight();
    UndisturbedLocks();
    hide Right, NoSelfWait, Lock, Undisturbed;
    var x1 := Lock(x, 10, false, false).0;
    var x2 := x1.(s := x1.s.(current := 1));
    SwapKeeps(x1);
    BoostedRelease(x, x2);
    DroppingRun(x, x1, x2);
    hide LegalRun, MutexRuns.Run, AlwaysRight, Unlock, Top, Held, Waiters;
  }

  lemma UndisturbedLocks()
    ensures var x := Undisturbed();
            && Legal(x, EMutexLock(10, false, false))
            && var x1 := Lock(x, 10, false, false).0;
               && Right(x1) && x1 == x.(s := x1.s) && x1.s.cache == 1 && x1.s.waitqs == map[10 := [3]]
               && T(x1.s, 1) == T(x.s, 1).(prio := 2) && T(x1.s, 3).prio == 2
  {
    var x := Undisturbed();
    UndisturbedRight();
    UndisturbedBlocks();
    assert Unblocked(x, 1);
    LockBlocks(x, 10, false);
    hide Right, NoSelfWait, Lock, BlockedState, BoostedPrio;
    BlockExact(x, 10, false);
  }

  lemma SwapKeeps(x: Sys)
    requires Right(x)
    ensures Right(x.(s := x.s.(current := x.s.cache)))
  {
    hide Placement, Ownership, Ordered, Levels;
    assert Step(x.s, ESwap) == x.s.(current := x.s.cache);
    SparingKeeps(x, ESwap);
  }

  lemma BoostedRelease(x: Sys, x2: Sys)
    requires x == Undisturbed() && x2 == x.(s := x2.s) && Right(x2) && x2.s.current == 1
    requires T(x2.s, 1) == T(x.s, 1).(prio := 2) && x2.s.waitqs == map[10 := [3]] && T(x2.s, 3).prio == 2
    ensures var y := Unlock(x2, 11).0;
            && !Right(y) && Held(y, 1) == [10] && Waiters(y, 10) == [3] && Prio(y, 3) == 2 && Prio(y, 1) == 8
            && Top(x2, 1, 11) && Prio(x2, 1) == 2 && Ready(T(x2.s, 1)) && 11 in x2.mutexes
  {
    assert Releasing(x2, 11);
    assert [10, 11][1..] == [11] && Remove([10, 11], 11) == [10];
    assert Held(x2, 1) == [10, 11] && Base(x2, 1) == 8 && Waiters(x2, 10) == [3] && Waiters(x2, 11) == [];
    OneHeld(10, 0);
    assert Wanted(x2, [], 8) == 8 && Boost(x2, 10) == Some(2) && LevelWithout(x2, 1, 11) == 2;
    hide Books, Right, Unlock, Adjust, Remove;
    ReleaseExact(x2, 11);
    ReleaseIs(x2, 11);
    hide Releasing, Placement;
  }

  lemma DroppingRun(x: Sys, x1: Sys, x2: Sys)
    requires Legal(x, EMutexLock(10, false, false)) && x1 == After(x, EMutexLock(10, false, false))
    requires x2 == x1.(s := x1.s.(current := x1.s.cache)) && Legal(x2, EMutexUnlock(11)) && Right(x) && Right(x1)
    requires Right(x2)
    ensures var es := [EMutexLock(10, false, false), EOther(ESwap)];
            && LegalRun(x, es) && LegalRun(x, es + [EMutexUnlock(11)]) && AlwaysRight(x, es)
            && MutexRuns.Run(x, es) == x2 && MutexRuns.Run(x, es + [EMutexUnlock(11)]) == After(x2, EMutexUnlock(11))
  {
    hide Right, Lock, Unlock, Legal, After, LegalRun, MutexRuns.Run, AlwaysRight;
    SwapIs(x1);
    var lock, swap, unlock := EMutexLock(10, false, false), EOther(ESwap), EMutexUnlock(11);
    assert [unlock] + [] == [unlock] && [swap] + [unlock] == [swap, unlock] && [swap] + [] == [swap];
    assert [lock] + [swap, unlock] == [lock, swap] + [unlock] && [lock] + [swap] == [lock, swap];
    RunNone(x2);
    RunNone(After(x2, unlock));
    RunOne(x2, unlock, []);
    RunOne(x1, swap, [unlock]);
    RunOne(x, lock, [swap, unlock]);
    RunOne(x1, swap, []);
    RunOne(x, lock, [swap]);
  }

  lemma SwapIs(x: Sys)
    ensures Legal(x, EOther(ESwap)) && After(x, EOther(ESwap)) == x.(s := x.s.(current := x.s.cache))
  {
  }

  lemma RunNone(x: Sys)
    ensures LegalRun(x, []) && MutexRuns.Run(x, []) == x && (AlwaysRight(x, []) <==> Right(x))
  {
  }

  lemma RunOne(x: Sys, e: MutexRuns.Event, es: seq<MutexRuns.Event>)
    requires Legal(x, e) && LegalRun(After(x, e), es)
    ensures LegalRun(x, [e] + es) && MutexRuns.Run(x, [e] + es) == MutexRuns.Run(After(x, e), es)
    ensures AlwaysRight(x, [e] + es) <==> Right(x) && AlwaysRight(After(x, e), es)
  {
    hide Legal, After, Right;
    assert ([e] + es)[1..] == es;
  }
}
