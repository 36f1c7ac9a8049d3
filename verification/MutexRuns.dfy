/**
 Priority inheritance through whole runs: mutex calls, timeouts of waiters and
 everything else the scheduler does, with the exact condition under which each
 of them leaves every thread at the priority it is to have; when a thread gets
 its own priority back; and the runs that break the promise.
 */
module MutexRuns {
  import opened Lists
  import opened Mutexes
  import opened Scheduler
  import opened Wrappers

  // ---------------------------------------------------------------- everything else the scheduler does

  /** Scheduler events other than a thread coming to or leaving a mutex by itself. */
  predicate Outside(x: Sys, e: Scheduler.Event) {
    && Enabled(x.s, e)
    && match e
       case EPendCurrent(wq, _) => wq.Some? ==> wq.value !in x.mutexes
       case EWakeFirst(w) => w !in x.mutexes
       case EWake(t) => Unblocked(x, t)
       case EExpire(t) => Unblocked(x, t)
       case _ => true
  }

  /** Whether such an event gives a thread a priority from outside, or takes a waiter away. */
  predicate Sparing(x: Sys, e: Scheduler.Event) {
    match e
    case ECreate(_, _, _) => false
    case ESetPrio(_, _) => false
    case EAbort(t) => Unblocked(x, t)
    case _ => true
  }

  /** s' has the same priorities as s, and the same wait queues but for at most w, on which a thread may now wait. */
  ghost predicate Spares(s: Sched, s': Sched, w: Option<QueueId>) {
    && s'.idle == s.idle && SamePrio(s, s') && (forall n: QueueId :: Some(n) != w ==> WaitQ(s', n) == WaitQ(s, n))
    && (forall u :: T(s', u).pendedOn in {T(s, u).pendedOn, None, w})
  }

  lemma ReadySpares(s: Sched, s1: Sched, t: ThreadId)
    requires Spares(s, s1, None)
    ensures Spares(s, ReadyThread(s1, t), None)
  {
    hide ReadyThread;
    ReadyEffect(s1, t);
  }

  lemma UpdateSpares(s: Sched, s1: Sched, ok: bool)
    requires Spares(s, s1, None)
    ensures Spares(s, UpdateCache(s1, ok), None)
  {
    hide UpdateCache;
    UpdateFrame(s1, ok);
  }

  lemma LeavesSpares(s: Sched, s': Sched, t: ThreadId)
    requires Leaves(s, s', t)
    ensures Spares(s, s', T(s, t).pendedOn)
  {
    hide Remove;
  }

  lemma WakersSpare(s: Sched, t: ThreadId)
    ensures Spares(s, Resume(s, t), None) && Spares(s, Wakeup(s, t), None) && Spares(s, Step(s, EStart(t)), None)
  {
    hide ReadyThread;
    ReadySpares(s, Set(s, t, T(s, t).(suspended := false)), t);
    ReadySpares(s, Set(s, t, T(s, t).(timeout := false, suspended := false)), t);
    ReadySpares(s, Set(s, t, T(s, t).(prestart := false)), t);
  }

  lemma ExpireSpares(s: Sched, t: ThreadId)
    ensures Spares(s, Expire(s, t), T(s, t).pendedOn)
  {
    hide ReadyThread, Remove;
    if T(s, t).pendedOn.Some? {
      ExpireEffect(s, t);
      hide Expire;
      LeavesSpares(s, Expire(s, t), t);
    } else {
      var s1 := Set(s, t, T(s, t).(timeout := false));
      ReadySpares(s, Set(s1, t, T(s1, t).(prestart := false, suspended := false)), t);
    }
  }

  lemma SuspendSpares(s: Sched, t: ThreadId)
    ensures Spares(s, Suspend(s, t), None)
  {
    hide UpdateCache, Remove;
    var s1 := RemoveIfQueued(Set(s, t, T(s, t).(timeout := false)), t);
    UpdateSpares(s, Set(s1, t, T(s1, t).(suspended := true)), t == s.current);
  }

  lemma RotateSpares(s: Sched)
    ensures Spares(s, Rotate(s), None)
  {
    hide UpdateCache, Remove, Insert;
    UpdateSpares(s, RunAdd(RemoveIfQueued(s, s.current), s.current), true);
  }

  lemma YieldSpares(s: Sched)
    ensures Spares(s, Yield(s), None)
  {
    hide UpdateCache, Remove, Insert;
    UpdateSpares(s, RunAdd(s.(runq := Remove(s.runq, s.current)), s.current), true);
  }

  lemma SleepSpares(s: Sched)
    ensures Spares(s, Sleep(s), None)
  {
    hide UnreadyThread;
    UnreadyEffect(s, s.current);
  }

  lemma PendSpares(s: Sched, wq: Option<QueueId>, timed: bool)
    ensures Spares(s, Pend(s, s.current, wq, timed), wq)
  {
    if wq.Some? {
      PendEffect(s, wq.value, timed);
      hide Pend, Insert;
    } else {
      hide UnreadyThread;
      UnreadyEffect(s, s.current);
    }
  }

  lemma AbortSpares(s: Sched, t: ThreadId)
    requires Placement(s)
    ensures Spares(s, Abort(s, t), T(s, t).pendedOn)
  {
    PendedPends(s, t);
    hide Placement;
    if T(s, t).pendedOn.Some? {
      AbortEffect(s, t);
      AbortPended(s, t);
      hide Abort, Remove;
    } else {
      hide UpdateCache, Remove, Spares, RemoveIfQueued;
      var s0 := Set(s, t, T(s, t).(timeout := false));
      SetSpares(s, s, t, T(s, t).(timeout := false));
      OffQueueSpares(s, s0, t);
      var s1 := RemoveIfQueued(s0, t);
      UpdateSpares(s, s1, t == s.current);
      var s2 := if Ready(T(s0, t)) then UpdateCache(s1, t == s.current) else s0;
      SparesPended(s, s2, t);
      SetSpares(s, s2, t, T(s2, t).(dead := true));
      SparesPended(s, s0, t);
      assert Abort(s, t) == Set(s2, t, T(s2, t).(dead := true));
    }
  }

  lemma SetSpares(s: Sched, s1: Sched, t: ThreadId, b: Tcb)
    requires (s1 == s || Spares(s, s1, None)) && b.prio == T(s1, t).prio && b.pendedOn == T(s1, t).pendedOn
    ensures Spares(s, Set(s1, t, b), None)
  {
  }

  lemma OffQueueSpares(s: Sched, s1: Sched, t: ThreadId)
    requires Spares(s, s1, None)
    ensures Spares(s, RemoveIfQueued(s1, t), None)
  {
    hide Remove;
  }

  lemma SparesPended(s: Sched, s1: Sched, t: ThreadId)
    requires Spares(s, s1, None) && T(s, t).pendedOn.None?
    ensures T(s1, t).pendedOn.None?
  {
  }

  lemma AbortPended(s: Sched, t: ThreadId)
    requires T(s, t).pendedOn.Some? && T(s, t).pending
    ensures T(Abort(s, t), t).pendedOn.None?
  {
    hide Remove, UpdateCache;
  }

  lemma OutsideSpares(x: Sys, e: Scheduler.Event) returns (w: Option<QueueId>)
    requires Outside(x, e) && Sparing(x, e) && Placement(x.s)
    ensures Spares(x.s, Step(x.s, e), w) && (w.Some? ==> w.value !in x.mutexes)
  {
    hide Pend, Wake, Expire, Abort, Suspend, Resume, Wakeup, Yield, Rotate, Sleep, UpdateCache, Spares, Leaves;
    var s := x.s;
    w := None;
    match e
    case EStart(t) => WakersSpare(s, t);
    case EPendCurrent(wq, timed) => PendSpares(s, wq, timed); w := wq;
    case EWakeFirst(q) => w := WakeFirstSpares(x, q);
    case EWake(t) => WakeEffect(s, t); LeavesSpares(s, Wake(s, t), t); w := T(s, t).pendedOn;
    case EExpire(t) => ExpireSpares(s, t); w := T(s, t).pendedOn;
    case ESuspend(t) => SuspendSpares(s, t);
    case EResume(t) => WakersSpare(s, t);
    case EWakeup(t) => WakersSpare(s, t);
    case EYield => YieldSpares(s);
    case ERotate => RotateSpares(s);
    case EAbort(t) => AbortSpares(s, t); w := T(s, t).pendedOn;
    case ESleep => SleepSpares(s);
    case ELock => LockSpares(s, T(s, s.current).locked + 1);
    case EUnlock => LockSpares(s, T(s, s.current).locked - 1);
    case ESwap => SwapSpares(s);
  }

  lemma WakeFirstSpares(x: Sys, q: QueueId) returns (w: Option<QueueId>)
    requires q !in x.mutexes && Placement(x.s)
    ensures Spares(x.s, Step(x.s, EWakeFirst(q)), w) && (w.Some? ==> w.value !in x.mutexes)
  {
    hide Wake, Leaves;
    if WaitQ(x.s, q) == [] {
      w := None;
    } else {
      HeadIsPended(x, q);
      hide Placement;
      WakeEffect(x.s, WaitQ(x.s, q)[0]);
      LeavesSpares(x.s, Wake(x.s, WaitQ(x.s, q)[0]), WaitQ(x.s, q)[0]);
      w := Some(q);
    }
  }

  lemma LockSpares(s: Sched, depth: nat)
    ensures var s' := Set(s, s.current, T(s, s.current).(locked := depth));
            Spares(s, s', None) && Spares(s, UpdateCache(s', false), None)
  {
    hide UpdateCache;
    UpdateSpares(s, Set(s, s.current, T(s, s.current).(locked := depth)), false);
  }

  lemma SwapSpares(s: Sched)
    ensures Spares(s, s.(current := s.cache), None)
  {
  }

  lemma SparedBooks(x: Sys, s': Sched, w: Option<QueueId>)
    requires Books(x) && Placement(s') && Spares(x.s, s', w) && (w.Some? ==> w.value !in x.mutexes)
    ensures Books(x.(s := s'))
  {
    var x' := x.(s := s');
    forall t: ThreadId, n: QueueId
      ensures Count(Held(x', t), n) == Owns(x', t, n)
    {
      assert Held(x', t) == Held(x, t) && Owns(x', t, n) == Owns(x, t, n);
    }
    hide Count, Held, Owns, Placement;
    OwnershipFrom(x');
  }

  lemma SparedLevel(x: Sys, s': Sched, w: Option<QueueId>, u: ThreadId)
    requires Books(x) && Spares(x.s, s', w) && (w.Some? ==> w.value !in x.mutexes)
    ensures Level(x.(s := s'), u) == Level(x, u)
  {
    var x' := x.(s := s');
    forall n | n in Held(x, u)
      ensures Boost(x', n) == Boost(x, n)
    {
      HeldIs(x, u, n);
      hide Ownership, Placement;
    }
    hide Boost, Books, Level, Spares;
    LevelSame(x, x', u);
  }

  /** What the mutexes ask for is untouched when the scheduler spares them. */
  lemma SparedKeeps(x: Sys, s': Sched, w: Option<QueueId>)
    requires Right(x) && Placement(s') && Spares(x.s, s', w) && (w.Some? ==> w.value !in x.mutexes)
    ensures Right(x.(s := s'))
  {
    var x' := x.(s := s');
    hide Books, Placement, Level;
    SparedBooks(x, s', w);
    forall u
      ensures Prio(x', u) == Level(x', u)
    {
      SparedLevel(x, s', w, u);
    }
    forall n | n in x.mutexes
      ensures Sorted(s', Waiters(x', n))
    {
      assert Sorted(x.s, Waiters(x, n));
      hide Sorted;
      SortedByPrioOnly(x.s, s', Waiters(x, n));
    }
    hide Sorted, Spares;
  }

  lemma SparingKeeps(x: Sys, e: Scheduler.Event)
    requires Right(x) && Outside(x, e) && Sparing(x, e)
    ensures Right(x.(s := Step(x.s, e)))
  {
    hide Placement, Ownership, Levels, Ordered, Step, Spares;
    StepPlaces(x.s, e);
    var w := OutsideSpares(x, e);
    SparedKeeps(x, Step(x.s, e), w);
  }

  // ---------------------------------------------------------------- a priority given from outside

  /** Thread t now has the priority it has in s', which becomes its own if it owns no mutex. */
  function Given(x: Sys, s': Sched, t: ThreadId): Sys {
    x.(s := s', base := if Held(x, t) == [] then x.base[t := T(s', t).prio] else x.base)
  }

  ghost predicate GivenPrio(x: Sys, s': Sched, t: ThreadId) {
    && Placement(s') && s'.idle == x.s.idle && s'.waitqs == x.s.waitqs
    && forall u :: u != t ==> T(s', u).prio == T(x.s, u).prio
  }

  /** A thread that owns mutexes must keep its priority; one that waits for a mutex
      must have a priority that is absorbed there. */
  predicate GivenGuard(x: Sys, t: ThreadId, prio: int) {
    if Held(x, t) == [] then Absorbs(x, t, prio) else prio == Prio(x, t)
  }

  lemma GivenMoves(x: Sys, s': Sched, t: ThreadId)
    requires Books(x) && GivenPrio(x, s', t)
    ensures Moved(x, Given(x, s', t), t, None)
  {
    assert forall n :: WaitQ(s', n) == WaitQ(x.s, n);
    hide Placement, Ownership;
    SameOwnership(x, s');
    BaseAside(x.(s := s'), Given(x, s', t).base);
  }

  lemma BaseAside(x: Sys, base: map<ThreadId, int>)
    requires Ownership(x)
    ensures Ownership(x.(base := base))
  {
    var x' := x.(base := base);
    forall t: ThreadId, n: QueueId
      ensures Count(Held(x', t), n) == Owns(x', t, n)
    {
      assert Held(x', t) == Held(x, t) && Owns(x', t, n) == Owns(x, t, n);
    }
    hide Count, Held, Owns;
    OwnershipFrom(x');
  }

  lemma GivenLevel(x: Sys, s': Sched, t: ThreadId)
    requires Books(x) && NoSelfWait(x) && GivenPrio(x, s', t)
    ensures Level(Given(x, s', t), t) == if Held(x, t) == [] then T(s', t).prio else Level(x, t)
  {
    if Held(x, t) != [] {
      GivenMoves(x, s', t);
      hide Books, NoSelfWait, Moved, Level;
      OwnLevel(x, Given(x, s', t), t);
    }
  }

  /** A priority given from outside keeps the promise exactly under GivenGuard. */
  lemma GivenExact(x: Sys, s': Sched, t: ThreadId)
    requires Right(x) && NoSelfWait(x) && GivenPrio(x, s', t)
    ensures Right(Given(x, s', t)) <==> GivenGuard(x, t, T(s', t).prio)
  {
    hide Books, Ordered, Level, NoSelfWait, Moved, Absorbs, Placement;
    var x' := Given(x, s', t);
    GivenMoves(x, s', t);
    GivenLevel(x, s', t);
    MovedExact(x, x', t, None);
    SameIsAbsorbed(x, t);
    LevelOf(x, t);
  }

  // ---------------------------------------------------------------- the remaining scheduler events

  predicate OutsideGuard(x: Sys, e: Scheduler.Event) {
    match e
    case ECreate(t, prio, _) => GivenGuard(x, t, prio)
    case ESetPrio(t, prio) => GivenGuard(x, t, prio)
    case EAbort(t) => !Unblocked(x, t) ==> NoDifference(x, t, T(x.s, t).pendedOn.value)
    case _ => true
  }

  /** The owner is to have the same priority without that waiter. */
  predicate NoDifference(x: Sys, t: ThreadId, m: QueueId) {
    Mx(x, m).owner.Some? ==> Prio(x, Mx(x, m).owner.value) == LevelAfter(x, t, m)
  }

  function AfterOutside(x: Sys, e: Scheduler.Event): Sys
    requires Enabled(x.s, e)
  {
    if e.ECreate? || e.ESetPrio? then Given(x, Step(x.s, e), e.t) else x.(s := Step(x.s, e))
  }

  lemma CreateGives(x: Sys, e: Scheduler.Event)
    requires Placement(x.s) && Enabled(x.s, e) && (e.ECreate? || e.ESetPrio?)
    ensures GivenPrio(x, Step(x.s, e), e.t) && T(Step(x.s, e), e.t).prio == e.prio
  {
    hide Placement, SetPrio;
    StepPlaces(x.s, e);
    if e.ESetPrio? {
      SetPrioEffect(x.s, e.t, e.prio);
    }
  }

  lemma OutsideExact(x: Sys, e: Scheduler.Event)
    requires Right(x) && NoSelfWait(x) && Outside(x, e)
    ensures Right(AfterOutside(x, e)) <==> OutsideGuard(x, e)
  {
    hide Placement, Ownership, Levels, Ordered, Step, NoSelfWait, GivenGuard, GivenPrio, Given, LevelAfter;
    if e.ECreate? || e.ESetPrio? {
      CreateGives(x, e);
      GivenExact(x, Step(x.s, e), e.t);
    } else if Sparing(x, e) {
      SparingKeeps(x, e);
    } else {
      AbortIs(x.s, e.t);
      WaiterHasOwner(x, e.t, T(x.s, e.t).pendedOn.value);
      AbortWaiterExact(x, e.t, T(x.s, e.t).pendedOn.value);
    }
  }

  lemma AbortIs(s: Sched, t: ThreadId)
    requires Enabled(s, EAbort(t))
    ensures Step(s, EAbort(t)) == Abort(s, t)
  {
    hide Abort;
  }

  // ---------------------------------------------------------------- whole runs

  datatype Event =
    | EMutexLock(m: QueueId, timed: bool, noWait: bool)
    | EMutexUnlock(m: QueueId)
    | EMutexTimeout(t: ThreadId, m: QueueId)   // with the clean-up at once
    | EMutexExpire(t: ThreadId, m: QueueId)    // without it
    | EMutexCleanUp(m: QueueId)
    | EOther(e: Scheduler.Event)

  /** What the kernel demands: calls by a running thread, on initialised mutexes. */
  predicate Legal(x: Sys, e: Event) {
    match e
    case EMutexLock(m, timed, noWait) =>
      && m in x.mutexes && x.s.current != x.s.idle && Ready(T(x.s, x.s.current))
      && (x.mutexes[m].lockCount != 0 ==> x.mutexes[m].owner.Some?)
    case EMutexUnlock(m) => m in x.mutexes && Ready(T(x.s, x.s.current))
    case EMutexTimeout(t, m) => WaitsFor(x, t, m) && T(x.s, t).timeout && Mx(x, m).owner.Some?
    case EMutexExpire(t, m) => WaitsFor(x, t, m) && T(x.s, t).timeout
    case EMutexCleanUp(m) => m in x.mutexes && Mx(x, m).owner.Some?
    case EOther(e) => Outside(x, e)
  }

  function After(x: Sys, e: Event): Sys
    requires Legal(x, e)
  {
    match e
    case EMutexLock(m, timed, noWait) => Lock(x, m, timed, noWait).0
    case EMutexUnlock(m) => Unlock(x, m).0
    case EMutexTimeout(t, m) => TimedOut(x, t, m)
    case EMutexExpire(t, m) => Expired(x, t)
    case EMutexCleanUp(m) => CleanUp(x, m)
    case EOther(e) => AfterOutside(x, e)
  }

  /** The call makes the current thread wait. */
  predicate Blocks(x: Sys, m: QueueId, noWait: bool) {
    Mx(x, m).owner.Some? && Mx(x, m).owner != Some(x.s.current) && !noWait
  }

  /** The call gives the mutex up. */
  predicate Releases(x: Sys, m: QueueId) { Mx(x, m).owner == Some(x.s.current) && Mx(x, m).lockCount == 1 }

  /** Exactly when the call leaves every thread at the priority it is to have. */
  predicate Guarded(x: Sys, e: Event) {
    match e
    case EMutexLock(m, timed, noWait) => Blocks(x, m, noWait) ==> Absorbs(x, Mx(x, m).owner.value, BoostedPrio(x, m))
    case EMutexUnlock(m) => Releases(x, m) ==> Mx(x, m).origPrio == LevelWithout(x, x.s.current, m)
    case EMutexTimeout(t, m) => Mx(x, m).owner.Some? ==> TimeoutGuard(x, t, m)
    case EMutexExpire(t, m) => NoDifference(x, t, m)
    case EMutexCleanUp(m) =>
      Mx(x, m).owner.Some? ==> Restored(x.s, m, Mx(x, m).origPrio, x.ceiling) == Prio(x, Mx(x, m).owner.value)
    case EOther(e) => OutsideGuard(x, e)
  }

  /** Locking again what one owns, and undoing a repeated lock. */
  function Recounted(x: Sys, m: QueueId, count: nat): Sys
    requires m in x.mutexes
  {
    x.(mutexes := x.mutexes[m := x.mutexes[m].(lockCount := count)])
  }

  lemma RecountBooks(x: Sys, m: QueueId, count: nat)
    requires Books(x) && m in x.mutexes && x.mutexes[m].owner.Some? && count > 0
    ensures Books(Recounted(x, m, count))
  {
    var x' := Recounted(x, m, count);
    forall t: ThreadId, n: QueueId
      ensures Count(Held(x', t), n) == Owns(x', t, n)
    {
      assert Count(Held(x, t), n) == Owns(x, t, n);
    }
    hide Count, Placement;
  }

  lemma RecountKeeps(x: Sys, m: QueueId, count: nat)
    requires Right(x) && m in x.mutexes && x.mutexes[m].owner.Some? && count > 0
    ensures Right(Recounted(x, m, count))
  {
    var x' := Recounted(x, m, count);
    hide Books, Sorted;
    RecountBooks(x, m, count);
    forall u
      ensures Prio(x', u) == Level(x', u)
    {
      assert forall n :: Boost(x', n) == Boost(x, n);
      hide Level, Boost;
      LevelSame(x, x', u);
    }
    hide Level;
  }

  lemma LockNow(x: Sys, m: QueueId, timed: bool, noWait: bool)
    requires Legal(x, EMutexLock(m, timed, noWait))
    ensures var mutex, x' := x.mutexes[m], Lock(x, m, timed, noWait).0;
            && (mutex.lockCount == 0 ==> x' == Taken(x, m))
            && (mutex.lockCount != 0 && mutex.owner == Some(x.s.current) ==> x' == Recounted(x, m, mutex.lockCount + 1))
            && (mutex.lockCount != 0 && mutex.owner != Some(x.s.current) ==>
                  x' == if noWait then x else Lock(x, m, timed, false).0)
  {
    hide Pend, Adjust;
  }

  lemma FreeIffUnlocked(x: Sys, m: QueueId)
    requires Books(x) && m in x.mutexes
    ensures x.mutexes[m].owner.None? <==> x.mutexes[m].lockCount == 0
  {
    hide Placement, Count;
  }

  lemma LockExact(x: Sys, m: QueueId, timed: bool, noWait: bool)
    requires Right(x) && NoSelfWait(x) && Legal(x, EMutexLock(m, timed, noWait))
    ensures Right(Lock(x, m, timed, noWait).0) <==> Guarded(x, EMutexLock(m, timed, noWait))
  {
    hide Books, Ordered, Levels, Lock, Absorbs, BoostedPrio, NoSelfWait;
    var mutex := x.mutexes[m];
    FreeIffUnlocked(x, m);
    LockNow(x, m, timed, noWait);
    if mutex.lockCount == 0 {
      TakenKeeps(x, m);
    } else if mutex.owner == Some(x.s.current) {
      RecountKeeps(x, m, mutex.lockCount + 1);
    } else if !noWait {
      BlockExact(x, m, timed);
    }
  }

  lemma UnlockNow(x: Sys, m: QueueId)
    requires m in x.mutexes
    ensures var mutex, x' := x.mutexes[m], Unlock(x, m).0;
            && (mutex.owner != Some(x.s.current) ==> x' == x)
            && (mutex.owner == Some(x.s.current) && mutex.lockCount > 1 ==> x' == Recounted(x, m, mutex.lockCount - 1))
  {
    hide Adjust, Wake, Remove;
  }

  lemma UnlockExact(x: Sys, m: QueueId)
    requires Right(x) && Legal(x, EMutexUnlock(m))
    ensures Right(Unlock(x, m).0) <==> Guarded(x, EMutexUnlock(m))
  {
    hide Books, Ordered, Levels, Unlock, LevelWithout;
    FreeIffUnlocked(x, m);
    UnlockNow(x, m);
    var mutex := x.mutexes[m];
    if mutex.owner == Some(x.s.current) {
      if mutex.lockCount > 1 {
        RecountKeeps(x, m, mutex.lockCount - 1);
      } else {
        ReleaseExact(x, m);
      }
    }
  }

  /** Every call leaves every thread at the priority it is to have exactly when its guard holds. */
  lemma AfterExact(x: Sys, e: Event)
    requires Right(x) && NoSelfWait(x) && Legal(x, e)
    ensures Right(After(x, e)) <==> Guarded(x, e)
  {
    match e
    case EMutexLock(m, timed, noWait) => LockExact(x, m, timed, noWait);
    case EMutexUnlock(m) => UnlockExact(x, m);
    case EMutexTimeout(t, m) => TimedOutExact(x, t, m);
    case EMutexExpire(t, m) => BooksOf(x); WaiterHasOwner(x, t, m); ExpiredExact(x, t, m);
    case EMutexCleanUp(m) => CleanUpExact(x, m);
    case EOther(e) => OutsideExact(x, e);
  }

  ghost predicate LegalRun(x: Sys, es: seq<Event>)
    decreases |es|
  {
    es == [] || (Legal(x, es[0]) && LegalRun(After(x, es[0]), es[1..]))
  }

  ghost predicate GuardedRun(x: Sys, es: seq<Event>)
    requires LegalRun(x, es)
    decreases |es|
  {
    es == [] || (Guarded(x, es[0]) && GuardedRun(After(x, es[0]), es[1..]))
  }

  /** Every thread is at the priority it is to have before and after each call. */
  ghost predicate AlwaysRight(x: Sys, es: seq<Event>)
    requires LegalRun(x, es)
    decreases |es|
  {
    Right(x) && (es != [] ==> AlwaysRight(After(x, es[0]), es[1..]))
  }

  ghost function Run(x: Sys, es: seq<Event>): Sys
    requires LegalRun(x, es)
    decreases |es|
  {
    if es == [] then x else Run(After(x, es[0]), es[1..])
  }

  /** Through every legal run, priorities are right all along exactly when every guard holds. */
  lemma {:induction false} EveryRun(x: Sys, es: seq<Event>)
    requires Right(x) && NoSelfWait(x) && LegalRun(x, es)
    ensures AlwaysRight(x, es) <==> GuardedRun(x, es)
    ensures GuardedRun(x, es) ==> Right(Run(x, es)) && NoSelfWait(Run(x, es))
    decreases |es|
  {
    if es != [] {
      AfterExact(x, es[0]);
      BooksOf(x);
      AfterBooks(x, es[0]);
      hide Right, Books, After, Legal, Guarded, NoSelfWait;
      if Guarded(x, es[0]) {
        EveryRun(After(x, es[0]), es[1..]);
      }
    }
  }

  // ---------------------------------------------------------------- what every call keeps

  /** Nobody has started to wait for a mutex. */
  lemma StillNoSelfWait(x: Sys, x': Sys, w: Option<QueueId>)
    requires NoSelfWait(x) && (w.Some? ==> w.value !in x.mutexes) && x'.mutexes.Keys == x.mutexes.Keys
    requires forall u :: T(x'.s, u).pendedOn in {T(x.s, u).pendedOn, None, w}
    requires forall m :: m in x.mutexes ==>
        x'.mutexes[m].owner == x.mutexes[m].owner || (x'.mutexes[m].owner.Some? ==>
          T(x'.s, x'.mutexes[m].owner.value).pendedOn.None?)
    ensures NoSelfWait(x')
  {
  }

  lemma BlockNoSelfWait(x: Sys, m: QueueId, timed: bool)
    requires Books(x) && NoSelfWait(x) && m in x.mutexes && x.mutexes[m].owner.Some?
    requires x.mutexes[m].owner != Some(x.s.current)
    ensures NoSelfWait(x.(s := BlockedState(x, m, timed)))
  {
    var o := x.mutexes[m].owner.value;
    assert o != x.s.idle;
    AdjustEffect(x.s, o, BoostedPrio(x, m));
    hide Books, Adjust, Pend, BoostedPrio;
    PendEffect(Adjust(x.s, o, BoostedPrio(x, m)), m, timed);
  }

  lemma ExpiredBooks(x: Sys, t: ThreadId, m: QueueId)
    requires Books(x) && NoSelfWait(x) && WaitsFor(x, t, m) && T(x.s, t).timeout
    ensures Books(Expired(x, t)) && NoSelfWait(Expired(x, t))
  {
    hide Ownership, Placement, Expire, Remove, NoSelfWait;
    ExpireLeaves(x, t, m);
    LeftBooks(x, Expire(x.s, t), t, m);
    ExpireEffect(x.s, t);
    StillNoSelfWait(x, Expired(x, t), None);
  }

  lemma CleanUpBooks(x: Sys, m: QueueId)
    requires Books(x) && NoSelfWait(x) && m in x.mutexes && Mx(x, m).owner.Some?
    ensures Books(CleanUp(x, m)) && NoSelfWait(CleanUp(x, m))
  {
    hide Ownership, Placement, Adjust, Restored, NoSelfWait;
    var o, prio := Mx(x, m).owner.value, Restored(x.s, m, Mx(x, m).origPrio, x.ceiling);
    OwnerFacts(x, m, o);
    AdjustEffect(x.s, o, prio);
    AdjustMoves(x, o, prio);
    StillNoSelfWait(x, CleanUp(x, m), None);
  }

  lemma FreedNoSelfWait(x: Sys, m: QueueId)
    requires Releasing(x, m) && NoSelfWait(x)
    ensures NoSelfWait(Freed(x, m))
  {
    ReleaseSched(x, m);
    assert m in x.mutexes;
    hide Releasing, Adjust, Placement, Remove;
    StillNoSelfWait(x, Freed(x, m), None);
  }

  lemma HandedPended(s: Sched, s1: Sched, s2: Sched, t: ThreadId, w: ThreadId)
    requires Leaves(s1, s2, w) && T(s1, t).pendedOn == T(s, t).pendedOn && forall u :: u != t ==> T(s1, u) == T(s, u)
    ensures T(s2, w).pendedOn.None? && forall u :: T(s2, u).pendedOn in {T(s, u).pendedOn, None}
  {
    forall u
      ensures T(s2, u).pendedOn in {T(s, u).pendedOn, None}
    {
      if u != w {
        assert T(s2, u) == T(s1, u);
      }
    }
  }

  lemma HandedNoSelfWait(x: Sys, m: QueueId, w: ThreadId)
    requires Releasing(x, m) && NoSelfWait(x) && Waiters(x, m) != [] && Waiters(x, m)[0] == w
    ensures T(Adjust(x.s, x.s.current, Mx(x, m).origPrio), w).pendedOn.Some? && NoSelfWait(HandedOver(x, m, w))
  {
    hide Adjust, Placement, Remove, Wake, Leaves, Books, NoSelfWait;
    var s1 := Adjust(x.s, x.s.current, Mx(x, m).origPrio);
    HandedSched(x, m, w);
    ReleaseSched(x, m);
    HandedPended(x.s, s1, Wake(s1, w), x.s.current, w);
    PassedNoSelfWait(x, HandedOver(x, m, w), m, w);
  }

  lemma PassedNoSelfWait(x: Sys, x': Sys, m: QueueId, w: ThreadId)
    requires NoSelfWait(x) && m in x.mutexes && m in x'.mutexes && x'.mutexes == x.mutexes[m := x'.mutexes[m]]
    requires x'.mutexes[m].owner == Some(w)
    requires T(x'.s, w).pendedOn.None? && forall u :: T(x'.s, u).pendedOn in {T(x.s, u).pendedOn, None}
    ensures NoSelfWait(x')
  {
  }

  lemma ReleaseNoSelfWait(x: Sys, m: QueueId)
    requires Releasing(x, m) && NoSelfWait(x)
    ensures NoSelfWait(Unlock(x, m).0)
  {
    hide Releasing, NoSelfWait, Unlock, Freed, HandedOver, Adjust;
    UnlockReleases(x, m);
    if Waiters(x, m) == [] {
      FreedNoSelfWait(x, m);
    } else {
      HandedNoSelfWait(x, m, Waiters(x, m)[0]);
    }
  }

  lemma LockBooks(x: Sys, m: QueueId, timed: bool, noWait: bool)
    requires Books(x) && NoSelfWait(x) && Legal(x, EMutexLock(m, timed, noWait))
    ensures Books(Lock(x, m, timed, noWait).0) && NoSelfWait(Lock(x, m, timed, noWait).0)
  {
    NotPended(x.s, x.s.current);
    FreeIffUnlocked(x, m);
    LockNow(x, m, timed, noWait);
    hide Placement, Ownership, Lock, BlockedState;
    var mutex := x.mutexes[m];
    if mutex.lockCount == 0 {
      TakenOwnership(x, m);
    } else if mutex.owner == Some(x.s.current) {
      RecountBooks(x, m, mutex.lockCount + 1);
    } else if !noWait {
      LockBlocks(x, m, timed);
      BlockBooks(x, m, timed);
      BlockNoSelfWait(x, m, timed);
    }
  }

  lemma UnlockBooks(x: Sys, m: QueueId)
    requires Books(x) && NoSelfWait(x) && Legal(x, EMutexUnlock(m))
    ensures Books(Unlock(x, m).0) && NoSelfWait(Unlock(x, m).0)
  {
    hide Books, Unlock, NoSelfWait;
    FreeIffUnlocked(x, m);
    UnlockNow(x, m);
    var mutex := x.mutexes[m];
    if mutex.owner == Some(x.s.current) {
      if mutex.lockCount > 1 {
        RecountBooks(x, m, mutex.lockCount - 1);
        StillNoSelfWait(x, Recounted(x, m, mutex.lockCount - 1), None);
      } else {
        ReleaseNoSelfWait(x, m);
        ReleaseBooks(x, m);
      }
    }
  }

  lemma ReleaseBooks(x: Sys, m: QueueId)
    requires Releasing(x, m)
    ensures Books(Unlock(x, m).0)
  {
    hide Releasing, Books, Unlock, Released;
    ReleaseIs(x, m);
    ReleasedBooks(x, Unlock(x, m).0, m, if Waiters(x, m) == [] then None else Some(Waiters(x, m)[0]));
  }

  lemma ReleasedBooks(x: Sys, x': Sys, m: QueueId, w: Option<ThreadId>)
    requires Releasing(x, m) && Released(x, x', m, w)
    ensures Books(x')
  {
    hide Releasing, Placement, Ownership, RestoredPrio, FirstLeft, PassedOn;
    ReleasedOwnership(x, x', m, w);
  }

  lemma OutsideNoSelfWait(x: Sys, e: Scheduler.Event)
    requires Books(x) && NoSelfWait(x) && Outside(x, e)
    ensures NoSelfWait(AfterOutside(x, e))
  {
    if Sparing(x, e) {
      var w := OutsideSpares(x, e);
      hide Books, Step, Outside;
      StillNoSelfWait(x, x.(s := Step(x.s, e)), w);
    } else if e.EAbort? {
      var t := e.t;
      AbortIs(x.s, t);
      PendedPends(x.s, t);
      AbortEffect(x.s, t);
      AbortPended(x.s, t);
      hide Books, Step, Abort, Remove;
    } else if e.ECreate? {
      hide Books;
    } else {
      SetPrioEffect(x.s, e.t, e.prio);
      hide Books, SetPrio;
    }
  }

  lemma OutsideBooks(x: Sys, e: Scheduler.Event)
    requires Books(x) && NoSelfWait(x) && Outside(x, e)
    ensures Books(AfterOutside(x, e))
  {
    hide Placement, Ownership, Step, GivenPrio, Given, Moved, NoSelfWait;
    if e.ECreate? || e.ESetPrio? {
      CreateGives(x, e);
      GivenMoves(x, Step(x.s, e), e.t);
      MovedBooks(x, Given(x, Step(x.s, e), e.t), e.t);
    } else if Sparing(x, e) {
      StepPlaces(x.s, e);
      var w := OutsideSpares(x, e);
      SparedBooks(x, Step(x.s, e), w);
    } else {
      AbortIs(x.s, e.t);
      AbortLeaves(x, e.t, T(x.s, e.t).pendedOn.value);
      LeftBooks(x, Abort(x.s, e.t), e.t, T(x.s, e.t).pendedOn.value);
    }
  }

  lemma MovedBooks(x: Sys, x': Sys, o: ThreadId)
    requires Moved(x, x', o, None)
    ensures Books(x')
  {
  }

  /** Whatever becomes of priorities: threads stay where their states say, ownership and
      what threads hold agree, and nobody waits for a mutex it owns. */
  lemma AfterBooks(x: Sys, e: Event)
    requires Books(x) && NoSelfWait(x) && Legal(x, e)
    ensures Books(After(x, e)) && NoSelfWait(After(x, e))
  {
    hide Books, NoSelfWait;
    match e
    case EMutexLock(m, timed, noWait) => LockBooks(x, m, timed, noWait);
    case EMutexUnlock(m) => UnlockBooks(x, m);
    case EMutexTimeout(t, m) => ExpiredBooks(x, t, m); CleanUpBooks(Expired(x, t), m);
    case EMutexExpire(t, m) => ExpiredBooks(x, t, m);
    case EMutexCleanUp(m) => CleanUpBooks(x, m);
    case EOther(e) => OutsideBooks(x, e); OutsideNoSelfWait(x, e);
  }

  // ---------------------------------------------------------------- what that means

  /** Before any mutex is taken. */
  ghost predicate Fresh(x: Sys) {
    && Placement(x.s)
    && (forall m :: m in x.mutexes ==> x.mutexes[m].owner == None && x.mutexes[m].lockCount == 0 && Waiters(x, m) == [])
    && (forall t :: Held(x, t) == [] && Base(x, t) == Prio(x, t))
  }

  lemma FreshRight(x: Sys)
    requires Fresh(x)
    ensures Right(x) && NoSelfWait(x)
  {
    hide Placement;
  }

  lemma {:induction false} WantedBest(x: Sys, ms: seq<QueueId>, base: int)
    ensures var w := Wanted(x, ms, base);
            && w <= base && (forall m :: m in ms && Boost(x, m).Some? ==> w <= Boost(x, m).value)
            && (w == base || exists m :: m in ms && Boost(x, m) == Some(w))
  {
    hide Boost;
    if ms != [] {
      var below, top := ms[..|ms| - 1], ms[|ms| - 1];
      WantedBest(x, below, base);
      assert forall m :: m in ms <==> m in below || m == top;
      var w := Wanted(x, ms, base);
      if w != base && Boost(x, top) != Some(w) {
        assert w == Wanted(x, below, base);
        var m :| m in below && Boost(x, m) == Some(w);
        assert m in ms;
      }
    }
  }

  /** With every priority right, no thread is below its own priority or below any waiter for any
      of its mutexes, up to the ceiling, and each has its own priority or that of such a waiter. */
  lemma Inherits(x: Sys, o: ThreadId)
    requires Right(x)
    ensures Prio(x, o) <= Base(x, o)
    ensures forall m, k :: m in Held(x, o) && 0 <= k < |Waiters(x, m)| ==>
        Prio(x, o) <= Ceil(Prio(x, Waiters(x, m)[k]), x.ceiling)
    ensures Prio(x, o) == Base(x, o)
         || exists m :: m in Held(x, o) && Waiters(x, m) != []
                     && Prio(x, o) == Ceil(Prio(x, Waiters(x, m)[0]), x.ceiling)
  {
    LevelOf(x, o);
    WantedBest(x, Held(x, o), Base(x, o));
    forall m, k | m in Held(x, o) && 0 <= k < |Waiters(x, m)|
      ensures Prio(x, o) <= Ceil(Prio(x, Waiters(x, m)[k]), x.ceiling)
    {
      HeldIs(x, o, m);
      BestWaiter(x, m, k);
      assert Boost(x, m).Some?;
      hide Right, Wanted;
    }
    hide Right, Wanted;
  }

  lemma BestWaiter(x: Sys, m: QueueId, k: nat)
    requires Ordered(x) && m in x.mutexes && k < |Waiters(x, m)|
    ensures Prio(x, Waiters(x, m)[0]) <= Prio(x, Waiters(x, m)[k])
  {
    assert Sorted(x.s, Waiters(x, m));
    CountAt(Waiters(x, m), k);
    SortedStart(x.s, Waiters(x, m), 0);
    SortedBound(x.s, Waiters(x, m), Prio(x, Waiters(x, m)[0]), Waiters(x, m)[k]);
  }

  /** A mutex is handed to its best waiter, which then owns it once and at its own level. */
  lemma HandsOver(x: Sys, m: QueueId, k: nat)
    requires Releasing(x, m) && Ordered(x) && k < |Waiters(x, m)|
    ensures var x', w := Unlock(x, m).0, Waiters(x, m)[0];
            && m in x'.mutexes && x'.mutexes[m] == Mutex(Some(w), 1, Prio(x, w)) && T(x'.s, w).pendedOn.None?
            && Waiters(x', m) == Waiters(x, m)[1..] && Prio(x, w) <= Prio(x, Waiters(x, m)[k])
            && Prio(x', x.s.current) == Mx(x, m).origPrio
  {
    var w := Waiters(x, m)[0];
    BestWaiter(x, m, k);
    UnlockReleases(x, m);
    HandedIs(x, m, w);
    HandedSched(x, m, w);
    hide Releasing, Unlock, Placement, Sorted, Adjust, Wake;
  }

  // ---------------------------------------------------------------- getting one's own priority back

  /** A thread without mutexes is at its own priority, and the first mutex of any other remembers that priority. */
  predicate GroundedAt(x: Sys, t: ThreadId) {
    if Held(x, t) == [] then Prio(x, t) == Base(x, t) else Mx(x, Held(x, t)[0]).origPrio == Base(x, t)
  }

  ghost predicate Grounded(x: Sys) { forall t :: GroundedAt(x, t) }

  /** The mutex taken first is given up last, or the one taken next remembers the same priority. */
  predicate FirstLast(x: Sys, e: Event) {
    e.EMutexUnlock? && Releases(x, e.m) ==>
      var ms := Held(x, x.s.current);
      |ms| > 1 && ms[0] == e.m ==> Mx(x, ms[1]).origPrio == Base(x, x.s.current)
  }

  /** Only o has another priority. */
  lemma GroundedFrame(x: Sys, x': Sys, o: ThreadId)
    requires Grounded(x) && x'.mutexes == x.mutexes && x'.held == x.held
    requires forall u :: u != o ==> T(x'.s, u).prio == T(x.s, u).prio && Base(x', u) == Base(x, u)
    requires if Held(x, o) == [] then Prio(x', o) == Base(x', o) else Base(x', o) == Base(x, o)
    ensures Grounded(x')
  {
    forall t
      ensures GroundedAt(x', t)
    {
      assert GroundedAt(x, t);
    }
  }

  lemma TakenGrounded(x: Sys, m: QueueId)
    requires Ownership(x) && Grounded(x) && m in x.mutexes && x.mutexes[m].owner.None?
    ensures Grounded(Taken(x, m))
  {
    var x' := Taken(x, m);
    forall t
      ensures GroundedAt(x', t)
    {
      assert GroundedAt(x, t);
      if Held(x, t) != [] {
        HeldIs(x, t, Held(x, t)[0]);
      }
    }
  }

  lemma RecountGrounded(x: Sys, m: QueueId, count: nat)
    requires Grounded(x) && m in x.mutexes
    ensures Grounded(Recounted(x, m, count))
  {
    forall t
      ensures GroundedAt(Recounted(x, m, count), t)
    {
      assert GroundedAt(x, t);
    }
  }

  lemma BlockGrounded(x: Sys, m: QueueId, timed: bool)
    requires Books(x) && Grounded(x) && m in x.mutexes && x.mutexes[m].owner.Some?
    requires x.mutexes[m].owner != Some(x.s.current)
    requires x.s.current != x.s.idle && Ready(T(x.s, x.s.current))
    ensures Grounded(x.(s := BlockedState(x, m, timed)))
  {
    hide Placement, Ownership, Grounded, BlockedState, BoostedPrio, Insert;
    BlockBooks(x, m, timed);
    HeldOnce(x, x.mutexes[m].owner.value, m);
    GroundedFrame(x, x.(s := BlockedState(x, m, timed)), x.mutexes[m].owner.value);
  }

  lemma LockGrounded(x: Sys, m: QueueId, timed: bool, noWait: bool)
    requires Books(x) && Grounded(x) && Legal(x, EMutexLock(m, timed, noWait))
    ensures Grounded(Lock(x, m, timed, noWait).0)
  {
    hide Placement, Ownership, Grounded, Lock, BlockedState;
    FreeIffUnlocked(x, m);
    LockNow(x, m, timed, noWait);
    var mutex := x.mutexes[m];
    if mutex.lockCount == 0 {
      TakenGrounded(x, m);
    } else if mutex.owner == Some(x.s.current) {
      RecountGrounded(x, m, mutex.lockCount + 1);
    } else if !noWait {
      LockBlocks(x, m, timed);
      BlockGrounded(x, m, timed);
    }
  }

  lemma CleanUpGrounded(x: Sys, m: QueueId)
    requires Books(x) && Grounded(x) && m in x.mutexes && Mx(x, m).owner.Some?
    ensures Grounded(CleanUp(x, m))
  {
    var o, prio := Mx(x, m).owner.value, Restored(x.s, m, Mx(x, m).origPrio, x.ceiling);
    HeldOnce(x, o, m);
    assert o != x.s.idle;
    hide Ownership, Placement, Grounded, Adjust, Restored;
    AdjustEffect(x.s, o, prio);
    GroundedFrame(x, CleanUp(x, m), o);
  }

  lemma ExpiredGrounded(x: Sys, t: ThreadId, m: QueueId)
    requires Books(x) && Grounded(x) && WaitsFor(x, t, m) && T(x.s, t).timeout
    ensures Grounded(Expired(x, t))
  {
    hide Placement, Ownership, Expire, Grounded;
    ExpireLeaves(x, t, m);
    LeftGrounded(x, Expire(x.s, t), t, m);
  }

  lemma {:induction false} RemoveFirst(ms: seq<QueueId>, m: QueueId)
    requires ms != []
    ensures if ms[0] == m then Remove(ms, m) == ms[1..] else Remove(ms, m) != [] && Remove(ms, m)[0] == ms[0]
  {
  }

  /** The releasing thread ... */
  lemma ReleasedGround(x: Sys, x': Sys, m: QueueId, w: Option<ThreadId>)
    requires Ownership(x) && Releases(x, m) && RestoredPrio(x, x', m) && PassedOn(x, x', m, w)
    requires GroundedAt(x, x.s.current) && FirstLast(x, EMutexUnlock(m))
    ensures GroundedAt(x', x.s.current)
  {
    var t := x.s.current;
    HeldOnce(x, t, m);
    var ms := Held(x, t);
    RemoveFirst(ms, m);
    if |ms| > 1 && ms[0] == m {
      OnlyOnce(ms, 0, 1);
    }
    hide Ownership, Remove, Count;
  }

  /** ... and the others, the new owner among them. */
  lemma ReleasedGrounds(x: Sys, x': Sys, m: QueueId, w: Option<ThreadId>, u: ThreadId)
    requires Ownership(x) && Releases(x, m) && RestoredPrio(x, x', m) && PassedOn(x, x', m, w) && GroundedAt(x, u)
    requires u != x.s.current
    ensures GroundedAt(x', u)
  {
    if Held(x, u) != [] {
      HeldIs(x, u, Held(x, u)[0]);
    }
    hide Ownership, Remove;
  }

  lemma ReleasedGrounded(x: Sys, x': Sys, m: QueueId, w: Option<ThreadId>)
    requires Releasing(x, m) && Grounded(x) && Released(x, x', m, w) && FirstLast(x, EMutexUnlock(m))
    ensures Grounded(x')
  {
    hide Placement, Ownership, FirstLeft, PassedOn, RestoredPrio, GroundedAt, FirstLast;
    assert GroundedAt(x, x.s.current);
    ReleasedGround(x, x', m, w);
    forall u | u != x.s.current
      ensures GroundedAt(x', u)
    {
      ReleasedGrounds(x, x', m, w, u);
    }
  }

  lemma UnlockGrounded(x: Sys, m: QueueId)
    requires Books(x) && Grounded(x) && Legal(x, EMutexUnlock(m)) && FirstLast(x, EMutexUnlock(m))
    ensures Grounded(Unlock(x, m).0)
  {
    FreeIffUnlocked(x, m);
    UnlockNow(x, m);
    hide Unlock, Released, Books, FirstLast, Grounded;
    var mutex := x.mutexes[m];
    if mutex.owner == Some(x.s.current) {
      if mutex.lockCount > 1 {
        RecountGrounded(x, m, mutex.lockCount - 1);
      } else {
        ReleaseIs(x, m);
        ReleasedGrounded(x, Unlock(x, m).0, m, if Waiters(x, m) == [] then None else Some(Waiters(x, m)[0]));
      }
    }
  }

  lemma OutsideGrounded(x: Sys, e: Scheduler.Event)
    requires Books(x) && Grounded(x) && Outside(x, e)
    ensures Grounded(AfterOutside(x, e))
  {
    hide Ownership, Grounded, Step, Spares, GivenPrio, Left;
    var s' := Step(x.s, e);
    if e.ECreate? || e.ESetPrio? {
      CreateGives(x, e);
      GivenGrounded(x, s', e.t);
    } else if Sparing(x, e) {
      var w := OutsideSpares(x, e);
      SamePrioGrounded(x, s', w);
    } else {
      AbortIs(x.s, e.t);
      AbortLeaves(x, e.t, T(x.s, e.t).pendedOn.value);
      LeftGrounded(x, s', e.t, T(x.s, e.t).pendedOn.value);
    }
  }

  lemma GivenGrounded(x: Sys, s': Sched, t: ThreadId)
    requires Grounded(x) && GivenPrio(x, s', t)
    ensures Grounded(Given(x, s', t))
  {
    hide Grounded, Placement;
    GroundedFrame(x, Given(x, s', t), t);
  }

  lemma SamePrioGrounded(x: Sys, s': Sched, w: Option<QueueId>)
    requires Grounded(x) && Spares(x.s, s', w)
    ensures Grounded(x.(s := s'))
  {
    assert GroundedAt(x, 0);
    hide Grounded;
    GroundedFrame(x, x.(s := s'), 0);
  }

  lemma LeftGrounded(x: Sys, s': Sched, t: ThreadId, m: QueueId)
    requires Grounded(x) && Left(x, s', t, m)
    ensures Grounded(x.(s := s'))
  {
    assert GroundedAt(x, 0);
    hide Grounded, Placement;
    GroundedFrame(x, x.(s := s'), 0);
  }

  lemma AfterGrounded(x: Sys, e: Event)
    requires Books(x) && NoSelfWait(x) && Grounded(x) && Legal(x, e) && FirstLast(x, e)
    ensures Grounded(After(x, e))
  {
    hide Books, Grounded, NoSelfWait, FirstLast;
    match e
    case EMutexLock(m, timed, noWait) => LockGrounded(x, m, timed, noWait);
    case EMutexUnlock(m) => UnlockGrounded(x, m);
    case EMutexTimeout(t, m) => ExpiredGrounded(x, t, m); ExpiredBooks(x, t, m); CleanUpGrounded(Expired(x, t), m);
    case EMutexExpire(t, m) => ExpiredGrounded(x, t, m);
    case EMutexCleanUp(m) => CleanUpGrounded(x, m);
    case EOther(e) => OutsideGrounded(x, e);
  }

  ghost predicate FirstLastRun(x: Sys, es: seq<Event>)
    requires LegalRun(x, es)
    decreases |es|
  {
    es == [] || (FirstLast(x, es[0]) && FirstLastRun(After(x, es[0]), es[1..]))
  }

  /** Through every legal run in which each thread gives up last the mutex it took first, whatever
      boosts, timeouts, aborts and priority changes come in between: a thread without mutexes is
      at its own priority. */
  lemma {:induction false} BaseRestored(x: Sys, es: seq<Event>, t: ThreadId)
    requires Books(x) && NoSelfWait(x) && Grounded(x) && LegalRun(x, es) && FirstLastRun(x, es)
    ensures Held(Run(x, es), t) == [] ==> Prio(Run(x, es), t) == Base(Run(x, es), t)
    ensures Books(Run(x, es)) && NoSelfWait(Run(x, es)) && Grounded(Run(x, es))
    decreases |es|
  {
    if es == [] {
      assert GroundedAt(x, t);
    } else {
      AfterBooks(x, es[0]);
      AfterGrounded(x, es[0]);
      hide Books, NoSelfWait, Grounded, After, Legal, FirstLast;
      BaseRestored(After(x, es[0]), es[1..], t);
    }
  }

  /** Releasing in reverse order is a case of that. */
  lemma ReverseOrder(x: Sys, m: QueueId)
    requires Books(x) && (Releases(x, m) ==> Top(x, x.s.current, m))
    ensures FirstLast(x, EMutexUnlock(m))
  {
    var ms := Held(x, x.s.current);
    if Releases(x, m) && |ms| > 1 && ms[0] == m {
      HeldOnce(x, x.s.current, m);
      hide Books, Count;
      OnlyOnce(ms, 0, |ms| - 1);
    }
  }

  lemma UnlockStays(x: Sys, m: QueueId)
    requires Releasing(x, m)
    ensures var s' := Unlock(x, m).0.s; s'.current == x.s.current && Ready(T(s', x.s.current))
  {
    UnlockReleases(x, m);
    ReleaseSched(x, m);
    ReleaseFacts(x, m);
    AdjustEffect(x.s, x.s.current, Mx(x, m).origPrio);
    if Waiters(x, m) != [] {
      HandedSched(x, m, Waiters(x, m)[0]);
    }
    hide Releasing, Unlock, Adjust, Wake, Placement, Remove;
  }

  /** A thread whose first mutex does not remember its own priority can end up without mutexes
      and not at that priority. */
  lemma Stranded(x: Sys) returns (es: seq<Event>)
    requires Books(x) && NoSelfWait(x) && Ready(T(x.s, x.s.current)) && Held(x, x.s.current) != []
    requires Mx(x, Held(x, x.s.current)[0]).origPrio != Base(x, x.s.current)
    ensures LegalRun(x, es) && Held(Run(x, es), x.s.current) == []
    ensures Prio(Run(x, es), x.s.current) != Base(Run(x, es), x.s.current)
    decreases |Held(x, x.s.current)|, Mx(x, Held(x, x.s.current)[|Held(x, x.s.current)| - 1]).lockCount
  {
    hide Books, NoSelfWait, Unlock, Ready;
    var t := x.s.current;
    var ms := Held(x, t);
    var m := ms[|ms| - 1];
    StepsDown(x, m);
    var e := EMutexUnlock(m);
    var x' := Unlock(x, m).0;
    AfterBooks(x, e);
    var rest: seq<Event> := [];
    if Held(x', t) != [] {
      rest := Stranded(x');
    }
    es := [e] + rest;
    assert es[1..] == rest;
  }

  lemma StepsDown(x: Sys, m: QueueId)
    requires Books(x) && Ready(T(x.s, x.s.current)) && Top(x, x.s.current, m)
    ensures m in x.mutexes
    ensures var t, x' := x.s.current, Unlock(x, m).0;
            && x'.s.current == t && Ready(T(x'.s, t)) && Base(x', t) == Base(x, t)
            && (x.mutexes[m].lockCount > 1 ==>
                 Held(x', t) == Held(x, t) && Mx(x', m).lockCount < x.mutexes[m].lockCount)
            && (x.mutexes[m].lockCount <= 1 ==>
                  Held(x', t) == Held(x, t)[..|Held(x, t)| - 1] && Prio(x', t) == Mx(x, m).origPrio)
            && forall n :: n in Held(x', t) ==> Mx(x', n).origPrio == Mx(x, n).origPrio
  {
    HeldIs(x, x.s.current, m);
    FreeIffUnlocked(x, m);
    UnlockNow(x, m);
    hide Books, Unlock;
    if x.mutexes[m].lockCount <= 1 {
      UnlockStays(x, m);
      LastGivenUp(x, m);
    }
  }

  lemma LastGivenUp(x: Sys, m: QueueId)
    requires Releasing(x, m) && Top(x, x.s.current, m)
    ensures var t, x' := x.s.current, Unlock(x, m).0;
            && Held(x', t) == Held(x, t)[..|Held(x, t)| - 1] && Base(x', t) == Base(x, t)
            && Prio(x', t) == Mx(x, m).origPrio
            && forall n :: n in Held(x', t) ==> Mx(x', n) == Mx(x, n)
  {
    ReleaseIs(x, m);
    ReleaseFacts(x, m);
    RemoveLast(Held(x, x.s.current), m);
    RemoveMember(Held(x, x.s.current), m, m);
    hide Releasing, Unlock, Placement, FirstLeft, Remove, Count;
  }

  /** And giving up first the mutex taken first, when the next one remembers another priority, leads there. */
  lemma BaseLost(x: Sys, m: QueueId) returns (es: seq<Event>)
    requires Releasing(x, m) && NoSelfWait(x) && Grounded(x) && !FirstLast(x, EMutexUnlock(m))
    ensures LegalRun(x, es) && es != [] && es[0] == EMutexUnlock(m)
    ensures Held(Run(x, es), x.s.current) == [] && Prio(Run(x, es), x.s.current) != Base(Run(x, es), x.s.current)
  {
    var e := EMutexUnlock(m);
    var x' := After(x, e);
    AfterBooks(x, e);
    UnlockStays(x, m);
    FirstGivenUp(x, m);
    hide Releasing, Books, NoSelfWait, Grounded, FirstLast;
    var rest := Stranded(x');
    es := [e] + rest;
    assert es[1..] == rest;
  }

  lemma FirstGivenUp(x: Sys, m: QueueId)
    requires Releasing(x, m) && !FirstLast(x, EMutexUnlock(m))
    ensures var t, x' := x.s.current, Unlock(x, m).0;
            && Held(x', t) != [] && Mx(x', Held(x', t)[0]).origPrio != Base(x', t)
  {
    ReleaseIs(x, m);
    ReleaseFacts(x, m);
    var ms := Held(x, x.s.current);
    RemoveFirst(ms, m);
    OnlyOnce(ms, 0, 1);
    hide Releasing, Unlock, Placement, FirstLeft, Remove, Count;
  }

}
