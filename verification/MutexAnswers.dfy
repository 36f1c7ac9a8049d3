/**
 What the return codes of kernel/mutex.c tell the callers: which of them a call
 gives, and that through every run they keep the critical section to one thread.
 */
module MutexAnswers {
  import opened Lists
  import opened Mutexes
  import opened MutexRuns
  import opened Scheduler
  import opened Wrappers

  // ---------------------------------------------------------------- one call

  /** The answer to a lock: 0 exactly when the caller now owns the mutex with one more lock on it, which
      is when nobody else owned it; busy exactly when another thread owns it and the caller does not
      wait, and then nothing has changed; otherwise the caller now waits for it, with a timeout if it
      gave one, and no mutex has changed. */
  lemma LockAnswers(x: Sys, m: QueueId, timed: bool, noWait: bool)
    requires Books(x) && Legal(x, EMutexLock(m, timed, noWait))
    ensures var (x', rc) := Lock(x, m, timed, noWait);
            var t, before, after := x.s.current, Mx(x, m), Mx(x', m);
            && (rc == Some(0) <==> after.owner == Some(t) && after.lockCount == before.lockCount + 1)
            && (rc == Some(0) <==> before.owner == None || before.owner == Some(t))
            && (rc == Some(-EBUSY) <==> noWait && before.owner != None && before.owner != Some(t))
            && (rc == None <==> WaitsFor(x', t, m))
            && (rc == None ==> x'.mutexes == x.mutexes && (T(x'.s, t).timeout <==> timed))
            && (rc in {Some(0), Some(-EBUSY), None}) && (rc == Some(-EBUSY) ==> x' == x)
            && x'.s.current == t && forall n :: n != m ==> Mx(x', n) == Mx(x, n)
  {
    FreeIffUnlocked(x, m);
    NotWaiting(x, m);
    LockRest(x, m, timed, noWait);
    if Mx(x, m).owner.Some? && Mx(x, m).owner.value != x.s.current {
      LockBlocks(x, m, timed);
      BlockedWaits(x, m, timed);
    }
    hide Pend, Adjust, Books, BlockedState;
  }

  lemma LockRest(x: Sys, m: QueueId, timed: bool, noWait: bool)
    requires Legal(x, EMutexLock(m, timed, noWait))
    ensures var x' := Lock(x, m, timed, noWait).0;
            x'.mutexes.Keys == x.mutexes.Keys && forall n :: n != m ==> Mx(x', n) == Mx(x, n)
  {
    hide Pend, Adjust;
  }

  lemma NotWaiting(x: Sys, m: QueueId)
    requires Books(x) && Ready(T(x.s, x.s.current))
    ensures !WaitsFor(x, x.s.current, m)
  {
    NotPended(x.s, x.s.current);
    hide Ownership, Sorted;
  }

  lemma BlockedWaits(x: Sys, m: QueueId, timed: bool)
    requires Books(x) && m in x.mutexes && x.mutexes[m].owner.Some? && x.mutexes[m].owner != Some(x.s.current)
    requires !T(x.s, x.s.current).timeout
    ensures var s' := BlockedState(x, m, timed);
            && T(s', x.s.current).pendedOn == Some(m) && s'.current == x.s.current
            && (T(s', x.s.current).timeout <==> timed)
  {
    var o := x.mutexes[m].owner.value;
    assert o != x.s.idle;
    AdjustEffect(x.s, o, BoostedPrio(x, m));
    hide Books, Adjust, Pend, BoostedPrio;
    var s1 := Adjust(x.s, o, BoostedPrio(x, m));
    PendEffect(s1, m, timed);
    PendCurrent(s1, m, timed);
  }

  lemma PendCurrent(s: Sched, m: QueueId, timed: bool)
    ensures var s' := Pend(s, s.current, Some(m), timed);
            s'.current == s.current && (T(s', s.current).timeout <==> timed || T(s, s.current).timeout)
  {
    hide Insert, UpdateCache, Remove;
    UpdateFrame(RemoveIfQueued(s, s.current), true);
  }

  /** The answer to an unlock: 0 exactly when the caller owned the mutex, invalid exactly when nobody
      did, not permitted exactly when another thread did; the last two change nothing. A caller with
      more than one lock keeps the mutex with one less; otherwise it goes, locked once, to the first
      waiter, which waits no longer, and to nobody if there is none. */
  lemma UnlockAnswers(x: Sys, m: QueueId)
    requires Books(x) && Legal(x, EMutexUnlock(m))
    ensures var (x', rc) := Unlock(x, m);
            var t, before, after := x.s.current, Mx(x, m), Mx(x', m);
            && (rc == 0 <==> before.owner == Some(t))
            && (rc == -EINVAL <==> before.owner == None)
            && (rc == -EPERM <==> before.owner != None && before.owner != Some(t))
            && (rc != 0 ==> x' == x)
            && (rc == 0 && before.lockCount > 1 ==>
                  after.owner == Some(t) && after.lockCount == before.lockCount - 1 && x'.s == x.s)
            && (rc == 0 && before.lockCount == 1 ==>
                  if Waiters(x, m) == [] then after.owner == None && after.lockCount == 0
                  else after.owner == Some(Waiters(x, m)[0]) && after.lockCount == 1)
            && (rc == 0 && before.lockCount == 1 ==> Waiters(x', m) == (if Waiters(x, m) == [] then []
                                                                        else Waiters(x, m)[1..]))
            && forall n :: n != m ==> Mx(x', n) == Mx(x, n)
  {
    hide Books, Unlock, Ready, Waiters;
    FreeIffUnlocked(x, m);
    UnlockNow(x, m);
    UnlockCode(x, m);
    if Releases(x, m) {
      ReleasedTable(x, m);
    }
  }

  lemma ReleasedTable(x: Sys, m: QueueId)
    requires Releasing(x, m)
    ensures var x' := Unlock(x, m).0;
            && x'.mutexes.Keys == x.mutexes.Keys && (forall n :: n != m ==> Mx(x', n) == Mx(x, n))
            && (if Waiters(x, m) == [] then Mx(x', m).owner == None && Mx(x', m).lockCount == 0
                else Mx(x', m).owner == Some(Waiters(x, m)[0]) && Mx(x', m).lockCount == 1)
            && Waiters(x', m) == if Waiters(x, m) == [] then [] else Waiters(x, m)[1..]
  {
    assert m in x.mutexes;
    hide Releasing, Unlock, Remove, Placement, Waiters, RestoredPrio, Held;
    ReleaseIs(x, m);
  }

  lemma UnlockCode(x: Sys, m: QueueId)
    ensures var owner := Mx(x, m).owner;
            Unlock(x, m).1 == if owner == None then -EINVAL else if owner == Some(x.s.current) then 0 else -EPERM
  {
    hide Adjust, Wake, Remove;
  }

  // ---------------------------------------------------------------- mutual exclusion

  /** How many locks t has on m. */
  function Locks(x: Sys, t: ThreadId, m: QueueId): nat {
    if Mx(x, m).owner == Some(t) then Mx(x, m).lockCount else 0
  }

  /** By what the calls of the run tell their callers, how often t comes into (or, if negative, out of)
      the section that m guards: in when its lock returns 0, which for a waiting caller is when an
      unlock ends the wait, and out when its unlock returns 0. */
  ghost function Enters(x: Sys, e: MutexRuns.Event, t: ThreadId, m: QueueId): int
    requires Legal(x, e)
  {
    match e
    case EMutexLock(n, timed, noWait) =>
      if n == m && t == x.s.current && Lock(x, m, timed, noWait).1 == Some(0) then 1 else 0
    case EMutexUnlock(n) =>
      if n != m then 0
      else if t == x.s.current then (if Unlock(x, m).1 == 0 then -1 else 0)
      else if WaitsFor(x, t, m) && !WaitsFor(After(x, e), t, m) then 1
      else 0
    case _ => 0
  }

  ghost function Inside(x: Sys, es: seq<MutexRuns.Event>, t: ThreadId, m: QueueId): int
    requires LegalRun(x, es)
    decreases |es|
  {
    if es == [] then 0 else Enters(x, es[0], t, m) + Inside(After(x, es[0]), es[1..], t, m)
  }

  lemma LockLocks(x: Sys, m: QueueId, timed: bool, noWait: bool, t: ThreadId, n: QueueId)
    requires Books(x) && Legal(x, EMutexLock(m, timed, noWait))
    ensures var e := EMutexLock(m, timed, noWait); Locks(After(x, e), t, n) == Locks(x, t, n) + Enters(x, e, t, n)
  {
    hide Books, Lock;
    LockAnswers(x, m, timed, noWait);
    FreeIffUnlocked(x, m);
  }

  lemma UnlockLocks(x: Sys, m: QueueId, t: ThreadId, n: QueueId)
    requires Books(x) && Legal(x, EMutexUnlock(m)) && Books(After(x, EMutexUnlock(m)))
    ensures var e := EMutexUnlock(m); Locks(After(x, e), t, n) == Locks(x, t, n) + Enters(x, e, t, n)
  {
    hide Books, Unlock, Ready, Waiters;
    UnlockAnswers(x, m);
    FreeIffUnlocked(x, m);
    if n == m && Releases(x, m) {
      ReleasedTable(x, m);
      LeavesFirst(x, After(x, EMutexUnlock(m)), m, t);
    }
  }

  /** With its first thread gone from the queue, that thread and nobody else has ceased to wait. */
  lemma LeavesFirst(x: Sys, x': Sys, m: QueueId, t: ThreadId)
    requires Books(x) && Books(x') && m in x.mutexes && m in x'.mutexes && Ready(T(x.s, x.s.current))
    requires Waiters(x', m) == if Waiters(x, m) == [] then [] else Waiters(x, m)[1..]
    ensures WaitsFor(x, t, m) && !WaitsFor(x', t, m) <==> Waiters(x, m) != [] && t == Waiters(x, m)[0]
    ensures Waiters(x, m) != [] ==> Waiters(x, m)[0] != x.s.current
  {
    NotWaiting(x, m);
    assert Count(WaitQ(x.s, m), t) == One(T(x.s, t).pendedOn == Some(m));
    assert Count(WaitQ(x'.s, m), t) == One(T(x'.s, t).pendedOn == Some(m));
    if Waiters(x, m) != [] {
      var w := Waiters(x, m)[0];
      assert Count(WaitQ(x.s, m), w) == One(T(x.s, w).pendedOn == Some(m));
    }
    hide Placement, Ownership;
  }

  lemma OtherLocks(x: Sys, e: MutexRuns.Event, t: ThreadId, m: QueueId)
    requires Legal(x, e) && !e.EMutexLock? && !e.EMutexUnlock?
    ensures Locks(After(x, e), t, m) == Locks(x, t, m) + Enters(x, e, t, m)
  {
    hide Expire, Adjust, Step, Restored;
  }

  /** Each call tells its caller the truth. */
  lemma AfterLocks(x: Sys, e: MutexRuns.Event, t: ThreadId, m: QueueId)
    requires Books(x) && NoSelfWait(x) && Legal(x, e)
    ensures Locks(After(x, e), t, m) == Locks(x, t, m) + Enters(x, e, t, m)
  {
    AfterBooks(x, e);
    match e
    case EMutexLock(n, timed, noWait) => LockLocks(x, n, timed, noWait, t, m);
    case EMutexUnlock(n) => UnlockLocks(x, n, t, m);
    case _ => OtherLocks(x, e, t, m);
  }

  lemma {:induction false} EveryRunLocks(x: Sys, es: seq<MutexRuns.Event>, t: ThreadId, m: QueueId)
    requires Books(x) && NoSelfWait(x) && LegalRun(x, es)
    ensures Locks(MutexRuns.Run(x, es), t, m) == Locks(x, t, m) + Inside(x, es, t, m) && Books(MutexRuns.Run(x, es))
    decreases |es|
  {
    if es != [] {
      AfterLocks(x, es[0], t, m);
      AfterBooks(x, es[0]);
      hide Books, NoSelfWait, After, Legal, Enters, Locks;
      EveryRunLocks(After(x, es[0]), es[1..], t, m);
    }
  }

  /** Mutual exclusion, through every legal run from mutexes that nobody has: a thread has come into the
      section as often as it has gone out, or more often; while it is inside, no other thread is, no
      other thread's lock returns 0 and no other thread's unlock does anything. */
  lemma MutualExclusion(x: Sys, es: seq<MutexRuns.Event>, m: QueueId, t: ThreadId, u: ThreadId)
    requires Fresh(x) && LegalRun(x, es) && t != u
    ensures var y := MutexRuns.Run(x, es);
            && Inside(x, es, t, m) >= 0
            && (Inside(x, es, t, m) > 0 ==> Inside(x, es, u, m) == 0)
            && (Inside(x, es, t, m) > 0 && y.s.current == u ==>
                  && (forall timed, noWait :: Legal(y, EMutexLock(m, timed, noWait)) ==>
                        Lock(y, m, timed, noWait).1 != Some(0))
                  && Unlock(y, m) == (y, -EPERM))
  {
    FreshRight(x);
    BooksOf(x);
    EveryRunLocks(x, es, t, m);
    EveryRunLocks(x, es, u, m);
    var y := MutexRuns.Run(x, es);
    if Inside(x, es, t, m) > 0 && y.s.current == u {
      Excluded(y, m, t, u);
    }
    hide Books, NoSelfWait, Lock, Unlock;
  }

  lemma Excluded(y: Sys, m: QueueId, t: ThreadId, u: ThreadId)
    requires Books(y) && t != u && Locks(y, t, m) > 0 && y.s.current == u
    ensures forall timed, noWait :: Legal(y, EMutexLock(m, timed, noWait)) ==> Lock(y, m, timed, noWait).1 != Some(0)
    ensures Unlock(y, m) == (y, -EPERM)
  {
    hide Books, Lock, Unlock;
    forall timed, noWait | Legal(y, EMutexLock(m, timed, noWait))
      ensures Lock(y, m, timed, noWait).1 != Some(0)
    {
      LockAnswers(y, m, timed, noWait);
    }
    UnlockNow(y, m);
    UnlockCode(y, m);
  }
}
