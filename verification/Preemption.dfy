/**
 Who may take the processor from whom, in kernel/sched.c.  A thread that is
 cooperative, by its priority or by k_sched_lock, keeps the processor against
 every thread but a meta-IRQ one until it gives it up itself; a preemptible
 thread loses it to every better one.
 */
module Preemption {
  import opened Lists
  import opened Scheduler
  import opened MetaIrqs
  import opened Wrappers

  // ---------------------------------------------------------------- one decision

  /** By its priority, or by k_sched_lock. */
  predicate Cooperative(b: Tcb) { b.prio < 0 || b.locked > 0 }

  /** Another meta-IRQ thread that is queued, or that is on record and can run. */
  ghost predicate Intrudes(s: Sched, t: ThreadId) {
    t != s.current && MetaIrq(s, t) && (Count(s.runq, t) > 0 || (s.preempted == Some(t) && !Prevented(T(s, t))))
  }

  /** The running thread is able to run, and in the ready queue unless it is the idle thread. */
  ghost predicate Running(s: Sched) {
    !Prevented(T(s, s.current)) && (Count(s.runq, s.current) > 0 || s.current == s.idle)
  }

  /** A decision that may not preempt takes the processor from a cooperative thread exactly when a meta-
      IRQ thread asks for it, and then gives it to a meta-IRQ thread. */
  lemma CoopLosesExact(s: Sched)
    requires Sorted(s, s.runq) && Running(s) && !MetaIrq(s, s.idle)
    requires Cooperative(T(s, s.current)) && !MetaIrq(s, s.current)
    ensures var next := UpdateCache(s, false).cache;
            if exists t :: Intrudes(s, t) then MetaIrq(s, next) else next == s.current
  {
    if t :| Intrudes(s, t) {
      if Count(s.runq, t) > 0 {
        HeadIsBest(s, t);
      }
    } else {
      NotPreempted(s);
    }
  }

  /** The same for every thread that is not preemptible, a meta-IRQ thread included. */
  lemma NotPreempted(s: Sched)
    requires Running(s) && Cooperative(T(s, s.current)) && forall t :: !Intrudes(s, t)
    ensures UpdateCache(s, false).cache == s.current
  {
    if s.runq != [] {
      assert !Intrudes(s, s.runq[0]);
    }
    if s.preempted.Some? {
      assert !Intrudes(s, s.preempted.value);
    }
  }

  lemma HeadIsBest(s: Sched, t: ThreadId)
    requires Sorted(s, s.runq) && Count(s.runq, t) > 0
    ensures T(s, s.runq[0]).prio <= T(s, t).prio
  {
    SortedStart(s, s.runq, 0);
    SortedBound(s, s.runq, T(s, s.runq[0]).prio, t);
  }

  /** The cooperative thread to return to, if it can run and no meta-IRQ thread is ready. */
  ghost predicate Returns(s: Sched, t: ThreadId) {
    s.preempted == Some(t) && !Prevented(T(s, t)) && forall u :: Count(s.runq, u) > 0 ==> !MetaIrq(s, u)
  }

  /** A decision that may preempt, or with a running thread that is preemptible or cannot go on, is for
      the thread to return to, and without one for the head of the ready queue, which no queued thread
      is better than; for the idle thread exactly when the queue is empty. */
  lemma GivesWay(s: Sched, ok: bool, t: ThreadId)
    requires Sorted(s, s.runq) && (ok || Prevented(T(s, s.current)) || !Cooperative(T(s, s.current)))
    ensures var next := UpdateCache(s, ok).cache;
            && (Returns(s, t) ==> next == t)
            && ((forall u :: !Returns(s, u)) ==>
                  && next == (if s.runq == [] then s.idle else s.runq[0])
                  && (Count(s.runq, t) > 0 ==> T(s, next).prio <= T(s, t).prio))
  {
    if Count(s.runq, t) > 0 {
      HeadIsBest(s, t);
    }
    if s.preempted.Some? && s.runq != [] && !MetaIrq(s, s.runq[0]) {
      forall u | Count(s.runq, u) > 0
        ensures !MetaIrq(s, u)
      {
        HeadIsBest(s, u);
      }
      assert Prevented(T(s, s.preempted.value)) || Returns(s, s.preempted.value);
    } else if s.preempted.Some? && s.runq == [] {
      assert Prevented(T(s, s.preempted.value)) || Returns(s, s.preempted.value);
    }
  }

  // ---------------------------------------------------------------- a cooperative thread through a run

  /** What the running thread does to itself, time slicing, or a priority change of any thread. */
  predicate GivesUp(s: Sched, e: Event) {
    match e
    case EPendCurrent(_, _) => true
    case ESleep => true
    case EYield => true
    case ERotate => true
    case ESetPrio(_, _) => true
    case ESuspend(t) => t == s.current
    case EAbort(t) => t == s.current
    case _ => false
  }

  /** The running thread has the processor and keeps it, is not preemptible, and no other meta-IRQ
      thread can run. */
  ghost predicate Holds(s: Sched) {
    s.cache == s.current && Ready(T(s, s.current)) && Cooperative(T(s, s.current)) && forall t :: Idles(s, t)
  }

  /** t is the running thread, or an ordinary one, or cannot run. */
  ghost predicate Idles(s: Sched, t: ThreadId) {
    t != s.current && MetaIrq(s, t) ==> !Ready(T(s, t)) && (s.preempted == Some(t) ==> Prevented(T(s, t)))
  }

  lemma HoldsQueued(s: Sched)
    requires Placement(s) && Ready(T(s, s.current))
    ensures Running(s)
  {
  }

  lemma QueuedReady(s: Sched, t: ThreadId)
    requires Placement(s) && Count(s.runq, t) > 0
    ensures Ready(T(s, t))
  {
  }

  lemma NotRunning(s: Sched, t: ThreadId)
    requires Placement(s) && Ready(T(s, s.current)) && (T(s, t).pendedOn.Some? || (!T(s, t).queued && t != s.idle))
    ensures t != s.current
  {
    PendedPends(s, t);
    hide InLists, Sorted;
  }

  /** A decision on s1 between s and s', for which nothing but t was touched and t, if it can run then
      and could not before, is queued. */
  lemma HoldsDecided(s: Sched, s1: Sched, t: ThreadId, s': Sched)
    requires Placement(s') && Holds(s) && SameRecord(s, s1) && Decided(s1, false, s')
    requires T(s1, t).prio == T(s, t).prio && forall u :: u != t ==> T(s1, u) == T(s, u)
    requires !Prevented(T(s1, t)) && t != s.current ==> Count(s1.runq, t) > 0 || !Prevented(T(s, t))
    requires Ready(T(s', s.current)) && !Prevented(T(s1, s.current)) && Cooperative(T(s', s.current))
    requires forall u :: Idles(s', u)
    ensures s'.cache == s.current
  {
    hide UpdateCache, Placement, Ready;
    HoldsQueued(s');
    forall u
      ensures !Intrudes(s1, u)
    {
      assert Idles(s', u) && Idles(s, u) && MetaIrq(s1, u) == MetaIrq(s', u);
      if Count(s1.runq, u) > 0 {
        QueuedReady(s', u);
      }
    }
    NotPreempted(s1);
  }

  lemma HoldsReadied(s: Sched, s1: Sched, t: ThreadId)
    requires Holds(s) && Before(s, s1, t) && t != s.current && Placement(ReadyThread(s1, t))
    requires forall u :: Idles(ReadyThread(s1, t), u)
    ensures var s' := ReadyThread(s1, t);
            s'.cache == s.current == s'.current && T(s', s.current) == T(s, s.current)
  {
    hide UpdateCache, Placement, Insert, Idles;
    if Ready(T(s1, t)) {
      var s2 := RunAdd(s1, t);
      UpdateFrame(s2, false);
      ReadyFollows(s, s1, t);
      InsertCount(s1, s1.runq, t, t);
      HoldsDecided(s, s2, t, ReadyThread(s1, t));
    }
  }

  /** What holds of the running thread after a call that is not one of its own. */
  ghost predicate Goes(s: Sched, s': Sched) {
    s'.cache == s.current == s'.current && Ready(T(s', s.current))
  }

  lemma StartHolds(s: Sched, t: ThreadId)
    requires Placement(s) && Holds(s) && Placement(Step(s, EStart(t))) && forall u :: Idles(Step(s, EStart(t)), u)
    ensures Goes(s, Step(s, EStart(t)))
  {
    hide ReadyThread, Placement, Idles;
    if T(s, t).prestart {
      HoldsReadied(s, Set(s, t, T(s, t).(prestart := false)), t);
    }
  }

  lemma WakeHolds(s: Sched, t: ThreadId)
    requires Placement(s) && Holds(s) && T(s, t).pendedOn.Some?
    requires Placement(Wake(s, t)) && forall u :: Idles(Wake(s, t), u)
    ensures Goes(s, Wake(s, t))
  {
    hide ReadyThread, Placement, Idles, Remove, WaitRemove;
    NotRunning(s, t);
    UnpendBefore(s, t);
    var s1 := WaitRemove(s, t);
    HoldsReadied(s, Set(s1, t, T(s1, t).(timeout := false)), t);
  }

  lemma UnpendBefore(s: Sched, t: ThreadId)
    requires T(s, t).pendedOn.Some?
    ensures Before(s, WaitRemove(s, t), t)
  {
    hide Remove;
  }

  lemma ExpireHolds(s: Sched, t: ThreadId)
    requires Placement(s) && Holds(s) && T(s, t).timeout
    requires Placement(Expire(s, t)) && forall u :: Idles(Expire(s, t), u)
    ensures Goes(s, Expire(s, t))
  {
    hide ReadyThread, Placement, Idles, Remove;
    var s0 := Set(s, t, T(s, t).(timeout := false));
    var s1 := if T(s0, t).pendedOn.Some? then WaitRemove(s0, t) else s0;
    HoldsReadied(s, Set(s1, t, T(s1, t).(prestart := false, suspended := false)), t);
  }

  lemma ResumeHolds(s: Sched, t: ThreadId)
    requires Placement(s) && Holds(s) && Enabled(s, EResume(t))
    requires Placement(Resume(s, t)) && forall u :: Idles(Resume(s, t), u)
    ensures Goes(s, Resume(s, t))
  {
    hide ReadyThread, Placement, Idles;
    NotRunning(s, t);
    HoldsReadied(s, Set(s, t, T(s, t).(suspended := false)), t);
  }

  lemma WakeupHolds(s: Sched, t: ThreadId)
    requires Placement(s) && Holds(s)
    requires Placement(Wakeup(s, t)) && forall u :: Idles(Wakeup(s, t), u)
    ensures Goes(s, Wakeup(s, t))
  {
    hide ReadyThread, Placement, Idles;
    if t != s.current && Wakeup(s, t) != s {
      HoldsReadied(s, Set(s, t, T(s, t).(timeout := false, suspended := false)), t);
    }
  }

  lemma SuspendHolds(s: Sched, t: ThreadId)
    requires Placement(s) && Holds(s) && t != s.current
    requires Placement(Suspend(s, t)) && forall u :: Idles(Suspend(s, t), u)
    ensures Goes(s, Suspend(s, t))
  {
    hide UpdateCache, Placement, Idles, Remove;
    SuspendFollows(s, t);
    var s1 := RemoveIfQueued(Set(s, t, T(s, t).(timeout := false)), t);
    var s2 := Set(s1, t, T(s1, t).(suspended := true));
    UpdateFrame(s2, false);
    HoldsDecided(s, s2, t, Suspend(s, t));
  }

  lemma AbortHolds(s: Sched, t: ThreadId)
    requires Placement(s) && Holds(s) && t != s.current
    requires Placement(Abort(s, t)) && forall u :: Idles(Abort(s, t), u)
    ensures Goes(s, Abort(s, t))
  {
    hide UpdateCache, Placement, Remove;
    AbortFollows(s, t);
    var s0 := Set(s, t, T(s, t).(timeout := false));
    if Ready(T(s0, t)) {
      var s1 := RemoveIfQueued(s0, t);
      UpdateFrame(s1, false);
      HoldsDecided(s, s1, t, Abort(s, t));
    }
  }

  lemma UnlockHolds(s: Sched)
    requires Placement(s) && Holds(s) && Enabled(s, EUnlock) && Placement(Step(s, EUnlock))
    requires Cooperative(T(Step(s, EUnlock), s.current)) && forall u :: Idles(Step(s, EUnlock), u)
    ensures Goes(s, Step(s, EUnlock))
  {
    hide UpdateCache, Placement, Idles;
    UnlockFollows(s);
    var s1 := Set(s, s.current, T(s, s.current).(locked := T(s, s.current).locked - 1));
    UpdateFrame(s1, false);
    HoldsDecided(s, s1, s.current, Step(s, EUnlock));
  }

  lemma StepHolds(s: Sched, e: Event)
    requires Placement(s) && Holds(s) && Enabled(s, e) && !GivesUp(s, e)
    requires Cooperative(T(Step(s, e), s.current)) && forall t :: Idles(Step(s, e), t)
    ensures Placement(Step(s, e)) && Holds(Step(s, e)) && Step(s, e).current == s.current
  {
    StepPlaces(s, e);
    hide Placement, Wake, Expire, Suspend, Resume, Wakeup, Abort, ReadyThread, UpdateCache, Idles;
    match e
    case ECreate(t, prio, delayed) =>
    case EStart(t) => StartHolds(s, t); hide Step;
    case EWakeFirst(w) =>
      if WaitQ(s, w) != [] && T(s, WaitQ(s, w)[0]).pendedOn.Some? {
        WakeHolds(s, WaitQ(s, w)[0]);
      }
    case EWake(t) => WakeHolds(s, t);
    case EExpire(t) => ExpireHolds(s, t);
    case ESuspend(t) => SuspendHolds(s, t);
    case EResume(t) => ResumeHolds(s, t);
    case EWakeup(t) => WakeupHolds(s, t);
    case EAbort(t) => AbortHolds(s, t);
    case ELock =>
    case EUnlock => UnlockHolds(s); hide Step;
    case ESwap =>
  }

  /** Through the run the running thread does none of these things, stays non-preemptible, and no other
      meta-IRQ thread can run. */
  ghost predicate Undisturbed(s: Sched, es: seq<Event>)
    requires EnabledRun(s, es)
    decreases |es|
  {
    es == [] ||
    (&& !GivesUp(s, es[0]) && Cooperative(T(Step(s, es[0]), s.current)) && (forall t :: Idles(Step(s, es[0]), t))
     && Undisturbed(Step(s, es[0]), es[1..]))
  }

  /** The promise to a cooperative thread, and to one that holds the scheduler lock: whatever other
      threads are created, started, woken, resumed, suspended or aborted, however good their priorities,
      and whatever timeouts expire, it keeps the processor until it gives it up. */
  lemma {:induction false} CoopKeepsRunning(s: Sched, es: seq<Event>)
    requires Placement(s) && Holds(s) && EnabledRun(s, es) && Undisturbed(s, es)
    ensures Holds(Run(s, es)) && Run(s, es).current == s.current
    decreases |es|
  {
    if es != [] {
      StepHolds(s, es[0]);
      hide Placement, Step, Enabled, Holds, GivesUp, Idles;
      CoopKeepsRunning(Step(s, es[0]), es[1..]);
    }
  }

  /** A priority change is on the list because it decides as if the running thread had asked for it:
      raising another thread takes the processor from a cooperative one. */
  lemma RaisedTakesOver()
    ensures var s := CoopAndLow();
            Placement(s) && Holds(s) && Enabled(s, ESetPrio(2, -5)) && Step(s, ESetPrio(2, -5)).cache == 2
  {
    CoopPlaced();
    var s := CoopAndLow();
    hide Placement;
    assert [1, 2][1..] == [2];
    assert Remove([2], 2) == [];
    assert Remove([1, 2], 2) == [1];
    var s2 := Set(s.(runq := [1]), 2, T(s, 2).(prio := -5));
    assert Insert(s2, [1], 2) == [2, 1];
  }

  lemma CoopPlaced()
    ensures Placement(CoopAndLow())
  {
    var s := CoopAndLow();
    assert s.runq[1..] == [2] && [2][1..] == [];
    forall t
      ensures Count(s.runq, t) == One(T(s, t).queued)
    {
      assert Count([2], t) == One(t == 2);
    }
    assert SortedFrom(s, [2], -1);
    assert forall w :: WaitQ(s, w) == [];
  }

  /** A cooperative thread 1 runs, and thread 2 is ready. */
  function CoopAndLow(): Sched {
    var idle, coop := Tcb(15, 0, false, false, false, false, false, false, None),
                      Tcb(-1, 0, false, false, false, false, true, false, None);
    Sched(map[0 := idle, 1 := coop, 2 := coop.(prio := 5)], [1, 2], map[], 0, 1, 1, None, -8)
  }

  // ---------------------------------------------------------------- the choice through every run

  /** No thread is a meta-IRQ one, as when the kernel is built without such priorities. */
  ghost predicate NoMetas(s: Sched) { s.preempted.None? && forall t :: !MetaIrq(s, t) }

  /** The choice is the head of the ready queue (the idle thread if it is empty), or the running thread
      if that can go on and is not preemptible. */
  ghost predicate Chosen(s: Sched) {
    s.cache == Best(s) || (s.cache == s.current && !Prevented(T(s, s.current)) && Cooperative(T(s, s.current)))
  }

  /** Calls that make no meta-IRQ thread. The running thread's own priority is not changed once it has
      put itself to sleep and been resumed, before the switch. */
  predicate Ordinary(s: Sched, e: Event) {
    match e
    case ECreate(_, prio, _) => s.meta <= prio
    case ESetPrio(t, prio) => s.meta <= prio && (t == s.current ==> Ready(T(s, t)) || Prevented(T(s, t)))
    case _ => true
  }

  lemma UpdateChosen(s: Sched, ok: bool)
    requires NoMetas(s)
    ensures var s' := UpdateCache(s, ok);
            s'.preempted.None? && (s'.cache == Best(s) ||
              (!ok && s'.cache == s.current && !Prevented(T(s, s.current)) && Cooperative(T(s, s.current))))
  {
    assert !MetaIrq(s, Best(s));
  }

  lemma DecidedChosen(s: Sched, s1: Sched, ok: bool, s': Sched)
    requires s.preempted.None? && SameRecord(s, s1) && Decided(s1, ok, s') && forall t :: !MetaIrq(s', t)
    ensures NoMetas(s') && Chosen(s')
  {
    hide UpdateCache;
    assert forall t :: MetaIrq(s1, t) == MetaIrq(s', t);
    UpdateChosen(s1, ok);
  }

  /** A call that decides nothing leaves the queue alone, and a thread that could go on. */
  lemma UndecidedChosen(s: Sched, e: Event)
    requires Enabled(s, e) && !e.ESwap? && PointOf(s, e).NoDecision? && Ordinary(s, e) && Chosen(s)
    ensures Chosen(Step(s, e))
  {
    hide UpdateCache, Insert, Remove;
  }

  lemma StepOrdinary(s: Sched, e: Event, t: ThreadId)
    requires Enabled(s, e) && Ordinary(s, e) && !MetaIrq(s, t)
    ensures !MetaIrq(Step(s, e), t) && Step(s, e).meta == s.meta
  {
    match e
    case ECreate(_, _, _) =>
    case ELock =>
    case EUnlock => UnlockFollows(s); hide UpdateCache;
    case ESetPrio(x, prio) => SetPrioKinds(s, x, prio); SetPrioFollows(s, x, prio); hide SetPrio, SetPrioPoint;
    case ESwap =>
    case _ => StepFollows(s, e); hide Step, PointOf;
  }

  lemma StepChosen(s: Sched, e: Event)
    requires Enabled(s, e) && Ordinary(s, e) && NoMetas(s) && Chosen(s)
    ensures NoMetas(Step(s, e)) && Chosen(Step(s, e))
  {
    forall t
      ensures !MetaIrq(Step(s, e), t)
    {
      StepOrdinary(s, e, t);
    }
    if !e.ESwap? {
      AnyFollows(s, e);
      hide Step, PointOf;
      match PointOf(s, e)
      case NoDecision => UndecidedChosen(s, e);
      case Decision(s1, ok) => DecidedChosen(s, s1, ok, Step(s, e));
    }
  }

  ghost predicate OrdinaryRun(s: Sched, es: seq<Event>)
    requires EnabledRun(s, es)
    decreases |es|
  {
    es == [] || (Ordinary(s, es[0]) && OrdinaryRun(Step(s, es[0]), es[1..]))
  }

  lemma {:induction false} EveryRunChosen(s: Sched, es: seq<Event>)
    requires EnabledRun(s, es) && OrdinaryRun(s, es) && NoMetas(s) && Chosen(s)
    ensures Chosen(Run(s, es))
    decreases |es|
  {
    if es != [] {
      StepChosen(s, es[0]);
      hide Step, Enabled, Chosen, NoMetas, Ordinary;
      EveryRunChosen(Step(s, es[0]), es[1..]);
    }
  }

  /** From boot, through every run without meta-IRQ threads: a running thread that is preemptible or
      cannot go on gives way to every better thread that is ready, and the next thread is the idle one
      only if no other is ready; any other running thread keeps the processor or has given it up to the
      best. */
  lemma BestRuns(idle: ThreadId, prio: int, meta: int, es: seq<Event>, t: ThreadId)
    requires meta <= 0 && meta <= prio
    requires EnabledRun(Booted(idle, prio, meta), es) && OrdinaryRun(Booted(idle, prio, meta), es)
    ensures var s := Run(Booted(idle, prio, meta), es);
            var bound := Prevented(T(s, s.current)) || !Cooperative(T(s, s.current)) || s.cache != s.current;
            && (bound ==> Ready(T(s, s.cache)))
            && (bound && Ready(T(s, t)) && t != s.idle ==> s.cache != s.idle && T(s, s.cache).prio <= T(s, t).prio)
  {
    var s0 := Booted(idle, prio, meta);
    BootedPlaces(idle, prio, meta);
    EveryRunPlaces(s0, es);
    EveryRunChosen(s0, es);
    BestIsBest(Run(s0, es), t);
  }

  lemma BestIsBest(s: Sched, t: ThreadId)
    requires Placement(s)
    ensures Ready(T(s, Best(s)))
    ensures Ready(T(s, t)) && t != s.idle ==> Best(s) != s.idle && T(s, Best(s)).prio <= T(s, t).prio
  {
    var s' := s.(preempted := None);
    assert forall u :: T(s', u) == T(s, u);
    assert forall w :: WaitQ(s', w) == WaitQ(s, w);
    FrameKeepsSorted(s, s', s.runq, 0);
    hide Sorted, Count;
    NextUpIsBest(s', t);
  }

  // ---------------------------------------------------------------- giving up the processor

  /** A thread that yields, or whose time slice ends, goes behind every ready thread that is as good. */
  lemma YieldGoesBehind(s: Sched, e: Event, t: ThreadId)
    requires Placement(s) && s.preempted.None? && s.current != s.idle && (e == EYield || e == ERotate) && Enabled(s, e)
    requires t != s.current && t != s.idle && Ready(T(s, t)) && T(s, t).prio <= T(s, s.current).prio
    ensures var next := Step(s, e).cache; next != s.current && next != s.idle && T(s, next).prio <= T(s, t).prio
  {
    var q := Remove(s.runq, s.current);
    RemoveCount(s.runq, s.current, t);
    RemoveKeepsSorted(s, s.runq, s.current);
    Requeued(s, e);
    OffHead(s, q, t);
  }

  lemma Requeued(s: Sched, e: Event)
    requires Placement(s) && s.preempted.None? && s.current != s.idle && (e == EYield || e == ERotate) && Enabled(s, e)
    ensures var q := Insert(s, Remove(s.runq, s.current), s.current);
            q != [] && Step(s, e).cache == q[0]
  {
    assert T(s, s.current).queued;
    hide InLists, Sorted, Remove, Insert;
    var s0 := s.(runq := Remove(s.runq, s.current));
    InsertFrame(s, s0, s0.runq, s.current);
    InsertFrame(s, RunRemove(s, s.current), s0.runq, s.current);
    InsertSome(s, s0.runq, s.current);
  }

  lemma InsertSome(s: Sched, q: seq<ThreadId>, t: ThreadId)
    ensures Insert(s, q, t) != []
  {
  }

  lemma OffHead(s: Sched, q: seq<ThreadId>, t: ThreadId)
    requires Placement(s) && q == Remove(s.runq, s.current) && Sorted(s, q) && Count(q, t) > 0
    requires T(s, t).prio <= T(s, s.current).prio
    ensures Insert(s, q, s.current) != [] && var next := Insert(s, q, s.current)[0];
            next != s.current && next != s.idle && T(s, next).prio <= T(s, t).prio
  {
    SortedStart(s, q, 0);
    SortedBound(s, q, T(s, q[0]).prio, t);
    assert Count(q, q[0]) > 0;
    RemoveCount(s.runq, s.current, q[0]);
    hide Sorted, SortedFrom;
  }
}
