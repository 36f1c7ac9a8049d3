/**
 What the calls of kernel/sched.c do to the state of a thread: each is about one
 thread, leaves all others alone, and makes that thread ready, or not, as its
 other reasons to wait allow.
 */
module ThreadStates {
  import opened Lists
  import opened Scheduler
  import opened Wrappers

  /** The thread a call is about. */
  function Subject(s: Sched, e: Event): Option<ThreadId> {
    match e
    case ECreate(t, _, _) => Some(t)
    case EStart(t) => Some(t)
    case EPendCurrent(_, _) => Some(s.current)
    case EWakeFirst(w) => if WaitQ(s, w) == [] then None else Some(WaitQ(s, w)[0])
    case EWake(t) => Some(t)
    case EExpire(t) => Some(t)
    case ESuspend(t) => Some(t)
    case EResume(t) => Some(t)
    case EWakeup(t) => Some(t)
    case ESetPrio(t, _) => Some(t)
    case EYield => Some(s.current)
    case ERotate => Some(s.current)
    case EAbort(t) => Some(t)
    case ESleep => Some(s.current)
    case ELock => Some(s.current)
    case EUnlock => Some(s.current)
    case ESwap => None
  }

  /** It is alive and waits for nothing but, if so marked, to be started, to be resumed or for its timeout. */
  predicate Unpended(b: Tcb) { !b.pending && !b.dead }

  /** What becomes of that thread, b before and b' afterwards. */
  ghost predicate Effect(e: Event, b: Tcb, b': Tcb) {
    match e
    case ECreate(_, prio, delayed) =>
      b'.prio == prio && b'.locked == 0 && b'.prestart && !b'.dead && Unpended(b') && b'.timeout == delayed
    case EStart(_) => !b'.prestart && (b.prestart ==> (Ready(b') <==> Unpended(b) && !b.suspended && !b.timeout))
    case EPendCurrent(wq, timed) => b'.pending && b'.pendedOn == wq && b'.timeout == timed
    case EWakeFirst(_) => Woken(b, b')
    case EWake(_) => Woken(b, b')
    case EExpire(_) => !b'.timeout && (Ready(b') <==> !b.dead && (b.pending ==> b.pendedOn.Some?))
    case ESuspend(_) => b'.suspended && !b'.timeout && b'.pending == b.pending && b'.dead == b.dead
    case EResume(_) => !b'.suspended && (Ready(b') <==> Unpended(b) && !b.prestart && !b.timeout)
    case EWakeup(_) =>
      if b.pending || (!b.timeout && (!b.suspended || b.prestart || b.dead)) then b' == b
      else !b'.timeout && !b'.suspended && (Ready(b') <==> !b.prestart && !b.dead)
    case ESetPrio(_, prio) => b' == b.(prio := prio)
    case EYield => b' == b
    case ERotate => b' == b
    case EAbort(_) => b'.dead && !b'.timeout && (b.pending ==> b'.pendedOn.None?)
    case ESleep => b'.timeout && b'.suspended && Unpended(b')
    case ELock => b' == b.(locked := b.locked + 1)
    case EUnlock => b.locked > 0 && b' == b.(locked := b.locked - 1)
    case ESwap => true
  }

  /** No longer in its wait queue, and its timeout cancelled. */
  ghost predicate Woken(b: Tcb, b': Tcb) {
    !b'.pending && b'.pendedOn.None? && !b'.timeout && (Ready(b') <==> !b.dead && !b.prestart && !b.suspended)
  }

  /** Only priority changes and creation change priorities; only k_sched_lock and its inverse change locks. */
  ghost predicate KindsKept(e: Event, b: Tcb, b': Tcb) {
    && (!e.ECreate? && !e.ESetPrio? ==> b'.prio == b.prio)
    && (!e.ECreate? && !e.ELock? && !e.EUnlock? ==> b'.locked == b.locked)
  }

  /** s' differs from s in the thread t alone. */
  ghost predicate OnlyFor(s: Sched, s': Sched, t: ThreadId) { forall u :: u != t ==> T(s', u) == T(s, u) }

  lemma OnlyTwice(s: Sched, s1: Sched, s2: Sched, t: ThreadId)
    requires OnlyFor(s, s1, t) && OnlyFor(s1, s2, t)
    ensures OnlyFor(s, s2, t)
  {
  }

  lemma MarkedIs(s: Sched, s1: Sched, t: ThreadId, b: Tcb)
    requires OnlyFor(s, s1, t)
    ensures OnlyFor(s, Set(s1, t, b), t) && T(Set(s1, t, b), t) == b
  {
  }

  lemma Itself(s: Sched, t: ThreadId)
    ensures OnlyFor(s, s, t)
  {
  }

  lemma UpdatedIs(s: Sched, ok: bool, t: ThreadId)
    ensures OnlyFor(s, UpdateCache(s, ok), t) && T(UpdateCache(s, ok), t) == T(s, t)
  {
    hide UpdateCache;
    UpdateFrame(s, ok);
  }

  lemma ReadiedIs(s: Sched, t: ThreadId)
    ensures var s' := ReadyThread(s, t);
            OnlyFor(s, s', t) && T(s', t) == T(s, t).(queued := T(s, t).queued || Ready(T(s, t)))
  {
    hide Insert, UpdateCache;
    if Ready(T(s, t)) {
      UpdateFrame(RunAdd(s, t), false);
    }
  }

  lemma UnqueuedIs(s: Sched, t: ThreadId)
    ensures var s' := RemoveIfQueued(s, t); OnlyFor(s, s', t) && T(s', t) == T(s, t).(queued := false)
  {
    hide Remove;
  }

  lemma UnpendedIs(s: Sched, t: ThreadId)
    requires T(s, t).pendedOn.Some?
    ensures var s' := WaitRemove(s, t);
            OnlyFor(s, s', t) && T(s', t) == T(s, t).(pending := false, pendedOn := None)
  {
    hide Remove;
  }

  lemma StartEffect(s: Sched, t: ThreadId)
    ensures var s' := Step(s, EStart(t));
            OnlyFor(s, s', t) && Effect(EStart(t), T(s, t), T(s', t)) && KindsKept(EStart(t), T(s, t), T(s', t))
  {
    hide ReadyThread;
    ReadiedIs(Set(s, t, T(s, t).(prestart := false)), t);
  }

  lemma WakeEffect(s: Sched, t: ThreadId)
    requires T(s, t).pendedOn.Some?
    ensures var s' := Wake(s, t);
            OnlyFor(s, s', t) && Woken(T(s, t), T(s', t)) && KindsKept(EWake(t), T(s, t), T(s', t))
  {
    hide ReadyThread, WaitRemove, OnlyFor, Set;
    UnpendedIs(s, t);
    var s1 := WaitRemove(s, t);
    var s2 := Set(s1, t, T(s1, t).(timeout := false));
    MarkedIs(s, s1, t, T(s1, t).(timeout := false));
    ReadiedIs(s2, t);
    OnlyTwice(s, s2, ReadyThread(s2, t), t);
  }

  lemma ExpireEffect(s: Sched, t: ThreadId)
    ensures var s' := Expire(s, t);
            OnlyFor(s, s', t) && Effect(EExpire(t), T(s, t), T(s', t)) && KindsKept(EExpire(t), T(s, t), T(s', t))
  {
    hide ReadyThread, WaitRemove, OnlyFor, Set;
    var s0 := Set(s, t, T(s, t).(timeout := false));
    Itself(s, t);
    MarkedIs(s, s, t, T(s, t).(timeout := false));
    if T(s0, t).pendedOn.Some? {
      UnpendedIs(s0, t);
      OnlyTwice(s, s0, WaitRemove(s0, t), t);
    }
    var s1 := if T(s0, t).pendedOn.Some? then WaitRemove(s0, t) else s0;
    var b := T(s1, t).(prestart := false, suspended := false);
    MarkedIs(s, s1, t, b);
    ReadiedIs(Set(s1, t, b), t);
    OnlyTwice(s, Set(s1, t, b), ReadyThread(Set(s1, t, b), t), t);
  }

  lemma SuspendEffect(s: Sched, t: ThreadId)
    ensures var s' := Suspend(s, t);
            OnlyFor(s, s', t) && Effect(ESuspend(t), T(s, t), T(s', t)) && KindsKept(ESuspend(t), T(s, t), T(s', t))
  {
    hide UpdateCache, RemoveIfQueued, OnlyFor, Set;
    var s0 := Set(s, t, T(s, t).(timeout := false));
    Itself(s, t);
    MarkedIs(s, s, t, T(s, t).(timeout := false));
    UnqueuedIs(s0, t);
    var s1 := RemoveIfQueued(s0, t);
    OnlyTwice(s, s0, s1, t);
    var s2 := Set(s1, t, T(s1, t).(suspended := true));
    MarkedIs(s, s1, t, T(s1, t).(suspended := true));
    UpdatedIs(s2, t == s.current, t);
    OnlyTwice(s, s2, UpdateCache(s2, t == s.current), t);
  }

  lemma ResumeEffect(s: Sched, t: ThreadId)
    ensures var s' := Resume(s, t);
            OnlyFor(s, s', t) && Effect(EResume(t), T(s, t), T(s', t)) && KindsKept(EResume(t), T(s, t), T(s', t))
  {
    hide ReadyThread;
    ReadiedIs(Set(s, t, T(s, t).(suspended := false)), t);
  }

  lemma WakeupEffect(s: Sched, t: ThreadId)
    requires QueuedIffReady(s, None)
    ensures var s' := Wakeup(s, t);
            OnlyFor(s, s', t) && Effect(EWakeup(t), T(s, t), T(s', t)) && KindsKept(EWakeup(t), T(s, t), T(s', t))
  {
    hide ReadyThread;
    ReadiedIs(Set(s, t, T(s, t).(timeout := false, suspended := false)), t);
  }

  lemma SetPrioEffect(s: Sched, t: ThreadId, prio: int)
    ensures var s' := SetPrio(s, t, prio); OnlyFor(s, s', t) && T(s', t) == T(s, t).(prio := prio)
  {
    hide Insert, Remove, UpdateCache;
    if Ready(T(s, t)) {
      var s1 := s.(runq := Remove(s.runq, t));
      var s2 := Set(s1, t, T(s1, t).(prio := prio));
      UpdateFrame(s2.(runq := Insert(s2, s2.runq, t)), true);
    }
  }

  lemma RunListIs(s: Sched, s1: Sched, t: ThreadId)
    requires OnlyFor(s, s1, t) || s1.tcbs == s.tcbs
    ensures OnlyFor(s, RunAdd(s1, t), t) && T(RunAdd(s1, t), t) == T(s1, t).(queued := true)
  {
    hide Insert;
  }

  lemma RequeueEffect(s: Sched, e: Event)
    requires Placement(s) && Enabled(s, e) && (e == EYield || e == ERotate)
    ensures OnlyFor(s, Step(s, e), s.current) && T(Step(s, e), s.current) == T(s, s.current)
  {
    assert s.current != s.idle ==> T(s, s.current).queued;
    hide Remove, UpdateCache, InLists, Sorted, RunAdd, RemoveIfQueued, OnlyFor;
    var t, s0 := s.current, s.(runq := Remove(s.runq, s.current));
    Itself(s, t);
    RunListIs(s, s0, t);
    UnqueuedIs(s, t);
    RunListIs(s, RemoveIfQueued(s, t), t);
    UpdatedIs(RunAdd(s0, t), true, t);
    UpdatedIs(RunAdd(RemoveIfQueued(s, t), t), true, t);
    OnlyTwice(s, RunAdd(s0, t), UpdateCache(RunAdd(s0, t), true), t);
    OnlyTwice(s, RunAdd(RemoveIfQueued(s, t), t), UpdateCache(RunAdd(RemoveIfQueued(s, t), t), true), t);
  }

  lemma AbortEffect(s: Sched, t: ThreadId)
    requires Enabled(s, EAbort(t))
    ensures var s' := Abort(s, t);
            OnlyFor(s, s', t) && Effect(EAbort(t), T(s, t), T(s', t)) && KindsKept(EAbort(t), T(s, t), T(s', t))
  {
    hide UpdateCache, RemoveIfQueued, WaitRemove, OnlyFor, Set;
    var s0 := Set(s, t, T(s, t).(timeout := false));
    Itself(s, t);
    MarkedIs(s, s, t, T(s, t).(timeout := false));
    if Ready(T(s0, t)) {
      UnqueuedIs(s0, t);
      var s1 := RemoveIfQueued(s0, t);
      OnlyTwice(s, s0, s1, t);
      UpdatedIs(s1, t == s.current, t);
      var s2 := UpdateCache(s1, t == s.current);
      OnlyTwice(s, s1, s2, t);
      MarkedIs(s, s2, t, T(s2, t).(dead := true));
    } else if T(s0, t).pending {
      UnpendedIs(s0, t);
      var s1 := WaitRemove(s0, t);
      OnlyTwice(s, s0, s1, t);
      MarkedIs(s, s1, t, T(s1, t).(dead := true));
    } else {
      MarkedIs(s, s0, t, T(s0, t).(dead := true));
    }
  }

  lemma UnreadiedIs(s: Sched, t: ThreadId)
    ensures var s' := UnreadyThread(s, t); OnlyFor(s, s', t) && T(s', t) == T(s, t).(queued := false)
  {
    hide UpdateCache, RemoveIfQueued;
    UnqueuedIs(s, t);
    UpdateFrame(RemoveIfQueued(s, t), t == s.current);
  }

  lemma PendEffect(s: Sched, wq: Option<QueueId>, timed: bool)
    requires Placement(s) && Ready(T(s, s.current))
    ensures var t, s' := s.current, Pend(s, s.current, wq, timed);
            && OnlyFor(s, s', t) && Effect(EPendCurrent(wq, timed), T(s, t), T(s', t))
            && KindsKept(EPendCurrent(wq, timed), T(s, t), T(s', t))
  {
    NotPended(s, s.current);
    hide UnreadyThread, Insert, Placement;
    UnreadiedIs(s, s.current);
  }

  lemma SleepEffect(s: Sched)
    requires Ready(T(s, s.current))
    ensures var t, s' := s.current, Sleep(s);
            OnlyFor(s, s', t) && Effect(ESleep, T(s, t), T(s', t)) && KindsKept(ESleep, T(s, t), T(s', t))
  {
    hide UnreadyThread;
    UnreadiedIs(s, s.current);
  }

  /** Each call has its effect on the thread it is about, and none on the state of any other. */
  lemma StepEffect(s: Sched, e: Event, u: ThreadId)
    requires Placement(s) && Enabled(s, e)
    ensures Subject(s, e) != Some(u) ==> T(Step(s, e), u) == T(s, u)
    ensures Subject(s, e) == Some(u) ==> Effect(e, T(s, u), T(Step(s, e), u)) && KindsKept(e, T(s, u), T(Step(s, e), u))
  {
    hide Placement, Enabled, Step, Effect, KindsKept, T;
    match e
    case EWakeFirst(w) => WakeFirstEffect(s, w);
    case ESwap => SwapEffect(s);
    case _ =>
      if e.ECreate? || e.ESetPrio? || e.EYield? || e.ERotate? || e.ELock? || e.EUnlock? {
        MarkEffect(s, e);
      } else {
        CallEffect(s, e);
      }
  }

  lemma SwapEffect(s: Sched)
    ensures forall u :: T(Step(s, ESwap), u) == T(s, u)
  {
  }

  lemma MarkEffect(s: Sched, e: Event)
    requires Placement(s) && Enabled(s, e)
    requires e.ECreate? || e.ESetPrio? || e.EYield? || e.ERotate? || e.ELock? || e.EUnlock?
    ensures Subject(s, e).Some? && var t, s' := Subject(s, e).value, Step(s, e);
            OnlyFor(s, s', t) && Effect(e, T(s, t), T(s', t)) && KindsKept(e, T(s, t), T(s', t))
  {
    match e
    case ECreate(_, _, _) => hide Placement;
    case ESetPrio(t, prio) => SetPrioEffect(s, t, prio); hide SetPrio, Placement;
    case ELock => hide Placement;
    case EUnlock =>
      hide UpdateCache, Placement;
      UpdateFrame(Set(s, s.current, T(s, s.current).(locked := T(s, s.current).locked - 1)), false);
    case _ => RequeueEffect(s, e); hide Step, Placement;
  }

  lemma WakeFirstEffect(s: Sched, w: QueueId)
    requires Placement(s)
    ensures var s', q := Step(s, EWakeFirst(w)), WaitQ(s, w);
            if q == [] then s' == s
            else OnlyFor(s, s', q[0]) && Effect(EWakeFirst(w), T(s, q[0]), T(s', q[0])) &&
                 KindsKept(EWakeFirst(w), T(s, q[0]), T(s', q[0]))
  {
    hide Wake, Placement;
    if WaitQ(s, w) != [] {
      FirstPends(s, w);
      WakeEffect(s, WaitQ(s, w)[0]);
    }
  }

  lemma CallEffect(s: Sched, e: Event)
    requires Placement(s) && Enabled(s, e)
    requires e.EStart? || e.EPendCurrent? || e.EWake? || e.EExpire? || e.ESuspend? || e.EResume? || e.EWakeup? ||
             e.EAbort? || e.ESleep?
    ensures Subject(s, e).Some? && var t, s' := Subject(s, e).value, Step(s, e);
            OnlyFor(s, s', t) && Effect(e, T(s, t), T(s', t)) && KindsKept(e, T(s, t), T(s', t))
  {
    assert QueuedIffReady(s, None);
    hide Placement, QueuedIffReady, Pend, Wake, Expire, Suspend, Resume, Wakeup, Abort, Sleep, OnlyFor;
    match e
    case EStart(t) => StartEffect(s, t); hide Step;
    case EPendCurrent(wq, timed) => PendEffect(s, wq, timed);
    case EWake(t) => WakeEffect(s, t);
    case EExpire(t) => ExpireEffect(s, t);
    case ESuspend(t) => SuspendEffect(s, t);
    case EResume(t) => ResumeEffect(s, t);
    case EWakeup(t) => WakeupEffect(s, t);
    case EAbort(t) => AbortEffect(s, t);
    case ESleep => SleepEffect(s);
  }

  lemma FirstPends(s: Sched, w: QueueId)
    requires Placement(s) && WaitQ(s, w) != []
    ensures T(s, WaitQ(s, w)[0]).pendedOn == Some(w)
  {
    var t := WaitQ(s, w)[0];
    assert Count(WaitQ(s, w), t) == One(T(s, t).pendedOn == Some(w));
    hide Sorted;
  }

  // ---------------------------------------------------------------- whole runs

  /** None of the calls of the run is about t. */
  ghost predicate AboutOthers(s: Sched, es: seq<Event>, t: ThreadId)
    requires EnabledRun(s, es)
    decreases |es|
  {
    es == [] || (Subject(s, es[0]) != Some(t) && AboutOthers(Step(s, es[0]), es[1..], t))
  }

  lemma {:induction false} Untouched(s: Sched, es: seq<Event>, t: ThreadId)
    requires Placement(s) && EnabledRun(s, es) && AboutOthers(s, es, t)
    ensures T(Run(s, es), t) == T(s, t) && Placement(Run(s, es))
    decreases |es|
  {
    if es != [] {
      StepEffect(s, es[0], t);
      StepPlaces(s, es[0]);
      hide Placement, Step, Enabled, Subject, T;
      Untouched(Step(s, es[0]), es[1..], t);
    }
  }

  /** A thread that puts itself to sleep is out of the ready queue, whatever the others do, until its
      timeout expires or it is woken up; either makes it ready again, in the ready queue and at its
      priority. */
  lemma SleepsUntilWoken(s: Sched, es: seq<Event>, e: Event)
    requires Placement(s) && Enabled(s, ESleep)
    requires EnabledRun(Step(s, ESleep), es) && AboutOthers(Step(s, ESleep), es, s.current)
    requires e == EExpire(s.current) || e == EWakeup(s.current)
    ensures var t, s1 := s.current, Run(Step(s, ESleep), es);
            && Count(s1.runq, t) == 0 && Enabled(s1, e)
            && Ready(T(Step(s1, e), t)) && Count(Step(s1, e).runq, t) == 1 && T(Step(s1, e), t).prio == T(s, t).prio
  {
    hide Placement, Step, Enabled, Asleep, T, Ready;
    var t := s.current;
    GoesToSleep(s);
    Untouched(Step(s, ESleep), es, t);
    IdleKept(Step(s, ESleep), es);
    WokenAgain(Run(Step(s, ESleep), es), t, e);
  }

  /** What a sleeping thread looks like. */
  ghost predicate Asleep(b: Tcb) { b.timeout && b.suspended && Unpended(b) && !b.prestart }

  lemma WokenAgain(s: Sched, t: ThreadId, e: Event)
    requires Placement(s) && t != s.idle && Asleep(T(s, t)) && (e == EExpire(t) || e == EWakeup(t))
    ensures Count(s.runq, t) == 0 && Enabled(s, e)
    ensures Ready(T(Step(s, e), t)) && Count(Step(s, e).runq, t) == 1 && T(Step(s, e), t).prio == T(s, t).prio
  {
    StepEffect(s, e, t);
    StepPlaces(s, e);
    SameIdle(s, e);
    hide Placement, Step;
    QueuedIs(s, t);
    QueuedIs(Step(s, e), t);
  }

  lemma GoesToSleep(s: Sched)
    requires Placement(s) && Enabled(s, ESleep)
    ensures var s', t := Step(s, ESleep), s.current;
            Placement(s') && s'.idle == s.idle != t && Asleep(T(s', t)) && T(s', t).prio == T(s, t).prio
  {
    SleepMarks(s);
    StepPlaces(s, ESleep);
    SameIdle(s, ESleep);
    hide Placement, Sleep, T, Asleep;
  }

  lemma SleepMarks(s: Sched)
    requires Ready(T(s, s.current))
    ensures Asleep(T(Sleep(s), s.current)) && T(Sleep(s), s.current).prio == T(s, s.current).prio
  {
    hide UnreadyThread;
    UnreadiedIs(s, s.current);
  }

  lemma QueuedIs(s: Sched, t: ThreadId)
    requires Placement(s)
    ensures Count(s.runq, t) == One(Ready(T(s, t)) && t != s.idle)
  {
    hide Sorted;
  }

  lemma SameIdle(s: Sched, e: Event)
    requires Enabled(s, e)
    ensures Step(s, e).idle == s.idle
  {
    hide NextUp, ShouldPreempt, Recorded, Insert, Remove;
  }

  lemma {:induction false} IdleKept(s: Sched, es: seq<Event>)
    requires EnabledRun(s, es)
    ensures Run(s, es).idle == s.idle
    decreases |es|
  {
    if es != [] {
      SameIdle(s, es[0]);
      hide Step, Enabled;
      IdleKept(Step(s, es[0]), es[1..]);
    }
  }

  /** A thread that waits is in its wait queue, whatever the others do, until it is woken, or its
      timeout expires if it gave one; either makes it ready again, in the ready queue and at its
      priority. */
  lemma WaitsUntilWoken(s: Sched, w: QueueId, timed: bool, es: seq<Event>, e: Event)
    requires Placement(s) && Enabled(s, EPendCurrent(Some(w), timed))
    requires var s0 := Step(s, EPendCurrent(Some(w), timed)); EnabledRun(s0, es) && AboutOthers(s0, es, s.current)
    requires e == EWake(s.current) || (timed && e == EExpire(s.current))
    ensures var t, s1 := s.current, Run(Step(s, EPendCurrent(Some(w), timed)), es);
            && Count(s1.runq, t) == 0 && Count(WaitQ(s1, w), t) == 1 && Enabled(s1, e)
            && Ready(T(Step(s1, e), t)) && Count(Step(s1, e).runq, t) == 1 && Count(WaitQ(Step(s1, e), w), t) == 0
            && T(Step(s1, e), t).prio == T(s, t).prio
  {
    hide Placement, Step, Enabled, Waits, T, Ready;
    var t, pend := s.current, EPendCurrent(Some(w), timed);
    StartsToWait(s, w, timed);
    Untouched(Step(s, pend), es, t);
    IdleKept(Step(s, pend), es);
    WaiterWoken(Run(Step(s, pend), es), w, t, e);
  }

  /** What a thread that waits in w looks like. */
  ghost predicate Waits(b: Tcb, w: QueueId) {
    b.pending && b.pendedOn == Some(w) && !b.dead && !b.prestart && !b.suspended
  }

  lemma WaiterWoken(s: Sched, w: QueueId, t: ThreadId, e: Event)
    requires Placement(s) && t != s.idle && Waits(T(s, t), w) && (e == EWake(t) || (T(s, t).timeout && e == EExpire(t)))
    ensures Count(s.runq, t) == 0 && Count(WaitQ(s, w), t) == 1 && Enabled(s, e)
    ensures Ready(T(Step(s, e), t)) && Count(Step(s, e).runq, t) == 1 && Count(WaitQ(Step(s, e), w), t) == 0
    ensures T(Step(s, e), t).prio == T(s, t).prio
  {
    StepEffect(s, e, t);
    StepPlaces(s, e);
    SameIdle(s, e);
    hide Placement, Step;
    QueuedIs(s, t);
    QueuedIs(Step(s, e), t);
    WaitingIs(s, w, t);
    WaitingIs(Step(s, e), w, t);
  }

  lemma StartsToWait(s: Sched, w: QueueId, timed: bool)
    requires Placement(s) && Enabled(s, EPendCurrent(Some(w), timed))
    ensures var s', t := Step(s, EPendCurrent(Some(w), timed)), s.current;
            && Placement(s') && s'.idle == s.idle != t
            && Waits(T(s', t), w) && T(s', t).timeout == timed && T(s', t).prio == T(s, t).prio
  {
    PendMarks(s, w, timed);
    StepPlaces(s, EPendCurrent(Some(w), timed));
    SameIdle(s, EPendCurrent(Some(w), timed));
    hide Placement, Pend, T, Waits;
  }

  lemma PendMarks(s: Sched, w: QueueId, timed: bool)
    requires Ready(T(s, s.current))
    ensures var b := T(Pend(s, s.current, Some(w), timed), s.current);
            Waits(b, w) && b.timeout == timed && b.prio == T(s, s.current).prio
  {
    hide UnreadyThread, Insert;
    UnreadiedIs(s, s.current);
  }

  lemma WaitingIs(s: Sched, w: QueueId, t: ThreadId)
    requires Placement(s)
    ensures Count(WaitQ(s, w), t) == One(T(s, t).pendedOn == Some(w))
    ensures T(s, t).pendedOn.Some? ==> T(s, t).pending
  {
    hide Sorted;
  }
}
