/**
 The promise of kernel/sched.c to cooperative threads: a meta-IRQ thread may
 preempt one, but when the meta-IRQ threads are done it runs next, whatever
 else has become ready.  The record that keeps the promise is one pointer,
 metairq_preempted, cleared when the return is decided and not when it happens.
 */
module MetaIrqs {
  import opened Lists
  import opened Scheduler
  import opened Wrappers

  predicate Coop(s: Sched, t: ThreadId) { !MetaIrq(s, t) && !Preemptible(T(s, t)) }

  /** The thread that must run next among the ordinary ones: it was switched out
      by a meta-IRQ thread while able to run, and still is able to. */
  function Owed(s: Sched, owed: Option<ThreadId>, e: Event): Option<ThreadId>
    requires Enabled(s, e)
  {
    if e.ESwap? then
      if !MetaIrq(s, s.cache) then None
      else if Coop(s, s.current) && !Prevented(T(s, s.current)) then Some(s.current)
      else owed
    else if owed.Some? && !Prevented(T(Step(s, e), owed.value)) && Coop(Step(s, e), owed.value) then owed
    else None
  }

  /** Every switch of the run to an ordinary thread is to the one that is owed, if there is one. */
  ghost predicate Promise(s: Sched, owed: Option<ThreadId>, es: seq<Event>)
    requires EnabledRun(s, es)
    decreases |es|
  {
    es == [] ||
    (&& (es[0].ESwap? && !MetaIrq(s, s.cache) && owed.Some? ==> s.cache == owed.value)
     && Promise(Step(s, es[0]), Owed(s, owed, es[0]), es[1..]))
  }

  // ---------------------------------------------------------------- the one decision of each call

  /** Where a call decides anew which thread is to run: on which state, and whether it may preempt. */
  datatype Point = NoDecision | Decision(at: Sched, ok: bool)

  function ReadyPoint(s: Sched, t: ThreadId): Point {
    if Ready(T(s, t)) then Decision(RunAdd(s, t), false) else NoDecision
  }

  function WakePoint(s: Sched, t: ThreadId): Point
    requires T(s, t).pendedOn.Some?
  {
    var s1 := WaitRemove(s, t);
    ReadyPoint(Set(s1, t, T(s1, t).(timeout := false)), t)
  }

  function ExpirePoint(s: Sched, t: ThreadId): Point {
    var s0 := Set(s, t, T(s, t).(timeout := false));
    var s1 := if T(s0, t).pendedOn.Some? then WaitRemove(s0, t) else s0;
    ReadyPoint(Set(s1, t, T(s1, t).(prestart := false, suspended := false)), t)
  }

  function SuspendPoint(s: Sched, t: ThreadId): Point {
    var s1 := RemoveIfQueued(Set(s, t, T(s, t).(timeout := false)), t);
    Decision(Set(s1, t, T(s1, t).(suspended := true)), t == s.current)
  }

  function WakeupPoint(s: Sched, t: ThreadId): Point {
    var b := T(s, t);
    if b.pending || (!b.timeout && !(b.suspended && !b.prestart && !b.dead && !b.queued)) then NoDecision
    else ReadyPoint(Set(s, t, b.(timeout := false, suspended := false)), t)
  }

  function SetPrioPoint(s: Sched, t: ThreadId, prio: int): Point {
    if !Ready(T(s, t)) then NoDecision
    else
      var s1 := s.(runq := Remove(s.runq, t));
      var s2 := Set(s1, t, T(s1, t).(prio := prio));
      Decision(s2.(runq := Insert(s2, s2.runq, t)), true)
  }

  function AbortPoint(s: Sched, t: ThreadId): Point {
    var s0 := Set(s, t, T(s, t).(timeout := false));
    if Ready(T(s0, t)) then Decision(RemoveIfQueued(s0, t), t == s.current) else NoDecision
  }

  function PointOf(s: Sched, e: Event): Point
    requires Enabled(s, e)
  {
    match e
    case ECreate(_, _, _) => NoDecision
    case EStart(t) => if !T(s, t).prestart then NoDecision else ReadyPoint(Set(s, t, T(s, t).(prestart := false)), t)
    case EPendCurrent(_, _) => Decision(RemoveIfQueued(s, s.current), true)
    case EWakeFirst(w) =>
      if WaitQ(s, w) == [] || T(s, WaitQ(s, w)[0]).pendedOn.None? then NoDecision else WakePoint(s, WaitQ(s, w)[0])
    case EWake(t) => WakePoint(s, t)
    case EExpire(t) => ExpirePoint(s, t)
    case ESuspend(t) => SuspendPoint(s, t)
    case EResume(t) => ReadyPoint(Set(s, t, T(s, t).(suspended := false)), t)
    case EWakeup(t) => WakeupPoint(s, t)
    case ESetPrio(t, prio) => SetPrioPoint(s, t, prio)
    case EYield =>
      if s.current == s.idle then NoDecision
      else Decision(RunAdd(s.(runq := Remove(s.runq, s.current)), s.current), true)
    case ERotate => Decision(RunAdd(RemoveIfQueued(s, s.current), s.current), true)
    case EAbort(t) => AbortPoint(s, t)
    case ESleep => Decision(RemoveIfQueued(s, s.current), true)
    case ELock => NoDecision
    case EUnlock => Decision(Set(s, s.current, T(s, s.current).(locked := T(s, s.current).locked - 1)), false)
    case ESwap => NoDecision
  }

  ghost predicate SameRecord(s: Sched, s1: Sched) {
    s1.cache == s.cache && s1.preempted == s.preempted && s1.current == s.current && s1.meta == s.meta &&
      s1.idle == s.idle
  }

  /** s' comes of the decision on s1, with the same queue and classes; a thread that can run
      afterwards could already run then. */
  ghost predicate Decided(s1: Sched, ok: bool, s': Sched) {
    && s'.cache == UpdateCache(s1, ok).cache && s'.preempted == UpdateCache(s1, ok).preempted
    && s'.current == s1.current && s'.meta == s1.meta && s'.idle == s1.idle && s'.runq == s1.runq
    && (forall t :: T(s', t).prio == T(s1, t).prio && T(s', t).locked == T(s1, t).locked)
    && (forall t :: !Prevented(T(s', t)) ==> !Prevented(T(s1, t)))
    && (!ok && !Prevented(T(s1, s1.current)) ==> !Prevented(T(s', s1.current)))
  }

  ghost predicate Follows(s: Sched, p: Point, s': Sched) {
    match p
    case NoDecision => SameRecord(s, s')
    case Decision(s1, ok) => SameRecord(s, s1) && Decided(s1, ok, s')
  }

  /** Priorities and scheduler locks, and so the classes of all threads, are the same. */
  ghost predicate SameKinds(s: Sched, s': Sched) {
    forall u :: T(s', u).prio == T(s, u).prio && T(s', u).locked == T(s, u).locked
  }

  /** What follows a point and changes no thread's class. */
  ghost predicate Plain(s: Sched, p: Point, s': Sched) { Follows(s, p, s') && SameKinds(s, s') }

  /** Only marks on t and lists have changed. */
  ghost predicate Before(s: Sched, s1: Sched, t: ThreadId) {
    && SameRecord(s, s1) && T(s1, t).prio == T(s, t).prio && T(s1, t).locked == T(s, t).locked
    && forall u :: u != t ==> T(s1, u) == T(s, u)
  }

  lemma ReadyFollows(s: Sched, s1: Sched, t: ThreadId)
    requires Before(s, s1, t)
    ensures Plain(s, ReadyPoint(s1, t), ReadyThread(s1, t))
  {
    hide UpdateCache, Insert;
    if Ready(T(s1, t)) {
      UpdateFrame(RunAdd(s1, t), false);
    }
  }

  /** A decision followed by marks that keep a thread from running. */
  lemma MarkedFollows(s: Sched, s1: Sched, ok: bool, t: ThreadId, s': Sched)
    requires Before(s, s1, t) && s'.cache == UpdateCache(s1, ok).cache && s'.preempted == UpdateCache(s1, ok).preempted
    requires s'.current == s.current && s'.meta == s.meta && s'.idle == s.idle && s'.runq == s1.runq
    requires T(s', t).prio == T(s1, t).prio && T(s', t).locked == T(s1, t).locked
    requires (Prevented(T(s1, t)) ==> Prevented(T(s', t)))
    requires (ok || t != s.current || Prevented(T(s', t)) == Prevented(T(s1, t)))
    requires forall u :: u != t ==> T(s', u) == T(s, u)
    ensures Plain(s, Decision(s1, ok), s')
  {
    hide UpdateCache;
  }

  lemma RemoveBefore(s: Sched, t: ThreadId)
    ensures Before(s, RemoveIfQueued(s, t), t) && T(RemoveIfQueued(s, t), t) == T(s, t).(queued := false)
  {
    hide Remove;
  }

  lemma BeforeTwice(s: Sched, s1: Sched, s2: Sched, t: ThreadId)
    requires Before(s, s1, t) && Before(s1, s2, t)
    ensures Before(s, s2, t)
  {
  }

  lemma PendFollows(s: Sched, wq: Option<QueueId>, timed: bool)
    ensures Plain(s, Decision(RemoveIfQueued(s, s.current), true), Pend(s, s.current, wq, timed))
  {
    hide UpdateCache, RemoveIfQueued, Insert, Plain;
    var t := s.current;
    RemoveBefore(s, t);
    var s1 := RemoveIfQueued(s, t);
    UpdateFrame(s1, true);
    MarkedFollows(s, s1, true, t, Pend(s, t, wq, timed));
  }

  lemma SleepFollows(s: Sched)
    ensures Plain(s, Decision(RemoveIfQueued(s, s.current), true), Sleep(s))
  {
    hide UpdateCache, RemoveIfQueued, Plain;
    RemoveBefore(s, s.current);
    var s1 := RemoveIfQueued(s, s.current);
    UpdateFrame(s1, true);
    MarkedFollows(s, s1, true, s.current, Sleep(s));
  }

  lemma SuspendFollows(s: Sched, t: ThreadId)
    ensures Plain(s, SuspendPoint(s, t), Suspend(s, t))
  {
    hide UpdateCache, RemoveIfQueued, Plain;
    var s0 := Set(s, t, T(s, t).(timeout := false));
    RemoveBefore(s0, t);
    var s1 := RemoveIfQueued(s0, t);
    var s2 := Set(s1, t, T(s1, t).(suspended := true));
    UpdateFrame(s2, t == s.current);
    BeforeTwice(s, s0, s1, t);
    BeforeTwice(s, s1, s2, t);
    MarkedFollows(s, s2, t == s.current, t, Suspend(s, t));
  }

  lemma AbortFollows(s: Sched, t: ThreadId)
    ensures Plain(s, AbortPoint(s, t), Abort(s, t))
  {
    hide UpdateCache, RemoveIfQueued, Remove;
    var s0 := Set(s, t, T(s, t).(timeout := false));
    if Ready(T(s0, t)) {
      RemoveBefore(s0, t);
      var s1 := RemoveIfQueued(s0, t);
      UpdateFrame(s1, t == s.current);
      hide Plain;
      MarkedFollows(s, s1, t == s.current, t, Abort(s, t));
    }
  }

  lemma WakeFollows(s: Sched, t: ThreadId)
    requires T(s, t).pendedOn.Some?
    ensures Plain(s, WakePoint(s, t), Wake(s, t))
  {
    hide ReadyThread, ReadyPoint, Remove, Plain;
    var s1 := WaitRemove(s, t);
    ReadyFollows(s, Set(s1, t, T(s1, t).(timeout := false)), t);
  }

  lemma ExpireFollows(s: Sched, t: ThreadId)
    ensures Plain(s, ExpirePoint(s, t), Expire(s, t))
  {
    hide ReadyThread, ReadyPoint, Remove, Plain;
    var s0 := Set(s, t, T(s, t).(timeout := false));
    var s1 := if T(s0, t).pendedOn.Some? then WaitRemove(s0, t) else s0;
    ReadyFollows(s, Set(s1, t, T(s1, t).(prestart := false, suspended := false)), t);
  }

  lemma WakeupFollows(s: Sched, t: ThreadId)
    ensures Plain(s, WakeupPoint(s, t), Wakeup(s, t))
  {
    hide ReadyThread, ReadyPoint;
    ReadyFollows(s, Set(s, t, T(s, t).(timeout := false, suspended := false)), t);
  }

  lemma ResumeFollows(s: Sched, t: ThreadId)
    ensures Plain(s, ReadyPoint(Set(s, t, T(s, t).(suspended := false)), t), Resume(s, t))
  {
    hide ReadyThread, ReadyPoint, Plain;
    ReadyFollows(s, Set(s, t, T(s, t).(suspended := false)), t);
  }

  lemma StartFollows(s: Sched, t: ThreadId)
    ensures Plain(s, PointOf(s, EStart(t)), Step(s, EStart(t)))
  {
    hide ReadyThread, ReadyPoint;
    ReadyFollows(s, Set(s, t, T(s, t).(prestart := false)), t);
  }

  lemma SetPrioFollows(s: Sched, t: ThreadId, prio: int)
    ensures Follows(s, SetPrioPoint(s, t, prio), SetPrio(s, t, prio))
  {
    hide UpdateCache, Remove, Insert;
    if Ready(T(s, t)) {
      var s1 := s.(runq := Remove(s.runq, t));
      var s2 := Set(s1, t, T(s1, t).(prio := prio));
      UpdateFrame(s2.(runq := Insert(s2, s2.runq, t)), true);
    }
  }

  lemma RotateFollows(s: Sched)
    ensures Plain(s, Decision(RunAdd(RemoveIfQueued(s, s.current), s.current), true), Rotate(s))
  {
    hide UpdateCache, Insert, RemoveIfQueued, Plain;
    RemoveBefore(s, s.current);
    var s1 := RunAdd(RemoveIfQueued(s, s.current), s.current);
    UpdateFrame(s1, true);
    MarkedFollows(s, s1, true, s.current, Rotate(s));
  }

  lemma YieldFollows(s: Sched)
    requires Enabled(s, EYield)
    ensures Plain(s, PointOf(s, EYield), Yield(s))
  {
    hide UpdateCache, Insert, Remove;
    if s.current != s.idle {
      var s1 := RunAdd(s.(runq := Remove(s.runq, s.current)), s.current);
      UpdateFrame(s1, true);
      hide Plain;
      MarkedFollows(s, s1, true, s.current, Yield(s));
    }
  }

  predicate Reclasses(e: Event) { e.ECreate? || e.ESetPrio? || e.ELock? || e.EUnlock? }

  lemma StepFollows(s: Sched, e: Event)
    requires Enabled(s, e) && !e.ESwap? && !Reclasses(e)
    ensures Plain(s, PointOf(s, e), Step(s, e))
  {
    hide Plain, Pend, Wake, Expire, Suspend, Resume, Wakeup, Yield, Rotate, Abort, Sleep, ReadyPoint;
    hide WakePoint, ExpirePoint, SuspendPoint, WakeupPoint, AbortPoint, RemoveIfQueued, RunAdd;
    match e
    case EStart(t) => StartFollows(s, t);
    case EPendCurrent(wq, timed) => PendFollows(s, wq, timed);
    case EWakeFirst(w) =>
      if WaitQ(s, w) == [] || T(s, WaitQ(s, w)[0]).pendedOn.None? {
        NothingFollows(s);
      } else {
        WakeFollows(s, WaitQ(s, w)[0]);
      }
    case EWake(t) => WakeFollows(s, t);
    case EExpire(t) => ExpireFollows(s, t);
    case ESuspend(t) => SuspendFollows(s, t);
    case EResume(t) => ResumeFollows(s, t);
    case EWakeup(t) => WakeupFollows(s, t);
    case EYield => YieldFollows(s);
    case ERotate => RotateFollows(s);
    case EAbort(t) => AbortFollows(s, t);
    case ESleep => SleepFollows(s);
  }

  lemma NothingFollows(s: Sched)
    ensures Plain(s, NoDecision, s)
  {
  }

  lemma UnlockFollows(s: Sched)
    requires Enabled(s, EUnlock)
    ensures Follows(s, PointOf(s, EUnlock), Step(s, EUnlock))
  {
    hide UpdateCache;
    UpdateFrame(Set(s, s.current, T(s, s.current).(locked := T(s, s.current).locked - 1)), false);
  }

  // ---------------------------------------------------------------- what keeps the promise

  /** An owed thread is recorded until the return to it is decided, and then it is the decision. */
  ghost predicate Remembered(s: Sched, owed: Option<ThreadId>) {
    owed.Some? ==>
      && Coop(s, owed.value) && !Prevented(T(s, owed.value)) && !Coop(s, s.current)
      && (if MetaIrq(s, s.cache) then s.preempted == owed else s.cache == owed.value && s.preempted.None?)
  }

  /** Before a meta-IRQ thread takes over from a cooperative one, the latter is recorded. */
  ghost predicate Recording(s: Sched) {
    Coop(s, s.current) && MetaIrq(s, s.cache) ==> s.preempted == Some(s.current)
  }

  lemma UpdateRemembers(s: Sched, c: ThreadId, ok: bool)
    requires !Coop(s, s.current) && s.preempted == Some(c) && !MetaIrq(s, c) && !Prevented(T(s, c))
    ensures var s' := UpdateCache(s, ok);
            if MetaIrq(s, s'.cache) then s'.preempted == Some(c) else s'.cache == c && s'.preempted.None?
  {
  }

  lemma UpdateRecords(s: Sched, ok: bool)
    ensures var s' := UpdateCache(s, ok); Coop(s, s.current) && MetaIrq(s, s'.cache) ==> s'.preempted == Some(s.current)
  {
  }

  function Best(s: Sched): ThreadId { if s.runq == [] then s.idle else s.runq[0] }

  /** c heads the ready queue, and the running thread lets it in. */
  predicate LetIn(s: Sched, ok: bool, c: ThreadId) {
    Best(s) == c && (ok || Prevented(T(s, s.current)) || Preemptible(T(s, s.current)))
  }

  /** With the record already cleared, only that brings c back. */
  lemma UpdateForgets(s: Sched, c: ThreadId, ok: bool)
    requires !Coop(s, s.current) && s.preempted.None? && !MetaIrq(s, c)
    ensures var s' := UpdateCache(s, ok);
            (if MetaIrq(s, s'.cache) then s'.preempted == Some(c)
             else s'.cache == c && s'.preempted.None?) <==> LetIn(s, ok, c)
    ensures UpdateCache(s, ok).preempted.None?
  {
  }

  /** The running thread must not be cooperative while another is owed, a meta-IRQ thread that is
      to run must stay one then, and one that is to replace a cooperative thread must find it on record. */
  predicate KindsFit(s: Sched, owed: bool, current: Tcb, cache: Tcb) {
    && (owed ==> current.prio < s.meta || Preemptible(current))
    && (owed && MetaIrq(s, s.cache) ==> cache.prio < s.meta)
    && (s.meta <= current.prio && !Preemptible(current) && cache.prio < s.meta ==> s.preempted == Some(s.current))
  }

  /** What a call may do to the kinds of the running thread and of the one chosen to run next.  A
      call that decides anew has only the first of the three to care for. */
  predicate ClassGuard(s: Sched, owed: Option<ThreadId>, e: Event)
    requires Enabled(s, e)
  {
    var pending := Owed(s, owed, e).Some?;
    match e
    case ESetPrio(t, prio) =>
      var b := T(s, t).(prio := prio);
      if Ready(T(s, t)) then t == s.current && pending ==> prio < s.meta || Preemptible(b)
      else KindsFit(s, pending,
                    if t == s.current then b else T(s, s.current), if t == s.cache then b else T(s, s.cache))
    case ECreate(t, prio, _) =>
      var b := T(s, t).(prio := prio, locked := 0);
      KindsFit(s, pending, if t == s.current then b else T(s, s.current), if t == s.cache then b else T(s, s.cache))
    case ELock => KindsFit(s, pending, T(s, s.current).(locked := T(s, s.current).locked + 1), T(s, s.cache))
    case _ => true
  }

  /** Once the return to the owed thread is decided, a call that decides anew decides the same. */
  predicate DecisionGuard(s: Sched, owed: Option<ThreadId>, e: Event)
    requires Enabled(s, e)
  {
    Owed(s, owed, e).Some? && !MetaIrq(s, s.cache) && PointOf(s, e).Decision? ==>
      LetIn(PointOf(s, e).at, PointOf(s, e).ok, s.cache)
  }

  lemma DecidedExact(s: Sched, s1: Sched, ok: bool, s': Sched, c: ThreadId)
    requires Remembered(s, Some(c)) && SameRecord(s, s1) && Decided(s1, ok, s')
    requires !Coop(s', s'.current) && Coop(s', c) && !Prevented(T(s', c))
    ensures Remembered(s', Some(c)) <==> MetaIrq(s, s.cache) || LetIn(s1, ok, c)
  {
    assert !Coop(s1, s1.current) && !MetaIrq(s1, c) && !Prevented(T(s1, c));
    assert forall t :: MetaIrq(s', t) == MetaIrq(s1, t);
    if MetaIrq(s, s.cache) {
      UpdateRemembers(s1, c, ok);
    } else {
      UpdateForgets(s1, c, ok);
    }
    hide UpdateCache, LetIn;
  }

  lemma DecidedRecords(s1: Sched, ok: bool, s': Sched)
    requires Decided(s1, ok, s')
    ensures Recording(s')
  {
    assert forall t :: MetaIrq(s', t) == MetaIrq(s1, t) && Coop(s', t) == Coop(s1, t);
    UpdateRecords(s1, ok);
    hide UpdateCache;
  }

  lemma SetPrioKinds(s: Sched, t: ThreadId, prio: int)
    ensures var s' := SetPrio(s, t, prio);
            T(s', t) == T(s, t).(prio := prio) && forall u :: u != t ==> T(s', u) == T(s, u)
  {
    hide Insert, Remove, UpdateCache;
    if Ready(T(s, t)) {
      var s1 := s.(runq := Remove(s.runq, t));
      var s2 := Set(s1, t, T(s1, t).(prio := prio));
      UpdateFrame(s2.(runq := Insert(s2, s2.runq, t)), true);
    }
  }

  lemma AnyFollows(s: Sched, e: Event)
    requires Enabled(s, e) && !e.ESwap?
    ensures Follows(s, PointOf(s, e), Step(s, e))
  {
    match e
    case ECreate(_, _, _) =>
    case ELock =>
    case EUnlock => UnlockFollows(s); hide UpdateCache;
    case ESetPrio(t, prio) => SetPrioFollows(s, t, prio); hide SetPrio, SetPrioPoint;
    case _ => StepFollows(s, e); hide Step, PointOf;
  }

  /** A call that decides nothing, by the kinds it leaves the running thread and the chosen one. */
  lemma UndecidedExact(s: Sched, s': Sched, owed: Option<ThreadId>, owed': Option<ThreadId>)
    requires Remembered(s, owed) && Recording(s) && SameRecord(s, s') && (owed'.Some? ==> owed' == owed)
    requires owed'.Some? ==> Coop(s', owed'.value) && !Prevented(T(s', owed'.value))
    ensures Remembered(s', owed') && Recording(s') <==> KindsFit(s, owed'.Some?, T(s', s.current), T(s', s.cache))
  {
  }

  lemma KindsStay(s: Sched, owed: Option<ThreadId>, owed': Option<ThreadId>)
    requires Remembered(s, owed) && Recording(s) && (owed'.Some? ==> owed' == owed)
    ensures KindsFit(s, owed'.Some?, T(s, s.current), T(s, s.cache))
  {
  }

  lemma KindsOnly(s: Sched, owed: bool, a: Tcb, b: Tcb, a': Tcb, b': Tcb)
    requires a.prio == a'.prio && a.locked == a'.locked && b.prio == b'.prio
    ensures KindsFit(s, owed, a, b) <==> KindsFit(s, owed, a', b')
  {
  }

  lemma OwedStays(s: Sched, owed: Option<ThreadId>, e: Event)
    requires Enabled(s, e) && !e.ESwap?
    ensures var owed', s' := Owed(s, owed, e), Step(s, e);
            owed'.Some? ==> owed' == owed && Coop(s', owed'.value) && !Prevented(T(s', owed'.value))
  {
    hide Step;
  }

  /** Calls that decide nothing. */
  lemma UndecidedStep(s: Sched, owed: Option<ThreadId>, e: Event)
    requires Enabled(s, e) && !e.ESwap? && Remembered(s, owed) && Recording(s) && PointOf(s, e).NoDecision?
    ensures Remembered(Step(s, e), Owed(s, owed, e)) && Recording(Step(s, e)) <==> ClassGuard(s, owed, e)
  {
    var s', owed' := Step(s, e), Owed(s, owed, e);
    AnyFollows(s, e);
    OwedStays(s, owed, e);
    UndecidedExact(s, s', owed, owed');
    KindsStay(s, owed, owed');
    UndecidedKinds(s, e);
    hide Remembered, Recording, Owed;
    if e.ESetPrio? || e.ECreate? || e.ELock? {
      assert e.ESetPrio? ==> !Ready(T(s, e.t));
      hide PointOf, Step;
    } else {
      KindsOnly(s, owed'.Some?, T(s, s.current), T(s, s.cache), T(s', s.current), T(s', s.cache));
      hide PointOf, Step, KindsFit;
    }
  }

  /** What such a call does to kinds. */
  lemma UndecidedKinds(s: Sched, e: Event)
    requires Enabled(s, e) && !e.ESwap? && PointOf(s, e).NoDecision?
    ensures var s' := Step(s, e);
            match e
            case ESetPrio(t, prio) => T(s', t) == T(s, t).(prio := prio) && forall u :: u != t ==> T(s', u) == T(s, u)
            case ECreate(t, prio, _) =>
              T(s', t).prio == prio && T(s', t).locked == 0 && forall u :: u != t ==> T(s', u) == T(s, u)
            case ELock => T(s', s.current) == T(s, s.current).(locked := T(s, s.current).locked + 1) &&
                          forall u :: u != s.current ==> T(s', u) == T(s, u)
            case _ => SameKinds(s, s')
  {
    if e.ESetPrio? {
      SetPrioKinds(s, e.t, e.prio);
      hide SetPrio;
    } else if !Reclasses(e) {
      StepFollows(s, e);
      hide Step, PointOf;
    }
  }

  /** Calls that decide anew. */
  lemma DecidedStep(s: Sched, owed: Option<ThreadId>, e: Event)
    requires Enabled(s, e) && !e.ESwap? && Remembered(s, owed) && Recording(s) && PointOf(s, e).Decision?
    ensures Recording(Step(s, e))
    ensures Remembered(Step(s, e), Owed(s, owed, e)) <==> ClassGuard(s, owed, e) && DecisionGuard(s, owed, e)
  {
    var s', owed', s1, ok := Step(s, e), Owed(s, owed, e), PointOf(s, e).at, PointOf(s, e).ok;
    AnyFollows(s, e);
    OwedStays(s, owed, e);
    DecidedKinds(s, e);
    hide Step, PointOf, LetIn, UpdateCache;
    DecidedRecords(s1, ok, s');
    if owed'.Some? && !Coop(s', s.current) {
      DecidedExact(s, s1, ok, s', owed'.value);
    }
    hide Decided;
  }

  lemma DecidedKinds(s: Sched, e: Event)
    requires Enabled(s, e) && !e.ESwap? && PointOf(s, e).Decision?
    ensures var s' := Step(s, e);
            && (e.ESetPrio? ==> Ready(T(s, e.t)) && T(s', e.t) == T(s, e.t).(prio := e.prio))
            && (e.ESetPrio? ==> forall u :: u != e.t ==> T(s', u) == T(s, u))
            && (!e.ESetPrio? ==> !e.ECreate? && !e.ELock? && (!Coop(s, s.current) ==> !Coop(s', s.current)))
  {
    if e.ESetPrio? {
      SetPrioKinds(s, e.t, e.prio);
      hide SetPrio, SetPrioPoint;
    } else if e.EUnlock? {
      UnlockFollows(s);
      UpdateFrame(Set(s, s.current, T(s, s.current).(locked := T(s, s.current).locked - 1)), false);
      hide UpdateCache;
    } else if !Reclasses(e) {
      StepFollows(s, e);
      hide Step, PointOf, UpdateCache;
    }
  }

  /** Every call between two switches keeps the owed thread remembered, and who is displaced
      recorded, exactly when it leaves the kinds of threads fit and does not decide anew, or the
      return to the owed thread had not been decided, or it would be chosen anyway. */
  lemma StepExact(s: Sched, owed: Option<ThreadId>, e: Event)
    requires Enabled(s, e) && !e.ESwap? && Remembered(s, owed) && Recording(s)
    ensures Remembered(Step(s, e), Owed(s, owed, e)) && Recording(Step(s, e))
       <==> ClassGuard(s, owed, e) && DecisionGuard(s, owed, e)
  {
    hide Step, PointOf, Owed, Remembered, Recording, ClassGuard;
    if PointOf(s, e).NoDecision? {
      UndecidedStep(s, owed, e);
    } else {
      DecidedStep(s, owed, e);
    }
  }

  lemma SwapKeeps(s: Sched, owed: Option<ThreadId>)
    requires Remembered(s, owed) && Recording(s)
    ensures var s' := Step(s, ESwap); Remembered(s', Owed(s, owed, ESwap)) && Recording(s')
    ensures !MetaIrq(s, s.cache) && owed.Some? ==> s.cache == owed.value
  {
  }

  predicate Guarded(s: Sched, owed: Option<ThreadId>, e: Event)
    requires Enabled(s, e)
  {
    e.ESwap? || (ClassGuard(s, owed, e) && DecisionGuard(s, owed, e))
  }

  ghost predicate GuardedRun(s: Sched, owed: Option<ThreadId>, es: seq<Event>)
    requires EnabledRun(s, es)
    decreases |es|
  {
    es == [] || (Guarded(s, owed, es[0]) && GuardedRun(Step(s, es[0]), Owed(s, owed, es[0]), es[1..]))
  }

  /** The promise is kept through every guarded run. */
  lemma {:induction false} PromiseKept(s: Sched, owed: Option<ThreadId>, es: seq<Event>)
    requires EnabledRun(s, es) && GuardedRun(s, owed, es) && Remembered(s, owed) && Recording(s)
    ensures Promise(s, owed, es)
    decreases |es|
  {
    if es != [] {
      if es[0].ESwap? {
        SwapKeeps(s, owed);
      } else {
        StepExact(s, owed, es[0]);
      }
      hide Step, Owed, Recording, Remembered, ClassGuard, DecisionGuard, Enabled;
      PromiseKept(Step(s, es[0]), Owed(s, owed, es[0]), es[1..]);
    }
  }

  // ---------------------------------------------------------------- a forgotten thread can be passed over

  /** The first thread of a queue that is not a meta-IRQ thread, or idle. */
  function FirstOrdinary(s: Sched, q: seq<ThreadId>): ThreadId {
    if q == [] then s.idle else if MetaIrq(s, q[0]) then FirstOrdinary(s, q[1..]) else q[0]
  }

  /** There is no record, or one of a thread that cannot run. */
  predicate NoRecord(s: Sched) { s.preempted.None? || Prevented(T(s, s.preempted.value)) }

  /** c is owed, but neither recorded nor chosen, and another ordinary thread is ahead of it. */
  ghost predicate Forgotten(s: Sched, c: ThreadId) {
    && Placement(s) && MetaIrq(s, s.current) && !MetaIrq(s, s.idle) && NoRecord(s)
    && Coop(s, c) && !Prevented(T(s, c)) && FirstOrdinary(s, s.runq) != c
    && (s.cache == Best(s) || (s.cache == s.current && !Prevented(T(s, s.current))))
  }

  lemma {:induction false} FirstOrdinaryFrame(s: Sched, s': Sched, q: seq<ThreadId>)
    requires s'.idle == s.idle && s'.meta == s.meta && forall u :: T(s', u).prio == T(s, u).prio
    ensures FirstOrdinary(s', q) == FirstOrdinary(s, q)
  {
    if q != [] {
      FirstOrdinaryFrame(s, s', q[1..]);
    }
  }

  /** What aborting a thread that can run leaves of the scheduler. */
  lemma AbortLeaves(s: Sched, m: ThreadId)
    requires Placement(s) && m != s.idle && !Prevented(T(s, m)) && MetaIrq(s, s.current) && NoRecord(s)
    requires (s.runq != [] && s.runq[0] == m) || !T(s, m).queued
    ensures var s' := Abort(s, m);
            && Placement(s') && s'.idle == s.idle && s'.meta == s.meta && s'.current == s.current && NoRecord(s')
            && (forall u :: T(s', u).prio == T(s, u).prio) && (forall u :: u != m ==> T(s', u) == T(s, u))
            && s'.runq == (if T(s, m).queued then s.runq[1..] else s.runq)
            && (s'.cache == Best(s') || (s'.cache == s.current && m != s.current && !Prevented(T(s, s.current))))
  {
    var s', ok := Abort(s, m), m == s.current;
    AbortPlaces(s, m);
    AbortFollows(s, m);
    var s0 := Set(s, m, T(s, m).(timeout := false));
    var s1 := RemoveIfQueued(s0, m);
    RemoveBefore(s0, m);
    if T(s, m).queued {
      QueuedFirst(s, m);
    }
    assert s1.runq == if T(s, m).queued then s.runq[1..] else s.runq;
    assert AbortPoint(s, m) == Decision(s1, ok);
    AbortSpares(s, m);
    assert NoRecord(s1) && Prevented(T(s', m));
    hide Abort, AbortPoint, RemoveIfQueued, Placement;
    UpdateDecides(s1, ok);
    hide UpdateCache;
  }

  lemma QueuedFirst(s: Sched, m: ThreadId)
    requires T(s, m).queued && s.runq != [] && s.runq[0] == m
    ensures Remove(s.runq, m) == s.runq[1..]
  {
  }

  lemma AbortSpares(s: Sched, m: ThreadId)
    ensures forall u :: u != m ==> T(Abort(s, m), u) == T(s, u)
  {
    hide UpdateCache, Remove;
    var s0 := Set(s, m, T(s, m).(timeout := false));
    UpdateFrame(RemoveIfQueued(s0, m), m == s.current);
  }

  /** The same thread is still forgotten when a meta-IRQ thread has left. */
  lemma StillForgotten(s: Sched, s': Sched, c: ThreadId, m: ThreadId)
    requires Forgotten(s, c) && MetaIrq(s, m) && Placement(s') && NoRecord(s')
    requires s'.idle == s.idle && s'.meta == s.meta && s'.current == s.current
    requires (forall u :: T(s', u).prio == T(s, u).prio) && (forall u :: u != m ==> T(s', u) == T(s, u))
    requires s'.runq == s.runq || (s.runq != [] && s.runq[0] == m && s'.runq == s.runq[1..])
    requires s'.cache == Best(s') || (s'.cache == s.current && m != s.current && !Prevented(T(s, s.current)))
    ensures Forgotten(s', c)
  {
    hide Placement;
    FirstOrdinaryFrame(s, s', s'.runq);
    assert FirstOrdinary(s, s'.runq) == FirstOrdinary(s, s.runq);
    hide FirstOrdinary;
    assert c != m;
  }

  lemma AbortIs(s: Sched, m: ThreadId)
    requires m != s.idle && !Prevented(T(s, m))
    ensures Enabled(s, EAbort(m)) && Step(s, EAbort(m)) == Abort(s, m)
  {
    hide Abort;
  }

  lemma StillOwed(s: Sched, e: Event, c: ThreadId)
    requires Enabled(s, e) && !e.ESwap? && Coop(Step(s, e), c) && !Prevented(T(Step(s, e), c))
    ensures Owed(s, Some(c), e) == Some(c)
  {
    hide Step;
  }

  /** Aborting a meta-IRQ thread does not help c. */
  lemma AbortForgets(s: Sched, c: ThreadId, m: ThreadId)
    requires Forgotten(s, c) && MetaIrq(s, m) && !Prevented(T(s, m))
    requires (s.runq != [] && s.runq[0] == m) || (m == s.current && !T(s, m).queued)
    ensures Enabled(s, EAbort(m)) && Owed(s, Some(c), EAbort(m)) == Some(c)
    ensures var s' := Step(s, EAbort(m));
            && Forgotten(s', c) && s'.runq == (if T(s, m).queued then s.runq[1..] else s.runq)
            && s'.meta == s.meta && s'.idle == s.idle && (forall u :: T(s', u).prio == T(s, u).prio)
            && (m == s.current ==> s'.cache == Best(s'))
  {
    HeadQueued(s, m);
    hide Placement, Abort, FirstOrdinary, Step, Owed, Enabled;
    AbortIs(s, m);
    AbortLeaves(s, m);
    StillForgotten(s, Abort(s, m), c, m);
    StillOwed(s, EAbort(m), c);
  }

  lemma HeadQueued(s: Sched, m: ThreadId)
    requires Placement(s)
    ensures s.runq != [] && s.runq[0] == m ==> T(s, m).queued
  {
    if s.runq != [] {
      CountAt(s.runq, 0);
    }
    hide Sorted;
  }

  lemma UpdateDecides(s: Sched, ok: bool)
    requires NoRecord(s)
    ensures var s' := UpdateCache(s, ok);
            && (s'.cache == Best(s) || (s'.cache == s.current && !ok && !Prevented(T(s, s.current))))
            && (MetaIrq(s, s.current) ==> s'.preempted.None? || s'.preempted == s.preempted)
  {
  }

  /** Switching to an ordinary thread other than c breaks the promise. */
  lemma SwapBreaks(s: Sched, c: ThreadId)
    requires !MetaIrq(s, s.cache) && s.cache != c
    ensures EnabledRun(s, [ESwap]) && !Promise(s, Some(c), [ESwap])
  {
    assert [ESwap][1..] == [];
    assert EnabledRun(Step(s, ESwap), []);
  }

  lemma OneMore(s: Sched, owed: Option<ThreadId>, e: Event, es: seq<Event>)
    requires Enabled(s, e) && EnabledRun(Step(s, e), es)
    ensures EnabledRun(s, [e] + es)
    ensures !Promise(Step(s, e), Owed(s, owed, e), es) ==> !Promise(s, owed, [e] + es)
  {
    hide Step, Enabled, Owed;
    assert ([e] + es)[1..] == es;
  }

  /** No meta-IRQ thread is queued behind an ordinary one. */
  lemma NoMetaQueued(s: Sched, m: ThreadId)
    requires Placement(s) && MetaIrq(s, m) && (s.runq == [] || !MetaIrq(s, s.runq[0]))
    ensures !T(s, m).queued
  {
    assert Count(s.runq, m) == One(T(s, m).queued);
    if T(s, m).queued {
      SortedStart(s, s.runq, 0);
      SortedBound(s, s.runq, T(s, s.runq[0]).prio, m);
    }
  }

  /** The meta-IRQ threads exit one after the other, and then another thread than c runs. */
  lemma {:induction false} PassedOver(s: Sched, c: ThreadId) returns (es: seq<Event>)
    requires Forgotten(s, c)
    ensures EnabledRun(s, es) && !Promise(s, Some(c), es)
    decreases |s.runq|
  {
    hide Placement, Promise, EnabledRun, Step, Enabled, Owed;
    if s.runq != [] && MetaIrq(s, s.runq[0]) {
      var m := s.runq[0];
      HeadReady(s);
      AbortForgets(s, c, m);
      var rest := PassedOver(Step(s, EAbort(m)), c);
      es := [EAbort(m)] + rest;
      OneMore(s, Some(c), EAbort(m), rest);
    } else if s.cache == Best(s) {
      es := [ESwap];
      SwapBreaks(s, c);
    } else {
      var m := s.current;
      NoMetaQueued(s, m);
      AbortForgets(s, c, m);
      SwapBreaks(Step(s, EAbort(m)), c);
      es := [EAbort(m)] + [ESwap];
      OneMore(s, Some(c), EAbort(m), [ESwap]);
    }
  }

  lemma HeadReady(s: Sched)
    requires Placement(s) && s.runq != []
    ensures T(s, s.runq[0]).queued && !Prevented(T(s, s.runq[0]))
  {
    CountAt(s.runq, 0);
    hide Sorted;
  }

  // ---------------------------------------------------------------- and there is always someone to pass it over

  lemma {:induction false} Unused(keys: set<ThreadId>) returns (t: ThreadId)
    ensures forall k :: k in keys ==> k < t
    decreases |keys|
  {
    if keys == {} {
      t := 0;
    } else {
      var k :| k in keys;
      var u := Unused(keys - {k});
      t := if u <= k then k + 1 else u;
      forall j | j in keys
        ensures j < t
      {
        assert j == k || j in keys - {k};
      }
    }
  }

  /** The state after a new thread t of the given priority has been created and started. */
  function Joined(s: Sched, t: ThreadId, prio: int): Sched {
    var s0 := Set(s, t, Tcb(prio, 0, false, false, false, false, false, false, None));
    UpdateCache(RunAdd(s0, t), false)
  }

  lemma Joins(s: Sched, t: ThreadId, prio: int)
    requires t !in s.tcbs && t != s.idle
    ensures var s1 := Step(s, ECreate(t, prio, false));
            Enabled(s, ECreate(t, prio, false)) && Enabled(s1, EStart(t)) && Step(s1, EStart(t)) == Joined(s, t, prio)
  {
    hide UpdateCache, Insert;
    var s1 := Step(s, ECreate(t, prio, false));
    var s2 := Set(s1, t, T(s1, t).(prestart := false));
    assert s2.tcbs == Set(s, t, Tcb(prio, 0, false, false, false, false, false, false, None)).tcbs;
  }

  /** A more important ordinary thread goes ahead of c. */
  lemma {:induction false} InsertedAhead(s: Sched, q: seq<ThreadId>, t: ThreadId, c: ThreadId)
    requires !MetaIrq(s, t) && t != c && T(s, t).prio < T(s, c).prio
    ensures FirstOrdinary(s, Insert(s, q, t)) != c
  {
    if q != [] && T(s, q[0]).prio <= T(s, t).prio {
      InsertedAhead(s, q[1..], t, c);
      assert Insert(s, q, t)[1..] == Insert(s, q[1..], t);
    } else {
      assert Insert(s, q, t)[0] == t;
    }
  }

  lemma JoinedPlaced(s: Sched, t: ThreadId, prio: int)
    requires Placement(s) && t !in s.tcbs && t != s.idle
    ensures Placement(Joined(s, t, prio))
  {
    hide Placement, Joined, Step, Enabled;
    Joins(s, t, prio);
    StepPlaces(s, ECreate(t, prio, false));
    StepPlaces(Step(s, ECreate(t, prio, false)), EStart(t));
  }

  lemma JoinedFacts(s: Sched, t: ThreadId, prio: int)
    requires t !in s.tcbs && MetaIrq(s, s.current) && t != s.current && NoRecord(s) && s.preempted != Some(t)
    ensures var s0, s' := Set(s, t, Tcb(prio, 0, false, false, false, false, false, false, None)), Joined(s, t, prio);
            && s'.idle == s.idle && s'.meta == s.meta && s'.current == s.current && NoRecord(s')
            && s'.runq == Insert(s0, s.runq, t)
            && T(s', t).prio == prio && (forall u :: u != t ==> T(s', u) == T(s, u))
            && (forall u :: T(s', u).prio == T(s0, u).prio)
            && (s'.cache == Best(s') || (s'.cache == s.current && !Prevented(T(s, s.current))))
  {
    hide UpdateCache, Insert;
    var s0 := Set(s, t, Tcb(prio, 0, false, false, false, false, false, false, None));
    var s1 := RunAdd(s0, t);
    UpdateFrame(s1, false);
    UpdateDecides(s1, false);
  }

  lemma JoinedForgets(s: Sched, c: ThreadId, t: ThreadId)
    requires Placement(s) && MetaIrq(s, s.current) && !MetaIrq(s, s.idle) && NoRecord(s) && s.preempted != Some(t)
    requires Coop(s, c) && !Prevented(T(s, c)) && s.meta < T(s, c).prio && t !in s.tcbs && t != s.idle && t != s.current
    requires t != c
    ensures Forgotten(Joined(s, t, T(s, c).prio - 1), c)
  {
    var prio := T(s, c).prio - 1;
    var s0 := Set(s, t, Tcb(prio, 0, false, false, false, false, false, false, None));
    InsertedAhead(s0, s0.runq, t, c);
    hide Placement, Insert, Joined, FirstOrdinary;
    JoinedPlaced(s, t, prio);
    JoinedFacts(s, t, prio);
    FirstOrdinaryFrame(s0, Joined(s, t, prio), Joined(s, t, prio).runq);
  }

  /** An owed thread with no record left: a more important thread joins, and c is passed over. */
  lemma Unrecorded(s: Sched, c: ThreadId) returns (es: seq<Event>)
    requires Placement(s) && MetaIrq(s, s.current) && !MetaIrq(s, s.idle) && NoRecord(s)
    requires Coop(s, c) && !Prevented(T(s, c)) && s.meta < T(s, c).prio
    ensures EnabledRun(s, es) && !Promise(s, Some(c), es)
  {
    hide Placement, Enabled, Step, Promise, EnabledRun, Joined, Owed;
    var t := Unused(s.tcbs.Keys + {s.idle, s.current, c, if s.preempted.Some? then s.preempted.value else c});
    var prio := T(s, c).prio - 1;
    Joins(s, t, prio);
    var s1, s2 := Step(s, ECreate(t, prio, false)), Joined(s, t, prio);
    JoinedForgets(s, c, t);
    CreateOwes(s, c, t, prio);
    StillOwed(s1, EStart(t), c);
    var rest := PassedOver(s2, c);
    OneMore(s1, Some(c), EStart(t), rest);
    OneMore(s, Some(c), ECreate(t, prio, false), [EStart(t)] + rest);
    es := [ECreate(t, prio, false)] + ([EStart(t)] + rest);
  }

  /** The state after a decision that forgets c. */
  lemma ForgettingState(s: Sched, c: ThreadId, e: Event)
    requires Placement(s) && Enabled(s, e) && !e.ESwap? && ClassGuard(s, Some(c), e) && Remembered(s, Some(c))
    requires Recording(s)
    requires Owed(s, Some(c), e) == Some(c) && !DecisionGuard(s, Some(c), e)
    ensures var s' := Step(s, e);
            && Placement(s') && !Coop(s', s'.current) && s'.preempted.None? && s'.meta == s.meta && s'.idle == s.idle
            && Coop(s', c) && !Prevented(T(s', c)) && (!MetaIrq(s', s'.current) ==> s'.cache != c)
  {
    AnyFollows(s, e);
    DecidedKinds(s, e);
    OwedStays(s, Some(c), e);
    StepPlaces(s, e);
    var s', s1, ok := Step(s, e), PointOf(s, e).at, PointOf(s, e).ok;
    assert !Coop(s', s'.current);
    hide Placement, Enabled, PointOf, Step;
    assert !Coop(s1, s1.current) && s1.preempted.None?;
    UpdateForgets(s1, c, ok);
    if Preemptible(T(s1, s1.current)) {
      UpdatePlain(s1, ok);
    }
    hide UpdateCache;
  }

  /** A preemptible thread lets anyone in. */
  lemma UpdatePlain(s: Sched, ok: bool)
    requires s.preempted.None? && Preemptible(T(s, s.current))
    ensures UpdateCache(s, ok).cache == Best(s)
  {
  }

  /** A decision that forgets c can always be followed by calls that break the
      promise, unless no ordinary priority is above that of c. */
  lemma ForgettingBreaks(s: Sched, c: ThreadId, e: Event) returns (es: seq<Event>)
    requires Placement(s) && Enabled(s, e) && !e.ESwap? && ClassGuard(s, Some(c), e) && Remembered(s, Some(c))
    requires Recording(s)
    requires Owed(s, Some(c), e) == Some(c) && !DecisionGuard(s, Some(c), e) && !MetaIrq(Step(s, e), s.idle)
    requires s.meta < T(Step(s, e), c).prio
    ensures EnabledRun(s, es) && |es| > 0 && es[0] == e && !Promise(s, Some(c), es)
  {
    hide Placement, Enabled, Step, Promise, EnabledRun, Owed, DecisionGuard, ClassGuard, Remembered, Recording;
    ForgettingState(s, c, e);
    var s' := Step(s, e);
    var rest;
    if MetaIrq(s', s'.current) {
      rest := Unrecorded(s', c);
    } else if MetaIrq(s', s'.cache) {
      SwapsOn(s', c);
      rest := Unrecorded(s'.(current := s'.cache), c);
      OneMore(s', Some(c), ESwap, rest);
      rest := [ESwap] + rest;
    } else {
      SwapBreaks(s', c);
      rest := [ESwap];
    }
    es := [e] + rest;
    OneMore(s, Some(c), e, rest);
  }

  lemma SwapStep(s: Sched)
    requires Placement(s)
    ensures Enabled(s, ESwap) && Step(s, ESwap) == s.(current := s.cache) && Placement(s.(current := s.cache))
  {
    hide Placement;
    StepPlaces(s, ESwap);
  }

  lemma SwapsOn(s: Sched, c: ThreadId)
    requires Placement(s) && MetaIrq(s, s.cache) && !Coop(s, s.current) && Coop(s, c) && !Prevented(T(s, c))
    ensures Enabled(s, ESwap) && Step(s, ESwap) == s.(current := s.cache) && Owed(s, Some(c), ESwap) == Some(c)
    ensures Placement(s.(current := s.cache)) && forall t :: T(s.(current := s.cache), t) == T(s, t)
  {
    hide Placement, Prevented, Preemptible;
    SwapStep(s);
  }

  lemma CreateOwes(s: Sched, c: ThreadId, t: ThreadId, prio: int)
    requires Enabled(s, ECreate(t, prio, false)) && t != c && Coop(s, c) && !Prevented(T(s, c))
    ensures Owed(s, Some(c), ECreate(t, prio, false)) == Some(c)
  {
  }

  // ---------------------------------------------------------------- and so can one whose kinds no longer fit

  /** A meta-IRQ thread joins while a cooperative thread is running: it is chosen, or another is, and
      the running thread is put on record. */
  lemma {:induction false} MetaHeads(s: Sched, q: seq<ThreadId>, t: ThreadId)
    requires MetaIrq(s, t)
    ensures Insert(s, q, t) != [] && MetaIrq(s, Insert(s, q, t)[0])
  {
  }

  lemma MetaJoins(s: Sched, t: ThreadId)
    requires Placement(s) && t !in s.tcbs && t != s.idle && t != s.current && Coop(s, s.current)
    ensures var s' := Joined(s, t, s.meta - 1);
            && Placement(s') && s'.idle == s.idle && s'.meta == s.meta && s'.current == s.current
            && s'.runq != [] && MetaIrq(s', s'.runq[0]) && s'.cache == s'.runq[0] && s'.preempted == Some(s.current)
            && forall u :: u != t ==> T(s', u) == T(s, u)
  {
    JoinedPlaced(s, t, s.meta - 1);
    hide Placement, Insert;
    var s0 := Set(s, t, Tcb(s.meta - 1, 0, false, false, false, false, false, false, None));
    MetaHeads(s0, s0.runq, t);
    var s1 := RunAdd(s0, t);
    UpdateFrame(s1, false);
    assert MetaIrq(s1, s1.runq[0]) && Coop(s1, s1.current);
  }

  /** The running thread, once on record, exits. */
  lemma RecordedExits(s: Sched)
    requires Placement(s) && s.current != s.idle && Coop(s, s.current) && !Prevented(T(s, s.current))
    requires s.runq != [] && MetaIrq(s, s.runq[0]) && s.preempted == Some(s.current)
    ensures Enabled(s, EAbort(s.current))
    ensures var s' := Step(s, EAbort(s.current));
            && Placement(s') && s'.idle == s.idle && s'.meta == s.meta && s'.current == s.current
            && MetaIrq(s', s'.cache) && s'.preempted == Some(s.current) && Prevented(T(s', s.current))
            && Coop(s', s.current) && forall u :: u != s.current ==> T(s', u) == T(s, u)
  {
    var t := s.current;
    AbortIs(s, t);
    AbortPlaces(s, t);
    AbortFollows(s, t);
    AbortSpares(s, t);
    var s0 := Set(s, t, T(s, t).(timeout := false));
    var s1 := RemoveIfQueued(s0, t);
    RemoveBefore(s0, t);
    RemoveFirst(s.runq, t);
    assert s1.runq != [] && s1.runq[0] == s.runq[0];
    assert AbortPoint(s, t) == Decision(s1, true) && Prevented(T(Abort(s, t), t));
    hide Abort, AbortPoint, RemoveIfQueued, Placement, Step, Remove;
    UpdateToMeta(s1);
    hide UpdateCache;
  }

  lemma RemoveFirst(q: seq<ThreadId>, t: ThreadId)
    requires q != [] && q[0] != t
    ensures Remove(q, t) != [] && Remove(q, t)[0] == q[0]
  {
  }

  lemma UpdateToMeta(s: Sched)
    requires s.runq != [] && MetaIrq(s, s.runq[0]) && Coop(s, s.current)
    ensures UpdateCache(s, true).cache == s.runq[0] && UpdateCache(s, true).preempted == Some(s.current)
  {
  }

  /** Switching from a thread that cannot run to a meta-IRQ thread. */
  lemma SwapsAway(s: Sched, c: ThreadId)
    requires Placement(s) && MetaIrq(s, s.cache) && Prevented(T(s, s.current))
    ensures Enabled(s, ESwap) && Step(s, ESwap) == s.(current := s.cache) && Owed(s, Some(c), ESwap) == Some(c)
    ensures Placement(s.(current := s.cache)) && forall t :: T(s.(current := s.cache), t) == T(s, t)
  {
    hide Placement, Prevented, Preemptible;
    SwapStep(s);
  }

  /** From where the running thread has exited with itself on record, c is passed over. */
  lemma Misrecorded(s: Sched, c: ThreadId) returns (es: seq<Event>)
    requires Placement(s) && MetaIrq(s, s.cache) && Prevented(T(s, s.current)) && s.preempted == Some(s.current)
    requires !MetaIrq(s, s.idle) && Coop(s, c) && !Prevented(T(s, c)) && s.meta < T(s, c).prio
    ensures EnabledRun(s, es) && !Promise(s, Some(c), es)
  {
    hide Placement, Enabled, Step, Promise, EnabledRun, Owed;
    SwapsAway(s, c);
    var rest := Unrecorded(s.(current := s.cache), c);
    OneMore(s, Some(c), ESwap, rest);
    es := [ESwap] + rest;
  }

  /** While c is owed a cooperative thread is running: a meta-IRQ thread joins, the running thread is
      recorded in place of c, and exits. */
  lemma CoopRuns(s: Sched, c: ThreadId) returns (es: seq<Event>)
    requires Placement(s) && s.current != s.idle && s.current != c && Coop(s, s.current) && !MetaIrq(s, s.idle)
    requires Coop(s, c) && !Prevented(T(s, c)) && s.meta < T(s, c).prio
    ensures EnabledRun(s, es) && !Promise(s, Some(c), es)
  {
    hide Placement, Enabled, Step, Promise, EnabledRun, Joined, Owed;
    var t := Unused(s.tcbs.Keys + {s.idle, s.current, c});
    var prio := s.meta - 1;
    Joins(s, t, prio);
    MetaJoins(s, t);
    var s1, s2 := Step(s, ECreate(t, prio, false)), Joined(s, t, prio);
    CreateOwes(s, c, t, prio);
    StillOwed(s1, EStart(t), c);
    var rest;
    if Prevented(T(s, s.current)) {
      rest := Misrecorded(s2, c);
    } else {
      RecordedExits(s2);
      StillOwed(s2, EAbort(s.current), c);
      rest := Misrecorded(Step(s2, EAbort(s.current)), c);
      OneMore(s2, Some(c), EAbort(s.current), rest);
      rest := [EAbort(s.current)] + rest;
    }
    OneMore(s1, Some(c), EStart(t), rest);
    OneMore(s, Some(c), ECreate(t, prio, false), [EStart(t)] + rest);
    es := [ECreate(t, prio, false)] + ([EStart(t)] + rest);
  }

  /** The state after a call that fails ClassGuard while c is owed. */
  lemma UnfitState(s: Sched, c: ThreadId, e: Event)
    requires Enabled(s, e) && !e.ESwap? && Remembered(s, Some(c)) && Recording(s)
    requires Owed(s, Some(c), e) == Some(c) && !ClassGuard(s, Some(c), e)
    ensures var s' := Step(s, e);
            && s'.current == s.current && s'.meta == s.meta && s'.idle == s.idle && s.current != c
            && (Coop(s', s.current) || (!MetaIrq(s', s'.cache) && s'.cache != c))
  {
    AnyFollows(s, e);
    if PointOf(s, e).NoDecision? {
      UndecidedKinds(s, e);
    } else {
      DecidedKinds(s, e);
    }
    hide Step, PointOf, UpdateCache;
  }

  /** Every call after which the kinds of threads no longer fit, while c is owed, can be followed by calls
      that break the promise, under the same provisos. */
  lemma UnfitBreaks(s: Sched, c: ThreadId, e: Event) returns (es: seq<Event>)
    requires Placement(s) && Enabled(s, e) && !e.ESwap? && Remembered(s, Some(c)) && Recording(s) && s.current != s.idle
    requires Owed(s, Some(c), e) == Some(c) && !ClassGuard(s, Some(c), e) && !MetaIrq(Step(s, e), s.idle)
    requires s.meta < T(Step(s, e), c).prio
    ensures EnabledRun(s, es) && |es| > 0 && es[0] == e && !Promise(s, Some(c), es)
  {
    UnfitState(s, c, e);
    StepPlaces(s, e);
    OwedStays(s, Some(c), e);
    hide Placement, Enabled, Step, Promise, EnabledRun, Owed, ClassGuard, Remembered, Recording;
    var s' := Step(s, e);
    var rest;
    if Coop(s', s'.current) {
      rest := CoopRuns(s', c);
    } else {
      SwapBreaks(s', c);
      rest := [ESwap];
    }
    es := [e] + rest;
    OneMore(s, Some(c), e, rest);
  }

  /** The state after a call that fails it while nobody is owed. */
  lemma UnfitFree(s: Sched, owed: Option<ThreadId>, e: Event)
    requires Enabled(s, e) && !e.ESwap? && Remembered(s, owed) && Recording(s)
    requires Owed(s, owed, e) == None && !ClassGuard(s, owed, e)
    ensures var s' := Step(s, e);
            && s'.current == s.current && s'.meta == s.meta && s'.idle == s.idle && s'.preempted == s.preempted
            && Coop(s', s.current) && MetaIrq(s', s'.cache) && s'.preempted != Some(s.current)
  {
    AnyFollows(s, e);
    if PointOf(s, e).NoDecision? {
      UndecidedKinds(s, e);
    } else {
      DecidedKinds(s, e);
    }
    hide Step, PointOf, UpdateCache;
  }

  /** The thread on record exits. */
  lemma OnRecordExits(s: Sched, d: ThreadId)
    requires Placement(s) && MetaIrq(s, s.current) && s.preempted == Some(d) && !Prevented(T(s, d)) && d != s.idle
    ensures Enabled(s, EAbort(d))
    ensures var s' := Step(s, EAbort(d));
            && Placement(s') && s'.current == s.current && s'.meta == s.meta && s'.idle == s.idle
            && MetaIrq(s', s'.current) && NoRecord(s') && forall u :: u != d ==> T(s', u) == T(s, u)
  {
    AbortIs(s, d);
    AbortPlaces(s, d);
    AbortFollows(s, d);
    AbortSpares(s, d);
    var s0 := Set(s, d, T(s, d).(timeout := false));
    var s1 := RemoveIfQueued(s0, d);
    RemoveBefore(s0, d);
    assert AbortPoint(s, d) == Decision(s1, d == s.current) && Prevented(T(Abort(s, d), d));
    hide Abort, AbortPoint, RemoveIfQueued, Placement, Step;
    UpdateSame(s1, d == s.current);
    hide UpdateCache;
  }

  lemma UpdateSame(s: Sched, ok: bool)
    requires MetaIrq(s, s.current)
    ensures UpdateCache(s, ok).preempted.None? || UpdateCache(s, ok).preempted == s.preempted
  {
  }

  /** Displaced without being on record, the running thread is passed over. */
  lemma Unnoticed(s: Sched) returns (es: seq<Event>)
    requires Placement(s) && Coop(s, s.current) && !Prevented(T(s, s.current)) && MetaIrq(s, s.cache)
    requires s.preempted != Some(s.current) && s.preempted != Some(s.idle) && !MetaIrq(s, s.idle)
    requires s.meta < T(s, s.current).prio
    ensures EnabledRun(s, es) && !Promise(s, None, es)
  {
    var c, s1 := s.current, s.(current := s.cache);
    StepPlaces(s, ESwap);
    assert Enabled(s, ESwap) && Step(s, ESwap) == s1 && Owed(s, None, ESwap) == Some(c);
    assert forall t :: T(s1, t) == T(s, t);
    hide Placement, Enabled, Step, Promise, EnabledRun, Owed;
    var rest;
    if NoRecord(s1) {
      rest := Unrecorded(s1, c);
    } else {
      var d := s1.preempted.value;
      OnRecordExits(s1, d);
      StillOwed(s1, EAbort(d), c);
      rest := Unrecorded(Step(s1, EAbort(d)), c);
      OneMore(s1, Some(c), EAbort(d), rest);
      rest := [EAbort(d)] + rest;
    }
    OneMore(s, None, ESwap, rest);
    es := [ESwap] + rest;
  }

  /** While nobody is owed, such a call leaves a thread that is about to be displaced unrecorded. */
  lemma UnfitFreeBreaks(s: Sched, owed: Option<ThreadId>, e: Event) returns (es: seq<Event>)
    requires Placement(s) && Enabled(s, e) && !e.ESwap? && Remembered(s, owed) && Recording(s)
    requires Owed(s, owed, e) == None && !ClassGuard(s, owed, e) && s.preempted != Some(s.idle)
    requires !MetaIrq(Step(s, e), s.idle) && !Prevented(T(Step(s, e), s.current))
    requires s.meta < T(Step(s, e), s.current).prio
    ensures EnabledRun(s, es) && |es| > 0 && es[0] == e && !Promise(s, owed, es)
  {
    UnfitFree(s, owed, e);
    StepPlaces(s, e);
    hide Placement, Enabled, Step, Promise, EnabledRun, Owed, ClassGuard, Remembered, Recording;
    var rest := Unnoticed(Step(s, e));
    es := [e] + rest;
    OneMore(s, owed, e, rest);
  }

  // ---------------------------------------------------------------- a run that breaks the promise

  function Queued(prio: int): Tcb { Tcb(prio, 0, false, false, false, false, true, false, None) }

  /** A meta-IRQ thread 2 is running, has preempted the cooperative thread 1, and
      thread 4 of higher priority than 1 is ready; the meta-IRQ thread 3 waits. */
  function Preempting(): Sched {
    Sched(map[0 := Queued(15).(queued := false), 1 := Queued(-1), 2 := Queued(-10),
              3 := Queued(-10).(queued := false, pending := true, pendedOn := Some(0)), 4 := Queued(-5)],
          [2, 4, 1], map[0 := [3]], 0, 2, 2, Some(1), -8)
  }

  lemma PreemptingIsValid()
    ensures Placement(Preempting()) && Remembered(Preempting(), Some(1)) && Recording(Preempting())
  {
    PreemptingLists();
    PreemptingSorted();
    hide InLists, Sorted;
  }

  lemma PreemptingSorted()
    ensures Sorted(Preempting(), Preempting().runq)
  {
    var s := Preempting();
    assert [2, 4, 1][1..] == [4, 1] && [4, 1][1..] == [1] && [1][1..] == [];
    assert SortedFrom(s, [1], -5) && SortedFrom(s, [4, 1], -10);
  }

  lemma PreemptingLists()
    ensures InLists(Preempting())
  {
    var s := Preempting();
    forall t: ThreadId
      ensures Count(s.runq, t) == One(T(s, t).queued)
    {
      assert [2, 4, 1][1..] == [4, 1] && [4, 1][1..] == [1] && [1][1..] == [];
      assert Count([1], t) == One(t == 1);
      assert Count([4, 1], t) == One(t == 4) + One(t == 1);
    }
    forall w: QueueId, t: ThreadId
      ensures Count(WaitQ(s, w), t) == One(T(s, t).pendedOn == Some(w))
    {
      assert [3][1..] == [];
    }
    hide Count;
  }

  /** Thread 2 exits; before it is switched out, an interrupt wakes 3. */
  function ExitThenWake(): seq<Event> { [EAbort(2), EWakeFirst(0), ESwap, EAbort(3), ESwap] }

  /** Thread 4 runs instead of thread 1. */
  lemma PromiseBroken()
    ensures EnabledRun(Preempting(), ExitThenWake()) && !Promise(Preempting(), Some(1), ExitThenWake())
  {
    hide Preempting, Exited, Woken, Step, Enabled, Owed, Promise, EnabledRun;
    AfterExit();
    AfterWake();
    AfterSecondExit();
    var s3 := Woken().(current := 3);
    SwapBreaks(Step(s3, EAbort(3)), 1);
    OneMore(s3, Some(1), EAbort(3), [ESwap]);
    OneMore(Woken(), Some(1), ESwap, [EAbort(3)] + [ESwap]);
    OneMore(Exited(), Some(1), EWakeFirst(0), [ESwap] + ([EAbort(3)] + [ESwap]));
    OneMore(Preempting(), Some(1), EAbort(2), [EWakeFirst(0)] + ([ESwap] + ([EAbort(3)] + [ESwap])));
    assert ExitThenWake() == [EAbort(2)] + ([EWakeFirst(0)] + ([ESwap] + ([EAbort(3)] + [ESwap])));
  }

  /** The states the run passes through. */
  function Exited(): Sched {
    Preempting().(tcbs := Preempting().tcbs[2 := Queued(-10).(queued := false, dead := true)],
                  runq := [4, 1], cache := 1, preempted := None)
  }

  function Woken(): Sched {
    Exited().(tcbs := Exited().tcbs[3 := Queued(-10)], runq := [3, 4, 1], waitqs := map[0 := []], cache := 3)
  }

  lemma AfterExit()
    ensures Enabled(Preempting(), EAbort(2)) && Step(Preempting(), EAbort(2)) == Exited()
    ensures Owed(Preempting(), Some(1), EAbort(2)) == Some(1)
  {
    var s := Preempting();
    assert Remove([2, 4, 1], 2) == [4, 1];
    var s0 := Set(s, 2, T(s, 2).(timeout := false));
    assert s0.tcbs == s.tcbs;
    var s1 := RemoveIfQueued(s0, 2);
    assert s1.runq == [4, 1];
    assert NextUp(s1) == (1, Some(1));
    assert UpdateCache(s1, true) == s1.(cache := 1, preempted := None);
    assert Step(s, EAbort(2)).tcbs == Exited().tcbs;
  }

  lemma AfterWake()
    ensures Enabled(Exited(), EWakeFirst(0)) && Step(Exited(), EWakeFirst(0)) == Woken()
    ensures Owed(Exited(), Some(1), EWakeFirst(0)) == Some(1)
  {
    var s := Exited();
    assert Remove([3], 3) == [];
    var s1 := WaitRemove(s, 3);
    var s2 := Set(s1, 3, T(s1, 3).(timeout := false));
    assert Insert(s2, [4, 1], 3) == [3] + [4, 1] == [3, 4, 1];
    assert s2.waitqs == map[0 := []];
    var s3 := RunAdd(s2, 3);
    assert s3.runq == [3, 4, 1];
    assert NextUp(s3) == (3, None);
    assert Step(s, EWakeFirst(0)).tcbs == Woken().tcbs;
  }

  lemma AfterSecondExit()
    ensures var s := Woken().(current := 3);
            && Enabled(Woken(), ESwap) && Step(Woken(), ESwap) == s && Owed(Woken(), Some(1), ESwap) == Some(1)
            && Enabled(s, EAbort(3)) && Owed(s, Some(1), EAbort(3)) == Some(1) && Step(s, EAbort(3)).cache == 4
            && Step(s, EAbort(3)).meta == -8 && T(Step(s, EAbort(3)), 1) == Queued(-1)
            && T(Step(s, EAbort(3)), 4) == Queued(-5)
  {
    var s := Woken().(current := 3);
    assert Remove([3, 4, 1], 3) == [4, 1];
    var s0 := Set(s, 3, T(s, 3).(timeout := false));
    var s1 := RemoveIfQueued(s0, 3);
    assert s1.runq == [4, 1];
    assert NextUp(s1) == (4, None);
  }

  // ---------------------------------------------------------------- a record left behind

  /** A thread that pends goes on running exactly when it is still recorded as
      preempted and no meta-IRQ thread is ready. */
  lemma PendStaysExact(s: Sched, wq: Option<QueueId>, timed: bool)
    requires Placement(s) && s.current != s.idle && Ready(T(s, s.current))
    ensures var rest := Remove(s.runq, s.current);
            Pend(s, s.current, wq, timed).cache == s.current
            <==> s.preempted == Some(s.current) && (rest == [] || !MetaIrq(s, rest[0]))
  {
    var t := s.current;
    RemoveCount(s.runq, t, t);
    RemoveBefore(s, t);
    var s1 := RemoveIfQueued(s, t);
    assert s1.runq == Remove(s.runq, t);
    assert s1.runq != [] ==> s1.runq[0] != t;
    UpdateFrame(s1, true);
    assert Pend(s, t, wq, timed).cache == UpdateCache(s1, true).cache;
  }

  /** The cooperative thread 1 running, and nothing decided. */
  function Running(): Sched { Exited().(current := 1) }

  function Stale(): Sched {
    Running().(tcbs := Running().tcbs[3 := Queued(-10).(queued := false, suspended := true)],
               waitqs := map[0 := []], preempted := Some(1))
  }

  lemma AfterWakeOver1()
    ensures Step(Running(), EWakeFirst(0)) == Woken().(current := 1, preempted := Some(1))
  {
    var s := Running();
    assert Remove([3], 3) == [];
    var s1 := WaitRemove(s, 3);
    var s2 := Set(s1, 3, T(s1, 3).(timeout := false));
    assert Insert(s2, [4, 1], 3) == [3] + [4, 1] == [3, 4, 1];
    assert s2.waitqs == map[0 := []];
    var s3 := RunAdd(s2, 3);
    assert s3.runq == [3, 4, 1];
    assert NextUp(s3) == (3, None);
    assert Step(s, EWakeFirst(0)).tcbs == Woken().tcbs;
  }

  lemma AfterSuspend()
    ensures Step(Woken().(current := 1, preempted := Some(1)), ESuspend(3)) == Stale()
  {
    var s := Woken().(current := 1, preempted := Some(1));
    assert Remove([3, 4, 1], 3) == [4, 1];
    var s0 := Set(s, 3, T(s, 3).(timeout := false));
    var s1 := RemoveIfQueued(s0, 3);
    assert s1.runq == [4, 1];
    var s2 := Set(s1, 3, T(s1, 3).(suspended := true));
    assert NextUp(s2) == (1, Some(1));
    assert s2.tcbs == Stale().tcbs;
  }

  /** A meta-IRQ thread is made ready and suspended again before it is switched
      to: the running thread 1 stays on record, and goes on running when it pends. */
  lemma StaleRecord(w: QueueId)
    ensures var es := [EWakeFirst(0), ESuspend(3), EPendCurrent(Some(w), false)];
            EnabledRun(Running(), es) && Run(Running(), es).cache == 1 && T(Run(Running(), es), 1).pending
  {
    AfterWakeOver1();
    AfterSuspend();
    var es := [EWakeFirst(0), ESuspend(3), EPendCurrent(Some(w), false)];
    assert es[1..] == [ESuspend(3), EPendCurrent(Some(w), false)];
    assert es[1..][1..] == [EPendCurrent(Some(w), false)];
    assert es[1..][1..][1..] == [];
    PendStale(w);
    hide Step, Stale, Woken, Running, Enabled;
    var s1, s2 := Woken().(current := 1, preempted := Some(1)), Stale();
    assert EnabledRun(s2, es[1..][1..]) && Run(s2, es[1..][1..]) == Step(s2, es[1..][1..][0]);
    assert EnabledRun(s1, es[1..]) && Run(s1, es[1..]) == Run(s2, es[1..][1..]);
  }

  lemma PendStale(w: QueueId)
    ensures var e := EPendCurrent(Some(w), false);
            Enabled(Stale(), e) && Step(Stale(), e).cache == 1 && T(Step(Stale(), e), 1).pending
  {
    hide Remove, Insert;
    var s := RemoveIfQueued(Stale(), 1);
    RemoveBefore(Stale(), 1);
    NotMeta();
    UpdateFrame(s, true);
  }

  lemma NotMeta()
    ensures var s := RemoveIfQueued(Stale(), 1);
            s.runq == [4] && NextUp(s) == (1, Some(1)) && UpdateCache(s, true).cache == 1
  {
    assert [4, 1][1..] == [1] && Remove([1], 1) == [];
    assert Remove([4, 1], 1) == [4];
  }
}
