/**
 The scheduler of kernel/sched.c on one processor, as a state machine: each
 event is what one call does under sched_spinlock, and Swap is the context
 switch to the cached choice that follows at some later point.
 */
module Scheduler {
  import opened Lists
  import WaitQueues
  import opened Wrappers

  type ThreadId = nat
  type QueueId = nat

  /** The scheduling part of a struct k_thread. */
  datatype Tcb = Tcb(
    prio: int,
    locked: nat,         // depth of k_sched_lock
    prestart: bool,
    pending: bool,
    suspended: bool,
    dead: bool,
    queued: bool,
    timeout: bool,       // its timeout is active
    pendedOn: Option<QueueId>)

  datatype Sched = Sched(
    tcbs: map<ThreadId, Tcb>,
    runq: seq<ThreadId>,
    waitqs: map<QueueId, seq<ThreadId>>,
    idle: ThreadId,
    current: ThreadId,
    cache: ThreadId,
    preempted: Option<ThreadId>,
    meta: int)           // priorities above (numerically below) it are those of meta-IRQ threads

  const NOBODY := Tcb(0, 0, false, false, false, true, false, false, None)

  function T(s: Sched, t: ThreadId): Tcb { if t in s.tcbs then s.tcbs[t] else NOBODY }

  function WaitQ(s: Sched, w: QueueId): seq<ThreadId> { if w in s.waitqs then s.waitqs[w] else [] }

  function Set(s: Sched, t: ThreadId, b: Tcb): Sched { s.(tcbs := s.tcbs[t := b]) }

  predicate Prevented(b: Tcb) { b.pending || b.prestart || b.dead || b.suspended }

  predicate Ready(b: Tcb) { !Prevented(b) && !b.timeout }

  predicate MetaIrq(s: Sched, t: ThreadId) { T(s, t).prio < s.meta }

  predicate Preemptible(b: Tcb) { b.prio >= 0 && b.locked == 0 }

  // ---------------------------------------------------------------- queues

  /** z_priq_dumb_add: before the first thread of lower priority. */
  function Insert(s: Sched, q: seq<ThreadId>, t: ThreadId): seq<ThreadId> {
    if q == [] || T(s, t).prio < T(s, q[0]).prio then [t] + q else [q[0]] + Insert(s, q[1..], t)
  }

  /** A queue with the priorities its threads have now. */
  function AsWaiters(s: Sched, q: seq<ThreadId>): seq<WaitQueues.Waiter<()>> {
    if q == [] then [] else [WaitQueues.Waiter(q[0], T(s, q[0]).prio, ())] + AsWaiters(s, q[1..])
  }

  /** It is the insertion of module WaitQueues, whose order of arrival module RunQueues is about. */
  lemma {:induction false} InsertIsPend(s: Sched, q: seq<ThreadId>, t: ThreadId)
    ensures AsWaiters(s, Insert(s, q, t)) == WaitQueues.Pend(AsWaiters(s, q), WaitQueues.Waiter(t, T(s, t).prio, ()))
  {
    if q == [] || T(s, t).prio < T(s, q[0]).prio {
      assert Insert(s, q, t)[1..] == q;
    } else {
      InsertIsPend(s, q[1..], t);
      assert Insert(s, q, t)[1..] == Insert(s, q[1..], t);
      assert AsWaiters(s, q)[1..] == AsWaiters(s, q[1..]);
    }
  }

  ghost predicate SortedFrom(s: Sched, q: seq<ThreadId>, prio: int) {
    q == [] || (prio <= T(s, q[0]).prio && SortedFrom(s, q[1..], T(s, q[0]).prio))
  }

  ghost predicate Sorted(s: Sched, q: seq<ThreadId>) {
    q == [] || SortedFrom(s, q[1..], T(s, q[0]).prio)
  }

  // ---------------------------------------------------------------- choosing the next thread

  /** next_up: the chosen thread, and metairq_preempted afterwards. */
  function NextUp(s: Sched): (ThreadId, Option<ThreadId>) {
    var best := if s.runq == [] then None else Some(s.runq[0]);
    if s.preempted.Some? && (best.None? || !MetaIrq(s, best.value)) then
      if !Prevented(T(s, s.preempted.value)) then (s.preempted.value, s.preempted)
      else (if best.None? then s.idle else best.value, None)
    else (if best.None? then s.idle else best.value, s.preempted)
  }

  predicate ShouldPreempt(s: Sched, thread: ThreadId, preemptOk: bool) {
    preemptOk || Prevented(T(s, s.current)) || Preemptible(T(s, s.current)) || MetaIrq(s, thread)
  }

  /** update_metairq_preempt. */
  function Recorded(s: Sched, thread: ThreadId, preempted: Option<ThreadId>): Option<ThreadId> {
    if MetaIrq(s, thread) && !MetaIrq(s, s.current) && !Preemptible(T(s, s.current)) then Some(s.current)
    else if !MetaIrq(s, thread) then None
    else preempted
  }

  function UpdateCache(s: Sched, preemptOk: bool): Sched {
    var (thread, preempted) := NextUp(s);
    if ShouldPreempt(s, thread, preemptOk) then s.(cache := thread, preempted := Recorded(s, thread, preempted))
    else s.(cache := s.current, preempted := preempted)
  }

  // ---------------------------------------------------------------- the calls

  function RunAdd(s: Sched, t: ThreadId): Sched {
    Set(s, t, T(s, t).(queued := true)).(runq := Insert(s, s.runq, t))
  }

  function RunRemove(s: Sched, t: ThreadId): Sched {
    Set(s, t, T(s, t).(queued := false)).(runq := Remove(s.runq, t))
  }

  function RemoveIfQueued(s: Sched, t: ThreadId): Sched {
    if T(s, t).queued then RunRemove(s, t) else s
  }

  function ReadyThread(s: Sched, t: ThreadId): Sched {
    if Ready(T(s, t)) then UpdateCache(RunAdd(s, t), false) else s
  }

  function UnreadyThread(s: Sched, t: ThreadId): Sched {
    UpdateCache(RemoveIfQueued(s, t), t == s.current)
  }

  function WaitAdd(s: Sched, t: ThreadId, w: QueueId): Sched {
    Set(s, t, T(s, t).(pendedOn := Some(w))).(waitqs := s.waitqs[w := Insert(s, WaitQ(s, w), t)])
  }

  /** z_unpend_thread_no_timeout. */
  function WaitRemove(s: Sched, t: ThreadId): Sched
    requires T(s, t).pendedOn.Some?
  {
    var w := T(s, t).pendedOn.value;
    Set(s, t, T(s, t).(pending := false, pendedOn := None)).(waitqs := s.waitqs[w := Remove(WaitQ(s, w), t)])
  }

  function Pend(s: Sched, t: ThreadId, wq: Option<QueueId>, timed: bool): Sched {
    var s1 := UnreadyThread(s, t);
    var s2 := Set(s1, t, T(s1, t).(pending := true));
    var s3 := if wq.Some? then WaitAdd(s2, t, wq.value) else s2;
    if timed then Set(s3, t, T(s3, t).(timeout := true)) else s3
  }

  /** z_unpend_thread and z_ready_thread. */
  function Wake(s: Sched, t: ThreadId): Sched
    requires T(s, t).pendedOn.Some?
  {
    var s1 := WaitRemove(s, t);
    ReadyThread(Set(s1, t, T(s1, t).(timeout := false)), t)
  }

  /** z_thread_timeout, the timeout having been taken off the timeout list. */
  function Expire(s: Sched, t: ThreadId): Sched {
    var s0 := Set(s, t, T(s, t).(timeout := false));
    var s1 := if T(s0, t).pendedOn.Some? then WaitRemove(s0, t) else s0;
    ReadyThread(Set(s1, t, T(s1, t).(prestart := false, suspended := false)), t)
  }

  function Suspend(s: Sched, t: ThreadId): Sched {
    var s1 := RemoveIfQueued(Set(s, t, T(s, t).(timeout := false)), t);
    UpdateCache(Set(s1, t, T(s1, t).(suspended := true)), t == s.current)
  }

  function Resume(s: Sched, t: ThreadId): Sched {
    ReadyThread(Set(s, t, T(s, t).(suspended := false)), t)
  }

  function Wakeup(s: Sched, t: ThreadId): Sched {
    var b := T(s, t);
    if b.pending then s
    else if !b.timeout && !(b.suspended && !b.prestart && !b.dead && !b.queued) then s
    else ReadyThread(Set(s, t, b.(timeout := false, suspended := false)), t)
  }

  function SetPrio(s: Sched, t: ThreadId, prio: int): Sched {
    if Ready(T(s, t)) then
      var s1 := s.(runq := Remove(s.runq, t));
      var s2 := Set(s1, t, T(s1, t).(prio := prio));
      UpdateCache(s2.(runq := Insert(s2, s2.runq, t)), true)
    else Set(s, t, T(s, t).(prio := prio))
  }

  function Yield(s: Sched): Sched {
    if s.current == s.idle then s
    else UpdateCache(RunAdd(s.(runq := Remove(s.runq, s.current)), s.current), true)
  }

  /** z_move_thread_to_end_of_prio_q, as time slicing calls it. */
  function Rotate(s: Sched): Sched {
    UpdateCache(RunAdd(RemoveIfQueued(s, s.current), s.current), true)
  }

  function Abort(s: Sched, t: ThreadId): Sched {
    var s0 := Set(s, t, T(s, t).(timeout := false));
    var s1 :=
      if Ready(T(s0, t)) then UpdateCache(RemoveIfQueued(s0, t), t == s.current)
      else if T(s0, t).pending && T(s0, t).pendedOn.Some? then WaitRemove(s0, t)
      else s0;
    Set(s1, t, T(s1, t).(dead := true))
  }

  function Sleep(s: Sched): Sched {
    var s1 := UnreadyThread(s, s.current);
    Set(s1, s.current, T(s1, s.current).(timeout := true, suspended := true))
  }

  datatype Event =
    | ECreate(t: ThreadId, prio: int, delayed: bool)
    | EStart(t: ThreadId)
    | EPendCurrent(wq: Option<QueueId>, timed: bool)
    | EWakeFirst(w: QueueId)
    | EWake(t: ThreadId)
    | EExpire(t: ThreadId)
    | ESuspend(t: ThreadId)
    | EResume(t: ThreadId)
    | EWakeup(t: ThreadId)
    | ESetPrio(t: ThreadId, prio: int)
    | EYield
    | ERotate
    | EAbort(t: ThreadId)
    | ESleep
    | ELock
    | EUnlock
    | ESwap

  /** What the kernel demands of each call: the running thread is ready when it
      calls, the idle thread is left alone, and only a thread that is off the
      ready queue is resumed. */
  predicate Enabled(s: Sched, e: Event) {
    match e
    case ECreate(t, prio, delayed) => t != s.idle && T(s, t).dead && !T(s, t).timeout && T(s, t).pendedOn.None?
    case EPendCurrent(wq, timed) => s.current != s.idle && Ready(T(s, s.current))
    case EWake(t) => T(s, t).pendedOn.Some?
    case EExpire(t) => T(s, t).timeout
    case ESuspend(t) => t != s.idle
    case EResume(t) => t != s.idle && !T(s, t).queued
    case ESetPrio(t, prio) => t != s.idle
    case EYield => Ready(T(s, s.current))
    case ERotate => s.current != s.idle && Ready(T(s, s.current))
    case EAbort(t) => t != s.idle && (T(s, t).pending ==> T(s, t).pendedOn.Some?)
    case ESleep => s.current != s.idle && Ready(T(s, s.current))
    case EUnlock => T(s, s.current).locked > 0
    case _ => true
  }

  function Step(s: Sched, e: Event): Sched
    requires Enabled(s, e)
  {
    match e
    case ECreate(t, prio, delayed) => Set(s, t, Tcb(prio, 0, true, false, false, false, false, delayed, None))
    case EStart(t) => if !T(s, t).prestart then s else ReadyThread(Set(s, t, T(s, t).(prestart := false)), t)
    case EPendCurrent(wq, timed) => Pend(s, s.current, wq, timed)
    case EWakeFirst(w) =>
      if WaitQ(s, w) == [] || T(s, WaitQ(s, w)[0]).pendedOn.None? then s else Wake(s, WaitQ(s, w)[0])
    case EWake(t) => Wake(s, t)
    case EExpire(t) => Expire(s, t)
    case ESuspend(t) => Suspend(s, t)
    case EResume(t) => Resume(s, t)
    case EWakeup(t) => Wakeup(s, t)
    case ESetPrio(t, prio) => SetPrio(s, t, prio)
    case EYield => Yield(s)
    case ERotate => Rotate(s)
    case EAbort(t) => Abort(s, t)
    case ESleep => Sleep(s)
    case ELock => Set(s, s.current, T(s, s.current).(locked := T(s, s.current).locked + 1))
    case EUnlock => UpdateCache(Set(s, s.current, T(s, s.current).(locked := T(s, s.current).locked - 1)), false)
    case ESwap => s.(current := s.cache)
  }

  // ---------------------------------------------------------------- where a thread is

  /** QUEUED means in the ready queue, once; pended_on names the one wait queue the thread is in, once. */
  ghost predicate InLists(s: Sched) {
    && (forall t :: Count(s.runq, t) == One(T(s, t).queued))
    && (forall w: QueueId, t: ThreadId :: Count(WaitQ(s, w), t) == One(T(s, t).pendedOn == Some(w)))
    && (forall t :: T(s, t).pendedOn.Some? ==> T(s, t).pending)
  }

  /** A thread other than idle (and x) is queued exactly when it can run. */
  ghost predicate QueuedIffReady(s: Sched, x: Option<ThreadId>) {
    forall t: ThreadId :: Some(t) != x ==> (T(s, t).queued <==> Ready(T(s, t)) && t != s.idle)
  }

  ghost predicate Placement(s: Sched) {
    InLists(s) && QueuedIffReady(s, None) && Ready(T(s, s.idle)) && Sorted(s, s.runq)
  }

  lemma {:induction false} InsertCount(s: Sched, q: seq<ThreadId>, t: ThreadId, u: ThreadId)
    ensures Count(Insert(s, q, t), u) == Count(q, u) + One(u == t)
  {
    if q == [] || T(s, t).prio < T(s, q[0]).prio {
      assert Insert(s, q, t)[1..] == q;
    } else {
      InsertCount(s, q[1..], t, u);
      assert Insert(s, q, t)[1..] == Insert(s, q[1..], t);
    }
  }

  ghost predicate SamePrio(s: Sched, s': Sched) { forall u :: T(s', u).prio == T(s, u).prio }

  lemma {:induction false} InsertFrame(s: Sched, s': Sched, q: seq<ThreadId>, t: ThreadId)
    requires SamePrio(s, s')
    ensures Insert(s', q, t) == Insert(s, q, t)
  {
    if q != [] && T(s, q[0]).prio <= T(s, t).prio {
      InsertFrame(s, s', q[1..], t);
    }
  }

  lemma {:induction false} InsertSorted(s: Sched, q: seq<ThreadId>, t: ThreadId, prio: int)
    requires SortedFrom(s, q, prio) && prio <= T(s, t).prio
    ensures SortedFrom(s, Insert(s, q, t), prio)
  {
    if q == [] || T(s, t).prio < T(s, q[0]).prio {
      assert Insert(s, q, t)[1..] == q;
    } else {
      InsertSorted(s, q[1..], t, T(s, q[0]).prio);
      assert Insert(s, q, t)[1..] == Insert(s, q[1..], t);
    }
  }

  lemma SortedStart(s: Sched, q: seq<ThreadId>, prio: int)
    ensures SortedFrom(s, q, prio) ==> Sorted(s, q)
    ensures q != [] && Sorted(s, q) ==> SortedFrom(s, q, T(s, q[0]).prio)
  {
  }

  lemma InsertKeepsSorted(s: Sched, q: seq<ThreadId>, t: ThreadId)
    requires Sorted(s, q)
    ensures Sorted(s, Insert(s, q, t))
  {
    if q == [] || T(s, t).prio < T(s, q[0]).prio {
      assert Insert(s, q, t)[1..] == q;
    } else {
      SortedStart(s, q, 0);
      InsertSorted(s, q, t, T(s, q[0]).prio);
      SortedStart(s, Insert(s, q, t), T(s, q[0]).prio);
    }
  }

  lemma {:induction false} RemoveSorted(s: Sched, q: seq<ThreadId>, t: ThreadId, prio: int)
    requires SortedFrom(s, q, prio)
    ensures SortedFrom(s, Remove(q, t), prio)
  {
    if q != [] && q[0] != t {
      RemoveSorted(s, q[1..], t, T(s, q[0]).prio);
      assert Remove(q, t)[1..] == Remove(q[1..], t);
    } else if |q| > 1 {
      assert T(s, q[0]).prio <= T(s, q[1..][0]).prio;
    }
  }

  lemma RemoveKeepsSorted(s: Sched, q: seq<ThreadId>, t: ThreadId)
    requires Sorted(s, q)
    ensures Sorted(s, Remove(q, t))
  {
    if q != [] {
      SortedStart(s, q, 0);
      RemoveSorted(s, q, t, T(s, q[0]).prio);
      SortedStart(s, Remove(q, t), T(s, q[0]).prio);
    }
  }

  /** A queue stays sorted when only threads outside it change priority. */
  lemma {:induction false} FrameSorted(s: Sched, s': Sched, q: seq<ThreadId>, prio: int, t: ThreadId)
    requires SortedFrom(s, q, prio) && (Count(q, t) == 0 || T(s', t).prio == T(s, t).prio)
    requires forall u :: u != t ==> T(s', u) == T(s, u)
    ensures SortedFrom(s', q, prio)
  {
    if q != [] {
      FrameSorted(s, s', q[1..], T(s, q[0]).prio, t);
    }
  }

  lemma FrameKeepsSorted(s: Sched, s': Sched, q: seq<ThreadId>, t: ThreadId)
    requires Sorted(s, q) && (Count(q, t) == 0 || T(s', t).prio == T(s, t).prio)
    requires forall u :: u != t ==> T(s', u) == T(s, u)
    ensures Sorted(s', q)
  {
    if q != [] {
      SortedStart(s, q, 0);
      FrameSorted(s, s', q, T(s, q[0]).prio, t);
      SortedStart(s', q, T(s, q[0]).prio);
    }
  }

  ghost predicate Good(s: Sched) { InLists(s) && Sorted(s, s.runq) }

  lemma SetGood(s: Sched, t: ThreadId, b: Tcb)
    requires Good(s) && b.queued == T(s, t).queued && b.prio == T(s, t).prio && b.pendedOn == T(s, t).pendedOn
    requires b.pendedOn.Some? ==> b.pending
    ensures Good(Set(s, t, b)) && T(Set(s, t, b), t) == b && forall u :: u != t ==> T(Set(s, t, b), u) == T(s, u)
  {
    hide Count, Sorted;
    var s' := Set(s, t, b);
    assert forall w :: WaitQ(s', w) == WaitQ(s, w);
    FrameKeepsSorted(s, s', s.runq, t);
  }

  lemma AddGood(s: Sched, t: ThreadId)
    requires Good(s) && !T(s, t).queued
    ensures Good(RunAdd(s, t))
  {
    hide Count, Sorted, Insert;
    var s1 := Set(s, t, T(s, t).(queued := true));
    var s' := RunAdd(s, t);
    assert forall w :: WaitQ(s', w) == WaitQ(s, w);
    forall u
      ensures Count(s'.runq, u) == Count(s.runq, u) + One(u == t)
    {
      InsertCount(s, s.runq, t, u);
    }
    InsertKeepsSorted(s, s.runq, t);
    FrameKeepsSorted(s, s', s'.runq, t);
  }

  lemma RemoveGood(s: Sched, t: ThreadId)
    requires Good(s)
    ensures Good(RemoveIfQueued(s, t)) && T(RemoveIfQueued(s, t), t) == T(s, t).(queued := false)
    ensures forall u :: u != t ==> T(RemoveIfQueued(s, t), u) == T(s, u)
  {
    hide Count, Sorted, Remove;
    if T(s, t).queued {
      var s' := RunRemove(s, t);
      assert forall w :: WaitQ(s', w) == WaitQ(s, w);
      forall u
        ensures Count(s'.runq, u) == if u == t then 0 else Count(s.runq, u)
      {
        RemoveCount(s.runq, t, u);
      }
      RemoveKeepsSorted(s, s.runq, t);
      FrameKeepsSorted(s, s', s'.runq, t);
    }
  }

  lemma UpdateFrame(s: Sched, ok: bool)
    ensures UpdateCache(s, ok) == s.(cache := UpdateCache(s, ok).cache, preempted := UpdateCache(s, ok).preempted)
    ensures forall u :: T(UpdateCache(s, ok), u) == T(s, u)
    ensures Good(s) ==> Good(UpdateCache(s, ok))
  {
    hide Count, Sorted;
    var s' := UpdateCache(s, ok);
    assert forall w :: WaitQ(s', w) == WaitQ(s, w);
    if Good(s) {
      FrameKeepsSorted(s, s', s.runq, 0);
    }
  }

  lemma WaitAddGood(s: Sched, t: ThreadId, w: QueueId)
    requires Good(s) && T(s, t).pendedOn.None? && T(s, t).pending
    ensures Good(WaitAdd(s, t, w))
  {
    hide Count, Sorted, Insert;
    var s' := WaitAdd(s, t, w);
    forall v, u
      ensures Count(WaitQ(s', v), u) == Count(WaitQ(s, v), u) + One(u == t && v == w)
    {
      InsertCount(s, WaitQ(s, w), t, u);
    }
    FrameKeepsSorted(s, s', s.runq, t);
  }

  lemma WaitRemoveGood(s: Sched, t: ThreadId)
    requires Good(s) && T(s, t).pendedOn.Some?
    ensures Good(WaitRemove(s, t))
  {
    hide Count, Sorted, Remove;
    var w := T(s, t).pendedOn.value;
    var s' := WaitRemove(s, t);
    forall v, u
      ensures Count(WaitQ(s', v), u) == if u == t && v == w then 0 else Count(WaitQ(s, v), u)
    {
      RemoveCount(WaitQ(s, w), t, u);
    }
    FrameKeepsSorted(s, s', s.runq, t);
  }

  // ---------------------------------------------------------------- every call keeps every thread in its place

  /** Everything is in place except that t, which is off the ready queue, may have become ready. */
  ghost predicate Settling(s: Sched, t: ThreadId) {
    Good(s) && QueuedIffReady(s, Some(t)) && t != s.idle && Ready(T(s, s.idle)) && !T(s, t).queued
  }

  lemma ReadyPlaces(s: Sched, t: ThreadId)
    requires Settling(s, t)
    ensures Placement(ReadyThread(s, t))
  {
    hide InLists, Sorted, UpdateCache, Insert;
    if Ready(T(s, t)) {
      AddGood(s, t);
      UpdateFrame(RunAdd(s, t), false);
    }
  }

  lemma SetSettles(s: Sched, t: ThreadId, b: Tcb)
    requires Settling(s, t) && b.queued == T(s, t).queued && b.prio == T(s, t).prio && b.pendedOn == T(s, t).pendedOn
    requires b.pendedOn.Some? ==> b.pending
    ensures Settling(Set(s, t, b), t) && T(Set(s, t, b), t) == b
  {
    hide InLists, Sorted;
    SetGood(s, t, b);
    hide Good;
  }

  /** A settling thread that cannot run has settled. */
  lemma Settled(s: Sched, t: ThreadId)
    requires Settling(s, t) && !Ready(T(s, t))
    ensures Placement(s)
  {
    hide InLists, Sorted;
  }

  lemma OffQueueSettles(s: Sched, t: ThreadId)
    requires Placement(s) && t != s.idle
    ensures var s' := RemoveIfQueued(s, t); Settling(s', t) && T(s', t) == T(s, t).(queued := false)
  {
    hide InLists, Sorted, Remove;
    RemoveGood(s, t);
    assert RemoveIfQueued(s, t).idle == s.idle;
  }

  lemma UnreadySettles(s: Sched, t: ThreadId)
    requires Placement(s) && t != s.idle
    ensures var s' := UnreadyThread(s, t);
            Settling(s', t) && T(s', t) == T(s, t).(queued := false) && s'.current == s.current
  {
    hide InLists, Sorted, Remove, UpdateCache;
    OffQueueSettles(s, t);
    UpdateSettles(RemoveIfQueued(s, t), t, t == s.current);
    assert RemoveIfQueued(s, t).current == s.current;
  }

  lemma UpdateSettles(s: Sched, t: ThreadId, ok: bool)
    requires Settling(s, t)
    ensures Settling(UpdateCache(s, ok), t) && T(UpdateCache(s, ok), t) == T(s, t)
    ensures UpdateCache(s, ok).current == s.current
  {
    hide InLists, Sorted, UpdateCache;
    UpdateFrame(s, ok);
  }

  lemma UpdatePlaces(s: Sched, ok: bool)
    requires Placement(s)
    ensures Placement(UpdateCache(s, ok))
  {
    hide InLists, Sorted, UpdateCache;
    UpdateFrame(s, ok);
  }

  /** A thread that is not ready is settling. */
  lemma BlockedSettles(s: Sched, t: ThreadId)
    requires Placement(s) && !Ready(T(s, t))
    ensures Settling(s, t)
  {
    hide InLists, Sorted;
  }

  lemma UnpendSettles(s: Sched, t: ThreadId)
    requires Settling(s, t) && T(s, t).pendedOn.Some?
    ensures var s' := WaitRemove(s, t);
            Settling(s', t) && T(s', t) == T(s, t).(pending := false, pendedOn := None) && s'.current == s.current
  {
    hide InLists, Sorted, Remove;
    WaitRemoveGood(s, t);
  }

  lemma PendPlaces(s: Sched, wq: Option<QueueId>, timed: bool)
    requires Placement(s) && s.current != s.idle && Ready(T(s, s.current))
    ensures Placement(Pend(s, s.current, wq, timed))
  {
    var t := s.current;
    NotPended(s, t);
    hide InLists, Sorted, UnreadyThread, Good, QueuedIffReady, WaitAdd;
    UnreadySettles(s, t);
    var s1 := UnreadyThread(s, t);
    SetSettles(s1, t, T(s1, t).(pending := true));
    var s2 := Set(s1, t, T(s1, t).(pending := true));
    var s3 := s2;
    if wq.Some? {
      WaitAddSettles(s2, t, wq.value);
      s3 := WaitAdd(s2, t, wq.value);
    }
    SetSettles(s3, t, T(s3, t).(timeout := true));
    Settled(if timed then Set(s3, t, T(s3, t).(timeout := true)) else s3, t);
  }

  lemma NotPended(s: Sched, t: ThreadId)
    requires InLists(s) && !T(s, t).pending
    ensures T(s, t).pendedOn.None?
  {
  }

  lemma WaitAddSettles(s: Sched, t: ThreadId, w: QueueId)
    requires Settling(s, t) && T(s, t).pending && T(s, t).pendedOn.None?
    ensures var s' := WaitAdd(s, t, w); Settling(s', t) && T(s', t) == T(s, t).(pendedOn := Some(w))
  {
    hide InLists, Sorted, Insert;
    WaitAddGood(s, t, w);
  }

  lemma WakePlaces(s: Sched, t: ThreadId)
    requires Placement(s) && T(s, t).pendedOn.Some?
    ensures Placement(Wake(s, t))
  {
    assert T(s, t).pending;
    hide InLists, Sorted, Good, QueuedIffReady, WaitRemove, ReadyThread;
    BlockedSettles(s, t);
    UnpendSettles(s, t);
    var s1 := WaitRemove(s, t);
    SetSettles(s1, t, T(s1, t).(timeout := false));
    ReadyPlaces(Set(s1, t, T(s1, t).(timeout := false)), t);
  }

  lemma ExpirePlaces(s: Sched, t: ThreadId)
    requires Placement(s) && T(s, t).timeout
    ensures Placement(Expire(s, t))
  {
    PendedPends(s, t);
    hide InLists, Sorted, Good, QueuedIffReady, WaitRemove, ReadyThread;
    BlockedSettles(s, t);
    SetSettles(s, t, T(s, t).(timeout := false));
    var s0 := Set(s, t, T(s, t).(timeout := false));
    var s1 := s0;
    if T(s0, t).pendedOn.Some? {
      UnpendSettles(s0, t);
      s1 := WaitRemove(s0, t);
    }
    SetSettles(s1, t, T(s1, t).(prestart := false, suspended := false));
    ReadyPlaces(Set(s1, t, T(s1, t).(prestart := false, suspended := false)), t);
  }

  lemma PendedPends(s: Sched, t: ThreadId)
    requires InLists(s)
    ensures T(s, t).pendedOn.Some? ==> T(s, t).pending
  {
  }

  lemma SuspendPlaces(s: Sched, t: ThreadId)
    requires Placement(s) && t != s.idle
    ensures Placement(Suspend(s, t))
  {
    PendedPends(s, t);
    hide InLists, Sorted, UpdateCache, RemoveIfQueued;
    SetGood(s, t, T(s, t).(timeout := false));
    var s0 := Set(s, t, T(s, t).(timeout := false));
    RemoveGood(s0, t);
    RemoveIdle(s0, t);
    var s1 := RemoveIfQueued(s0, t);
    assert Settling(s1, t);
    SetSettles(s1, t, T(s1, t).(suspended := true));
    var s2 := Set(s1, t, T(s1, t).(suspended := true));
    Settled(s2, t);
    UpdatePlaces(s2, t == s.current);
  }

  lemma RemoveIdle(s: Sched, t: ThreadId)
    ensures RemoveIfQueued(s, t).idle == s.idle && RemoveIfQueued(s, t).current == s.current
  {
  }

  lemma AbortPlaces(s: Sched, t: ThreadId)
    requires Placement(s) && t != s.idle && (T(s, t).pending ==> T(s, t).pendedOn.Some?)
    ensures Placement(Abort(s, t))
  {
    PendedPends(s, t);
    hide InLists, Sorted, UpdateCache, RemoveIfQueued, WaitRemove;
    SetGood(s, t, T(s, t).(timeout := false));
    var s0 := Set(s, t, T(s, t).(timeout := false));
    var s1 := s0;
    if Ready(T(s0, t)) {
      RemoveGood(s0, t);
      RemoveIdle(s0, t);
      assert Settling(RemoveIfQueued(s0, t), t);
      UpdateSettles(RemoveIfQueued(s0, t), t, t == s.current);
      s1 := UpdateCache(RemoveIfQueued(s0, t), t == s.current);
    } else {
      assert Settling(s0, t);
      if T(s0, t).pending {
        UnpendSettles(s0, t);
        s1 := WaitRemove(s0, t);
      }
    }
    SetSettles(s1, t, T(s1, t).(dead := true));
    Settled(Set(s1, t, T(s1, t).(dead := true)), t);
  }

  lemma SleepPlaces(s: Sched)
    requires Placement(s) && s.current != s.idle && Ready(T(s, s.current))
    ensures Placement(Sleep(s))
  {
    PendedPends(s, s.current);
    hide InLists, Sorted, UnreadyThread, Good, QueuedIffReady;
    UnreadySettles(s, s.current);
    var s1 := UnreadyThread(s, s.current);
    var b := T(s1, s.current).(timeout := true, suspended := true);
    SetSettles(s1, s.current, b);
    Settled(Set(s1, s.current, b), s.current);
  }

  lemma ResumePlaces(s: Sched, t: ThreadId)
    requires Placement(s) && t != s.idle && !T(s, t).queued
    ensures Placement(Resume(s, t))
  {
    PendedPends(s, t);
    hide InLists, Sorted, ReadyThread;
    BlockedSettles(s, t);
    SetSettles(s, t, T(s, t).(suspended := false));
    ReadyPlaces(Set(s, t, T(s, t).(suspended := false)), t);
  }

  /** k_thread_resume of a thread that is in the ready queue puts it there a
      second time, although the documentation says it then has no effect. */
  lemma ResumeExact(s: Sched, t: ThreadId)
    requires Placement(s) && t != s.idle
    ensures Placement(Resume(s, t)) <==> !T(s, t).queued
  {
    if T(s, t).queued {
      hide Sorted, Insert, Count, UpdateCache;
      assert Ready(T(s, t));
      var s0 := Set(s, t, T(s, t).(suspended := false));
      UpdateFrame(RunAdd(s0, t), false);
      InsertCount(s0, s0.runq, t, t);
      assert Count(Resume(s, t).runq, t) == 2;
    } else {
      ResumePlaces(s, t);
    }
  }

  lemma WakeupPlaces(s: Sched, t: ThreadId)
    requires Placement(s)
    ensures Placement(Wakeup(s, t))
  {
    PendedPends(s, t);
    hide InLists, Sorted, ReadyThread;
    var b := T(s, t);
    if !b.pending && (b.timeout || (b.suspended && !b.prestart && !b.dead && !b.queued)) {
      BlockedSettles(s, t);
      SetSettles(s, t, b.(timeout := false, suspended := false));
      ReadyPlaces(Set(s, t, b.(timeout := false, suspended := false)), t);
    }
  }

  lemma RequeueCount(s: Sched, q: seq<ThreadId>, t: ThreadId, u: ThreadId)
    requires Count(q, t) == 1
    ensures Count(Insert(s, Remove(q, t), t), u) == Count(q, u) && Count(Remove(q, t), t) == 0
  {
    hide Count, Insert, Remove;
    RemoveCount(q, t, u);
    RemoveCount(q, t, t);
    InsertCount(s, Remove(q, t), t, u);
  }

  lemma ListsFrame(s: Sched, s': Sched)
    requires InLists(s) && s'.waitqs == s.waitqs
    requires forall u :: Count(s'.runq, u) == Count(s.runq, u)
    requires forall u :: T(s', u).queued == T(s, u).queued
    requires forall u :: T(s', u).pendedOn == T(s, u).pendedOn && T(s', u).pending == T(s, u).pending
    ensures InLists(s')
  {
    hide Count;
    assert forall w :: WaitQ(s', w) == WaitQ(s, w);
  }

  /** Taken out, given another priority (or the same) and put back. */
  lemma RequeueGood(s: Sched, t: ThreadId, prio: int)
    requires Good(s) && T(s, t).queued
    ensures var s2 := Set(s.(runq := Remove(s.runq, t)), t, T(s, t).(prio := prio));
            Good(s2.(runq := Insert(s2, s2.runq, t)))
  {
    assert Count(s.runq, t) == 1;
    hide Count, Insert, Remove, Sorted;
    var s1 := s.(runq := Remove(s.runq, t));
    var s2 := Set(s1, t, T(s, t).(prio := prio));
    var s3 := s2.(runq := Insert(s2, s2.runq, t));
    forall u
      ensures Count(s3.runq, u) == Count(s.runq, u)
    {
      RequeueCount(s2, s.runq, t, u);
    }
    RequeueCount(s2, s.runq, t, t);
    ListsFrame(s, s3);
    hide InLists;
    RemoveKeepsSorted(s, s.runq, t);
    FrameKeepsSorted(s, s2, s2.runq, t);
    InsertKeepsSorted(s2, s2.runq, t);
    FrameKeepsSorted(s2, s3, s3.runq, t);
  }

  lemma SetPrioPlaces(s: Sched, t: ThreadId, prio: int)
    requires Placement(s) && t != s.idle
    ensures Placement(SetPrio(s, t, prio))
  {
    hide Sorted, Insert, Remove, UpdateCache;
    if Ready(T(s, t)) {
      RequeueGood(s, t, prio);
      hide InLists;
      var s2 := Set(s.(runq := Remove(s.runq, t)), t, T(s, t).(prio := prio));
      UpdatePlaces(s2.(runq := Insert(s2, s2.runq, t)), true);
    } else {
      hide Count;
      var s' := SetPrio(s, t, prio);
      assert Count(s.runq, t) == 0;
      ListsFrame(s, s');
      hide InLists;
      FrameKeepsSorted(s, s', s.runq, t);
    }
  }

  lemma RotatePlaces(s: Sched)
    requires Placement(s) && s.current != s.idle && Ready(T(s, s.current))
    ensures Placement(Rotate(s)) && Placement(Yield(s))
  {
    hide InLists, Sorted, Insert, Remove, UpdateCache, Count;
    var t := s.current;
    RemoveGood(s, t);
    var s1 := RemoveIfQueued(s, t);
    AddGood(s1, t);
    UpdatePlaces(RunAdd(s1, t), true);
    RequeueGood(s, t, T(s, t).prio);
    var s2 := s.(runq := Remove(s.runq, t));
    var s3 := Set(s2, t, T(s, t).(prio := T(s, t).prio));
    assert s3.tcbs == s2.tcbs && s3 == s2;
    assert RunAdd(s2, t).tcbs == s2.tcbs;
    UpdatePlaces(RunAdd(s2, t), true);
  }

  lemma YieldPlaces(s: Sched)
    requires Placement(s) && Ready(T(s, s.current))
    ensures Placement(Yield(s))
  {
    hide Placement, UpdateCache, RunAdd;
    if s.current != s.idle {
      RotatePlaces(s);
    }
  }

  lemma StepPlaces(s: Sched, e: Event)
    requires Placement(s) && Enabled(s, e)
    ensures Placement(Step(s, e))
  {
    hide Placement, Pend, Wake, Expire, Suspend, Resume, Wakeup, SetPrio, Yield, Rotate, Abort, Sleep, ReadyThread;
    hide UpdateCache, Set;
    match e
    case ECreate(t, prio, delayed) => CreatePlaces(s, t, prio, delayed);
    case EStart(t) => StartPlaces(s, t);
    case EPendCurrent(wq, timed) => PendPlaces(s, wq, timed);
    case EWakeFirst(w) =>
      if WaitQ(s, w) != [] && T(s, WaitQ(s, w)[0]).pendedOn.Some? {
        WakePlaces(s, WaitQ(s, w)[0]);
      }
    case EWake(t) => WakePlaces(s, t);
    case EExpire(t) => ExpirePlaces(s, t);
    case ESuspend(t) => SuspendPlaces(s, t);
    case EResume(t) => ResumePlaces(s, t);
    case EWakeup(t) => WakeupPlaces(s, t);
    case ESetPrio(t, prio) => SetPrioPlaces(s, t, prio);
    case EYield => YieldPlaces(s);
    case ERotate => RotatePlaces(s);
    case EAbort(t) => AbortPlaces(s, t);
    case ESleep => SleepPlaces(s);
    case ELock => LockPlaces(s, T(s, s.current).locked + 1);
    case EUnlock => LockPlaces(s, T(s, s.current).locked - 1);
    case ESwap => SwapPlaces(s);
  }

  lemma CreatePlaces(s: Sched, t: ThreadId, prio: int, delayed: bool)
    requires Placement(s) && Enabled(s, ECreate(t, prio, delayed))
    ensures Placement(Step(s, ECreate(t, prio, delayed)))
  {
    hide Count, Sorted;
    var s' := Step(s, ECreate(t, prio, delayed));
    assert Count(s.runq, t) == 0;
    assert forall w :: WaitQ(s', w) == WaitQ(s, w);
    FrameKeepsSorted(s, s', s.runq, t);
  }

  lemma StartPlaces(s: Sched, t: ThreadId)
    requires Placement(s)
    ensures Placement(Step(s, EStart(t)))
  {
    PendedPends(s, t);
    hide InLists, Sorted, ReadyThread;
    if T(s, t).prestart {
      BlockedSettles(s, t);
      SetSettles(s, t, T(s, t).(prestart := false));
      ReadyPlaces(Set(s, t, T(s, t).(prestart := false)), t);
    }
  }

  lemma LockPlaces(s: Sched, depth: nat)
    requires Placement(s)
    ensures var s' := Set(s, s.current, T(s, s.current).(locked := depth));
            Placement(s') && Placement(UpdateCache(s', false))
  {
    PendedPends(s, s.current);
    hide InLists, Sorted, UpdateCache;
    SetGood(s, s.current, T(s, s.current).(locked := depth));
    UpdatePlaces(Set(s, s.current, T(s, s.current).(locked := depth)), false);
  }

  lemma SwapPlaces(s: Sched)
    requires Placement(s)
    ensures Placement(s.(current := s.cache))
  {
    hide Count, Sorted, InLists;
    var s' := s.(current := s.cache);
    ListsFrame(s, s');
    FrameKeepsSorted(s, s', s.runq, 0);
  }

  // ---------------------------------------------------------------- whole runs

  /** Nothing but the idle thread. */
  function Booted(idle: ThreadId, prio: int, meta: int): Sched {
    Sched(map[idle := Tcb(prio, 0, false, false, false, false, false, false, None)], [], map[], idle, idle, idle, None,
          meta)
  }

  lemma BootedPlaces(idle: ThreadId, prio: int, meta: int)
    ensures Placement(Booted(idle, prio, meta))
  {
  }

  ghost predicate EnabledRun(s: Sched, es: seq<Event>)
    decreases |es|
  {
    es == [] || (Enabled(s, es[0]) && EnabledRun(Step(s, es[0]), es[1..]))
  }

  ghost function Run(s: Sched, es: seq<Event>): Sched
    requires EnabledRun(s, es)
    decreases |es|
  {
    if es == [] then s else Run(Step(s, es[0]), es[1..])
  }

  /** Through every run, each thread is where its state says: ready threads in
      the ready queue once, pended threads in the queue they wait on once, and
      nobody in two queues. */
  lemma {:induction false} EveryRunPlaces(s: Sched, es: seq<Event>)
    requires Placement(s) && EnabledRun(s, es)
    ensures Placement(Run(s, es))
    decreases |es|
  {
    if es != [] {
      StepPlaces(s, es[0]);
      hide Placement, Step, Enabled;
      EveryRunPlaces(Step(s, es[0]), es[1..]);
    }
  }

  lemma {:induction false} SortedBound(s: Sched, q: seq<ThreadId>, prio: int, t: ThreadId)
    requires SortedFrom(s, q, prio) && Count(q, t) > 0
    ensures prio <= T(s, t).prio
  {
    if q[0] != t {
      SortedBound(s, q[1..], T(s, q[0]).prio, t);
    }
  }

  /** With no cooperative thread to return to, the choice is a ready thread of the
      highest priority, and idle exactly when no other thread is ready. */
  lemma NextUpIsBest(s: Sched, t: ThreadId)
    requires Placement(s) && s.preempted.None?
    ensures var next := NextUp(s).0;
            && Ready(T(s, next))
            && (Ready(T(s, t)) && t != s.idle ==> next != s.idle && T(s, next).prio <= T(s, t).prio)
  {
    if s.runq != [] {
      assert Count(s.runq, s.runq[0]) > 0;
      SortedStart(s, s.runq, 0);
      if Ready(T(s, t)) && t != s.idle {
        assert Count(s.runq, t) == 1;
        SortedBound(s, s.runq, T(s, s.runq[0]).prio, t);
      }
    } else {
      assert Count(s.runq, t) == 0;
    }
  }

  // ---------------------------------------------------------------- order within a wait queue

  lemma {:induction false} SortedPairs(s: Sched, q: seq<ThreadId>)
    ensures Sorted(s, q) <==> forall i :: 0 < i < |q| ==> T(s, q[i - 1]).prio <= T(s, q[i]).prio
  {
    if |q| > 1 {
      var r := q[1..];
      SortedPairs(s, r);
      SortedStart(s, r, 0);
      SortedStart(s, r, T(s, q[0]).prio);
      assert forall i :: 0 <= i < |r| ==> r[i] == q[i + 1];
      if Sorted(s, q) {
        forall i | 0 < i < |q|
          ensures T(s, q[i - 1]).prio <= T(s, q[i]).prio
        {
          if i > 1 {
            assert T(s, r[i - 2]).prio <= T(s, r[i - 1]).prio;
          }
        }
      }
      if forall i :: 0 < i < |q| ==> T(s, q[i - 1]).prio <= T(s, q[i]).prio {
        forall i | 0 < i < |r|
          ensures T(s, r[i - 1]).prio <= T(s, r[i]).prio
        {
          assert T(s, q[i]).prio <= T(s, q[i + 1]).prio;
        }
        assert T(s, q[0]).prio <= T(s, q[1]).prio;
      }
    }
  }

  /** k_thread_priority_set does not move a pended thread within its wait queue:
      the queue stays in priority order exactly when the new priority still fits
      between the thread's neighbours. */
  lemma WaitOrderExact(s: Sched, w: QueueId, i: nat, prio: int)
    requires Placement(s) && i < |WaitQ(s, w)| && Sorted(s, WaitQ(s, w))
    ensures var q := WaitQ(s, w);
            var s' := SetPrio(s, q[i], prio);
            && WaitQ(s', w) == q
            && (Sorted(s', q)
               <==> (i > 0 ==> T(s, q[i - 1]).prio <= prio) && (i + 1 < |q| ==> prio <= T(s, q[i + 1]).prio))
  {
    var q := WaitQ(s, w);
    var t := q[i];
    CountAt(q, i);
    assert Count(q, t) == One(T(s, t).pendedOn == Some(w)) == 1;
    var s' := SetPrio(s, t, prio);
    assert s' == Set(s, t, T(s, t).(prio := prio));
    forall j | 0 <= j < |q| && j != i
      ensures T(s', q[j]).prio == T(s, q[j]).prio
    {
      if j < i {
        CountAt(q, j);
        assert Count(q, q[j]) == One(T(s, q[j]).pendedOn == Some(w));
        OnlyOnce(q, j, i);
      } else {
        OnlyOnce(q, i, j);
      }
    }
    hide SetPrio, Placement, Count, Sorted;
    SortedPairs(s, q);
    SortedPairs(s', q);
    FitsExact(s, s', q, i, prio);
  }

  lemma FitsExact(s: Sched, s': Sched, q: seq<ThreadId>, i: nat, prio: int)
    requires i < |q| && T(s', q[i]).prio == prio
    requires forall j :: 0 <= j < |q| && j != i ==> T(s', q[j]).prio == T(s, q[j]).prio
    requires forall j :: 0 < j < |q| ==> T(s, q[j - 1]).prio <= T(s, q[j]).prio
    ensures (forall j :: 0 < j < |q| ==> T(s', q[j - 1]).prio <= T(s', q[j]).prio)
       <==> (i > 0 ==> T(s, q[i - 1]).prio <= prio) && (i + 1 < |q| ==> prio <= T(s, q[i + 1]).prio)
  {
    if forall j :: 0 < j < |q| ==> T(s', q[j - 1]).prio <= T(s', q[j]).prio {
      assert i + 1 < |q| ==> T(s', q[i]).prio <= T(s', q[i + 1]).prio;
    }
  }

  /** Whenever two threads wait, making the first less important than the second puts the queue out of order. */
  lemma WaitOrderBroken(s: Sched, w: QueueId)
    requires Placement(s) && |WaitQ(s, w)| > 1 && Sorted(s, WaitQ(s, w))
    ensures var q := WaitQ(s, w); !Sorted(SetPrio(s, q[0], T(s, q[1]).prio + 1), q)
  {
    hide Placement, Sorted, SetPrio;
    WaitOrderExact(s, w, 0, T(s, WaitQ(s, w)[1]).prio + 1);
  }

  // ---------------------------------------------------------------- woken but not yet ready

  /** z_unpend_thread alone, as mailboxes and pipes call it some time before z_ready_thread. */
  function Unpended(s: Sched, t: ThreadId): Sched
    requires T(s, t).pendedOn.Some?
  {
    var s1 := WaitRemove(s, t);
    Set(s1, t, T(s1, t).(timeout := false))
  }

  /** In between the thread is in no list, although it may count as ready; every other thread is in its place. */
  lemma UnpendedLists(s: Sched, t: ThreadId)
    requires Placement(s) && T(s, t).pendedOn.Some?
    ensures var s' := Unpended(s, t);
            && Good(s') && QueuedIffReady(s', Some(t)) && !T(s', t).queued && T(s', t).pendedOn.None?
            && (Ready(T(s', t)) <==> !T(s, t).suspended && !T(s, t).prestart && !T(s, t).dead)
  {
    assert T(s, t).pending;
    hide InLists, Sorted, Remove;
    BlockedSettles(s, t);
    UnpendSettles(s, t);
    var s1 := WaitRemove(s, t);
    SetSettles(s1, t, T(s1, t).(timeout := false));
  }

  /** z_set_prio unlinks a ready thread without looking whether it is queued: the
      lists stay right exactly when a ready thread is, which is not so in between. */
  lemma SetPrioExact(s: Sched, t: ThreadId, prio: int)
    requires Good(s)
    ensures InLists(SetPrio(s, t, prio)) <==> (Ready(T(s, t)) ==> T(s, t).queued)
  {
    hide Insert, Remove, UpdateCache, Sorted, Count;
    if !Ready(T(s, t)) {
      ListsFrame(s, SetPrio(s, t, prio));
    } else {
      var s2 := Set(s.(runq := Remove(s.runq, t)), t, T(s, t).(prio := prio));
      var s3 := s2.(runq := Insert(s2, s2.runq, t));
      UpdateFrame(s3, true);
      if T(s, t).queued {
        RequeueGood(s, t, prio);
      } else {
        RemoveCount(s.runq, t, t);
        InsertCount(s2, s2.runq, t, t);
        assert Count(SetPrio(s, t, prio).runq, t) == 1 && !T(SetPrio(s, t, prio), t).queued;
      }
    }
  }

  /** Booting, creating thread 1, starting it and resuming it, though nobody suspended it. */
  lemma ResumeBroken(prio: int)
    ensures var s := Booted(0, 15, -8);
            var e := ECreate(1, prio, false);
            && Enabled(s, e) && Enabled(Step(s, e), EStart(1)) && Placement(Step(Step(s, e), EStart(1)))
            && !Placement(Resume(Step(Step(s, e), EStart(1)), 1))
  {
    var s := Booted(0, 15, -8);
    var e := ECreate(1, prio, false);
    BootedPlaces(0, 15, -8);
    StepPlaces(s, e);
    StepPlaces(Step(s, e), EStart(1));
    StartedIsQueued(prio);
    hide Step, Placement, Booted;
    ResumeExact(Step(Step(s, e), EStart(1)), 1);
  }

  lemma StartedIsQueued(prio: int)
    ensures var s := Step(Booted(0, 15, -8), ECreate(1, prio, false));
            T(Step(s, EStart(1)), 1).queued && Step(s, EStart(1)).idle == 0
  {
    var s := Step(Booted(0, 15, -8), ECreate(1, prio, false));
    var s1 := Set(s, 1, T(s, 1).(prestart := false));
    hide UpdateCache, Insert;
    UpdateFrame(RunAdd(s1, 1), false);
  }
}
