/**
 The code of kernel/sched.c on the kernel's own data: thread_state is a byte of
 flags, sched_locked and prio are two bytes that are compared as one, and the
 ready queue and all wait queues run through the one link node of each thread.
 Each call is proved to take the step that module Scheduler gives it, as long
 as every thread is where its state says.
 */
module SchedulerKernel {
  import opened DLists
  import opened Lists
  import opened Scheduler
  import opened Wrappers

  type U8 = x: int | 0 <= x < 256
  type S8 = x: int | -128 <= x < 128

  // thread_state
  const DUMMY: bv8 := 1
  const PENDING: bv8 := 2
  const PRESTART: bv8 := 4
  const DEAD: bv8 := 8
  const SUSPENDED: bv8 := 16
  const QUEUED: bv8 := 128

  /** struct _thread_base, without its link node. */
  datatype Base = Base(prio: S8, schedLocked: U8, state: bv8, timeout: bool, pendedOn: Option<QueueId>)

  const NO_THREAD := Base(0, 0, DEAD, false, None)

  /** sched_locked counts down from 0 through 255. */
  function Depth(schedLocked: U8): nat { if schedLocked == 0 then 0 else 256 - schedLocked }

  predicate Flag(state: bv8, flag: bv8) { state & flag != 0 }

  function TcbOf(b: Base): Tcb {
    Tcb(b.prio, Depth(b.schedLocked), Flag(b.state, PRESTART), Flag(b.state, PENDING), Flag(b.state, SUSPENDED),
        Flag(b.state, DEAD),
        Flag(b.state, QUEUED), b.timeout, b.pendedOn)
  }

  /** No flag but these is ever set on one processor. */
  predicate Plain(b: Base) { b.state & 0x61 == 0 }

  // ---------------------------------------------------------------- flags and bundled bytes

  predicate PreventedFromRunning(b: Base) { b.state & (PENDING | PRESTART | DEAD | DUMMY | SUSPENDED) != 0 }

  predicate IsReady(b: Base) { !PreventedFromRunning(b) && !b.timeout }

  /** The union of sched_locked and prio, read as one unsigned number. */
  function Preempt(b: Base): int { b.schedLocked * 256 + b.prio % 256 }

  predicate IsPreempt(b: Base) { Preempt(b) <= 0x7f }

  lemma BundleExact(b: Base)
    ensures IsPreempt(b) <==> Preemptible(TcbOf(b))
  {
  }

  lemma Setting(x: bv8)
    ensures Flag(x | PENDING, PENDING) && Flag(x | SUSPENDED, SUSPENDED) && Flag(x | DEAD, DEAD)
    ensures Flag(x | QUEUED, QUEUED)
    ensures !Flag(x & !PENDING, PENDING) && !Flag(x & !SUSPENDED, SUSPENDED) && !Flag(x & !PRESTART, PRESTART)
    ensures !Flag(x & !QUEUED, QUEUED)
  {
  }

  lemma Keeping(x: bv8, f: bv8, g: bv8)
    requires f & g == 0
    ensures Flag(x | f, g) == Flag(x, g) && Flag(x & !f, g) == Flag(x, g)
  {
    assert (x | f) & g == x & g;
    assert (x & !f) & g == x & g;
  }

  lemma KeepingOthers(x: bv8, f: bv8)
    requires f == PENDING || f == PRESTART || f == DEAD || f == SUSPENDED || f == QUEUED
    ensures f != PENDING ==> Flag(x | f, PENDING) == Flag(x, PENDING) && Flag(x & !f, PENDING) == Flag(x, PENDING)
    ensures f != PRESTART ==> Flag(x | f, PRESTART) == Flag(x, PRESTART) && Flag(x & !f, PRESTART) == Flag(x, PRESTART)
    ensures f != DEAD ==> Flag(x | f, DEAD) == Flag(x, DEAD) && Flag(x & !f, DEAD) == Flag(x, DEAD)
    ensures f != SUSPENDED ==>
        Flag(x | f, SUSPENDED) == Flag(x, SUSPENDED) && Flag(x & !f, SUSPENDED) == Flag(x, SUSPENDED)
    ensures f != QUEUED ==> Flag(x | f, QUEUED) == Flag(x, QUEUED) && Flag(x & !f, QUEUED) == Flag(x, QUEUED)
  {
    hide Flag;
    if f != PENDING {
      Keeping(x, f, PENDING);
    }
    if f != PRESTART {
      Keeping(x, f, PRESTART);
    }
    if f != DEAD {
      Keeping(x, f, DEAD);
    }
    if f != SUSPENDED {
      Keeping(x, f, SUSPENDED);
    }
    if f != QUEUED {
      Keeping(x, f, QUEUED);
    }
  }

  lemma StayingPlain(x: bv8, f: bv8)
    requires x & 0x61 == 0 && f & 0x61 == 0
    ensures (x | f) & 0x61 == 0 && (x & !f) & 0x61 == 0
  {
  }

  // Each flag is the field of that name.

  lemma MarkPending(b: Base)
    ensures TcbOf(b.(state := b.state | PENDING)) == TcbOf(b).(pending := true)
    ensures TcbOf(b.(state := b.state & !PENDING)) == TcbOf(b).(pending := false)
  {
    hide Flag;
    Setting(b.state);
    KeepingOthers(b.state, PENDING);
  }

  lemma MarkSuspended(b: Base)
    ensures TcbOf(b.(state := b.state | SUSPENDED)) == TcbOf(b).(suspended := true)
    ensures TcbOf(b.(state := b.state & !SUSPENDED)) == TcbOf(b).(suspended := false)
  {
    hide Flag;
    Setting(b.state);
    KeepingOthers(b.state, SUSPENDED);
  }

  lemma MarkDead(b: Base)
    ensures TcbOf(b.(state := b.state | DEAD)) == TcbOf(b).(dead := true)
  {
    hide Flag;
    Setting(b.state);
    KeepingOthers(b.state, DEAD);
  }

  lemma MarkQueued(b: Base)
    ensures TcbOf(b.(state := b.state | QUEUED)) == TcbOf(b).(queued := true)
    ensures TcbOf(b.(state := b.state & !QUEUED)) == TcbOf(b).(queued := false)
  {
    hide Flag;
    Setting(b.state);
    KeepingOthers(b.state, QUEUED);
  }

  lemma MarkPrestart(b: Base)
    ensures TcbOf(b.(state := b.state & !PRESTART)) == TcbOf(b).(prestart := false)
  {
    hide Flag;
    Setting(b.state);
    KeepingOthers(b.state, PRESTART);
  }

  lemma MarksPlain(b: Base)
    requires Plain(b)
    ensures Plain(b.(state := b.state | PENDING)) && Plain(b.(state := b.state | SUSPENDED))
    ensures Plain(b.(state := b.state | DEAD)) && Plain(b.(state := b.state | QUEUED))
    ensures Plain(b.(state := b.state & !PENDING)) && Plain(b.(state := b.state & !SUSPENDED))
    ensures Plain(b.(state := b.state & !PRESTART)) && Plain(b.(state := b.state & !QUEUED))
  {
    StayingPlain(b.state, PENDING);
    StayingPlain(b.state, SUSPENDED);
    StayingPlain(b.state, DEAD);
    StayingPlain(b.state, QUEUED);
    StayingPlain(b.state, PRESTART);
  }

  lemma PreventedExact(b: Base)
    requires Plain(b)
    ensures PreventedFromRunning(b) <==> Prevented(TcbOf(b))
    ensures IsReady(b) <==> Ready(TcbOf(b))
  {
    PreventedBits(b.state);
  }

  lemma PreventedBits(x: bv8)
    requires x & 0x61 == 0
    ensures x & (PENDING | PRESTART | DEAD | DUMMY | SUSPENDED) != 0
       <==> x & PENDING != 0 || x & PRESTART != 0 || x & DEAD != 0 || x & SUSPENDED != 0
  {
  }

  /** k_wakeup compares the whole byte. */
  lemma OnlySuspended(b: Base)
    requires Plain(b)
    ensures b.state == SUSPENDED
       <==> && Flag(b.state, SUSPENDED) && !Flag(b.state, PENDING) && !Flag(b.state, PRESTART)
            && !Flag(b.state, DEAD) && !Flag(b.state, QUEUED)
  {
    OnlyBits(b.state);
  }

  lemma OnlyBits(x: bv8)
    requires x & 0x61 == 0
    ensures x == SUSPENDED
       <==> x & SUSPENDED != 0 && x & PENDING == 0 && x & PRESTART == 0 && x & DEAD == 0 && x & QUEUED == 0
  {
  }

  lemma NoThread()
    ensures TcbOf(NO_THREAD) == NOBODY && Plain(NO_THREAD)
  {
  }

  // ---------------------------------------------------------------- the lists as the scheduler sees them

  /** List 0 is the ready queue, list w + 1 the wait queue w. */
  ghost predicate Coupled(lists: map<nat, seq<nat>>, runq: seq<ThreadId>, waitqs: map<QueueId, seq<ThreadId>>) {
    && 0 in lists && lists[0] == runq
    && (forall w :: w in waitqs ==> w + 1 in lists && lists[w + 1] == waitqs[w])
    && (forall l :: l in lists && l > 0 ==> l - 1 in waitqs)
  }

  lemma RunqUpdate(lists: map<nat, seq<nat>>, runq: seq<ThreadId>, waitqs: map<QueueId, seq<ThreadId>>, q: seq<nat>)
    requires Coupled(lists, runq, waitqs)
    ensures Coupled(lists[0 := q], q, waitqs)
  {
  }

  lemma WaitqUpdate(lists: map<nat, seq<nat>>, runq: seq<ThreadId>, waitqs: map<QueueId, seq<ThreadId>>, w: QueueId,
                    q: seq<nat>)
    requires Coupled(lists, runq, waitqs)
    ensures Coupled(lists[w + 1 := q], runq, waitqs[w := q])
  {
  }

  /** Where a thread is linked, from its state. */
  lemma WhereLinked(s: Sched, lists: map<nat, seq<nat>>, t: ThreadId)
    requires InLists(s) && Coupled(lists, s.runq, s.waitqs)
    ensures T(s, t).queued ==> t in lists[0]
    ensures T(s, t).pendedOn.Some? ==>
        var w := T(s, t).pendedOn.value; w in s.waitqs && w + 1 in lists && t in lists[w + 1]
    ensures !T(s, t).queued && T(s, t).pendedOn.None? ==> Free(lists, t)
  {
    Member(s.runq, t);
    if T(s, t).pendedOn.Some? {
      var w := T(s, t).pendedOn.value;
      Member(WaitQ(s, w), t);
      assert Count(WaitQ(s, w), t) == 1;
    }
    forall l | l in lists && !T(s, t).queued && T(s, t).pendedOn.None?
      ensures t !in lists[l]
    {
      if l > 0 {
        assert WaitQ(s, l - 1) == lists[l];
        Member(WaitQ(s, l - 1), t);
      }
    }
  }

  // ---------------------------------------------------------------- the kernel

  function Tcbs(threads: map<ThreadId, Base>): map<ThreadId, Tcb> { map t | t in threads :: TcbOf(threads[t]) }

  lemma TcbsUpdate(threads: map<ThreadId, Base>, t: ThreadId, b: Base)
    ensures Tcbs(threads[t := b]) == Tcbs(threads)[t := TcbOf(b)]
  {
    hide TcbOf;
  }

  class Kernel {
    const idle: ThreadId
    const meta: int
    const links: Links
    var threads: map<ThreadId, Base>
    var current: ThreadId
    var cache: ThreadId
    var preempted: Option<ThreadId>
    ghost var runq: seq<ThreadId>
    ghost var waitqs: map<QueueId, seq<ThreadId>>

    ghost function View(): Sched reads this {
      Sched(Tcbs(threads), runq, waitqs, idle, current, cache, preempted, meta)
    }

    ghost predicate Wired() reads this, links {
      && links.Valid() && Coupled(links.lists, runq, waitqs)
      && forall t :: t in threads ==> Plain(threads[t])
    }

    /** z_sched_init, and the idle thread. */
    constructor (idle: ThreadId, prio: S8, meta: int)
      ensures View() == Booted(idle, prio, meta) && Placement(View()) && Wired() && fresh(links)
    {
      this.idle, this.meta := idle, meta;
      links := new Links();
      threads := map[idle := Base(prio, 0, 0, false, None)];
      current, cache, preempted, runq, waitqs := idle, idle, None, [], map[];
      new;
      links.Init(0);
      assert Tcbs(threads) == Booted(idle, prio, meta).tcbs;
      BootedPlaces(idle, prio, meta);
    }

    /** z_waitq_init. */
    method InitQueue(w: QueueId)
      requires Wired() && w !in waitqs
      modifies this, links
      ensures Wired() && View() == old(View()).(waitqs := old(waitqs)[w := []])
    {
      links.Init(w + 1);
      WaitqUpdate(old(links.lists), runq, waitqs, w, []);
      waitqs := waitqs[w := []];
    }

    function Thread(t: ThreadId): Base reads this { if t in threads then threads[t] else NO_THREAD }

    lemma Fields()
      ensures View().current == current && View().idle == idle && View().waitqs == waitqs
    {
    }

    /** What the flags of a thread mean. */
    lemma ThreadIs(t: ThreadId)
      requires Wired()
      ensures T(View(), t) == TcbOf(Thread(t)) && Plain(Thread(t))
      ensures PreventedFromRunning(Thread(t)) <==> Prevented(T(View(), t))
      ensures IsReady(Thread(t)) <==> Ready(T(View(), t))
      ensures IsPreempt(Thread(t)) <==> Preemptible(T(View(), t))
      ensures Thread(t).prio == T(View(), t).prio && Thread(t).timeout == T(View(), t).timeout
      ensures Thread(t).pendedOn == T(View(), t).pendedOn
      ensures Flag(Thread(t).state, QUEUED) == T(View(), t).queued
      ensures Flag(Thread(t).state, PENDING) == T(View(), t).pending
      ensures Flag(Thread(t).state, PRESTART) == T(View(), t).prestart
    {
      NoThread();
      hide Plain;
      PreventedExact(Thread(t));
      BundleExact(Thread(t));
      hide Flag, PreventedFromRunning, IsPreempt;
    }

    method Store(t: ThreadId, b: Base)
      requires Wired() && Plain(b)
      modifies this`threads
      ensures Wired() && View() == Set(old(View()), t, TcbOf(b)) && threads == old(threads)[t := b]
    {
      TcbsUpdate(threads, t, b);
      hide TcbOf, Plain;
      threads := threads[t := b];
    }

    /** z_priq_dumb_add: along the list to the first thread of lower priority. */
    method ListAdd(l: nat, t: ThreadId)
      requires Wired() && l in links.lists && Free(links.lists, t)
      modifies links
      ensures links.Valid() && links.lists == old(links.lists)[l := Insert(View(), old(links.lists)[l], t)]
    {
      hide TcbOf, Plain, Flag, Prevented, Ready, Preemptible, IsReady, IsPreempt, PreventedFromRunning, Coupled, Free,
          T, Thread, Links.Valid;
      ghost var q, s := links.lists[l], View();
      assert q == [] + q;
      var n := links.Next(Head(l), l, [], q);
      ghost var i := 0;
      ThreadIs(t);
      assert q[..0] + Insert(s, q[0..], t) == Insert(s, q, t) by { assert q[0..] == q; }
      hide Insert;
      while n != Head(l)
        invariant 0 <= i <= |q| && n == First(q[i..], Head(l)) && links.Valid() && links.lists == old(links.lists)
        invariant Insert(s, q, t) == q[..i] + Insert(s, q[i..], t)
        decreases |q| - i
      {
        assert i < |q| && n == q[i];
        ThreadIs(n);
        if Thread(t).prio < Thread(n).prio {
          InsertHere(s, q[i..], t);
          assert q == q[..i] + q[i..];
          links.InsertBefore(n, t, l, q[..i], q[i..]);
          return;
        }
        InsertStep(s, q, i, t);
        assert q == q[..i + 1] + q[i + 1..] && Last(Head(l), q[..i + 1]) == n;
        n := links.Next(n, l, q[..i + 1], q[i + 1..]);
        i := i + 1;
      }
      assert q[i..] == [] by { FirstIsHead(q[i..], l); }
      InsertHere(s, q[i..], t);
      assert q == q[..i] + q[i..];
      links.InsertBefore(Head(l), t, l, q[..i], q[i..]);
    }

    /** _priq_run_add. */
    method RunqAdd(t: ThreadId)
      requires Wired() && Free(links.lists, t)
      modifies this`runq, links
      ensures Wired() && View() == old(View()).(runq := Insert(old(View()), old(runq), t))
    {
      hide Insert;
      ListAdd(0, t);
      RunqUpdate(old(links.lists), runq, waitqs, Insert(View(), runq, t));
      runq := Insert(View(), runq, t);
    }

    /** _priq_run_remove. */
    method RunqRemove(t: ThreadId)
      requires Wired() && t in runq
      modifies this`runq, links
      ensures Wired() && View() == old(View()).(runq := Remove(old(runq), t))
      ensures links.lists == old(links.lists)[0 := Remove(old(runq), t)]
    {
      hide Remove;
      links.RemoveNode(t, 0);
      RunqUpdate(old(links.lists), runq, waitqs, Remove(runq, t));
      runq := Remove(runq, t);
    }

    /** _priq_wait_best: the head of the list when nobody waits. */
    method FirstWaiting(w: QueueId) returns (n: int)
      requires Wired() && w in waitqs
      ensures n == First(waitqs[w], Head(w + 1))
    {
      hide Links.Valid, Plain;
      assert waitqs[w] == [] + waitqs[w];
      n := links.Next(Head(w + 1), w + 1, [], waitqs[w]);
    }

    /** next_up. */
    method ChooseNext() returns (thread: ThreadId)
      requires Wired()
      modifies this`preempted
      ensures (thread, preempted) == NextUp(old(View())) && Wired()
    {
      assert runq == [] + runq;
      var n := links.Next(Head(0), 0, [], runq);
      var best := n != Head(0);
      assert best <==> runq != [] by { FirstIsHead(runq, 0); }
      thread := idle;
      if best {
        thread := n;
      }
      ThreadIs(thread);
      if preempted.Some? && (!best || !(Thread(thread).prio < meta)) {
        ThreadIs(preempted.value);
        if !PreventedFromRunning(Thread(preempted.value)) {
          thread := preempted.value;
        } else {
          preempted := None;
        }
      }
    }

    /** update_metairq_preempt. */
    method UpdateMetairqPreempt(thread: ThreadId)
      requires Wired()
      modifies this`preempted
      ensures preempted == Recorded(old(View()), thread, old(preempted)) && Wired()
    {
      ThreadIs(thread);
      ThreadIs(current);
      if Thread(thread).prio < meta && !(Thread(current).prio < meta) && !IsPreempt(Thread(current)) {
        preempted := Some(current);
      } else if !(Thread(thread).prio < meta) {
        preempted := None;
      }
    }

    /** update_cache. */
    method Update(preemptOk: bool)
      requires Wired()
      modifies this`preempted, this`cache
      ensures Wired() && View() == UpdateCache(old(View()), preemptOk)
    {
      hide NextUp, Recorded, Thread, PreventedFromRunning, IsPreempt;
      var thread := ChooseNext();
      ThreadIs(current);
      ThreadIs(thread);
      SameThreads(old(View()), View());
      if preemptOk || PreventedFromRunning(Thread(current)) || IsPreempt(Thread(current))
      || Thread(thread).prio < meta {
        RecordedSame(old(View()), View(), thread, preempted);
        UpdateMetairqPreempt(thread);
        cache := thread;
      } else {
        cache := current;
      }
    }

    /** Putting a thread on the ready queue and marking it. */
    method Enqueue(t: ThreadId)
      requires Wired() && Free(links.lists, t)
      modifies this, links
      ensures Wired() && View() == RunAdd(old(View()), t)
    {
      hide Insert, TcbOf, Plain, Thread;
      RunqAdd(t);
      ThreadIs(t);
      MarkQueued(Thread(t));
      MarksPlain(Thread(t));
      Store(t, Thread(t).(state := Thread(t).state | QUEUED));
    }

    /** Taking a thread off the ready queue if it is marked. */
    method Dequeue(t: ThreadId)
      requires Wired() && InLists(View())
      modifies this, links
      ensures Wired() && View() == RemoveIfQueued(old(View()), t)
    {
      hide Remove, TcbOf, Plain, Flag, Thread;
      ThreadIs(t);
      if Flag(Thread(t).state, QUEUED) {
        WhereLinked(View(), links.lists, t);
        hide InLists;
        RunqRemove(t);
        ThreadIs(t);
        MarkQueued(Thread(t));
        MarksPlain(Thread(t));
        Store(t, Thread(t).(state := Thread(t).state & !QUEUED));
      }
    }

    /** ready_thread. */
    method MakeReady(t: ThreadId)
      requires Wired() && InLists(View()) && (Ready(T(View(), t)) ==> !T(View(), t).queued)
      modifies this, links
      ensures Wired() && View() == ReadyThread(old(View()), t)
    {
      hide UpdateCache, RunAdd, Thread, IsReady;
      ThreadIs(t);
      if IsReady(Thread(t)) {
        NotPended(View(), t);
        WhereLinked(View(), links.lists, t);
        hide InLists;
        Enqueue(t);
        Update(false);
      }
    }

    /** unready_thread. */
    method Unready(t: ThreadId)
      requires Wired() && InLists(View())
      modifies this, links
      ensures Wired() && View() == UnreadyThread(old(View()), t)
    {
      hide UpdateCache, InLists;
      Dequeue(t);
      Update(t == current);
    }

    /** Putting a thread into a wait queue: pended_on and z_priq_wait_add. */
    method WaitqAdd(t: ThreadId, w: QueueId)
      requires Wired() && w in waitqs && Free(links.lists, t)
      modifies this, links
      ensures Wired() && View() == WaitAdd(old(View()), t, w)
    {
      hide Insert, Plain, Thread, TcbOf;
      ThreadIs(t);
      ghost var s := View();
      var b := Thread(t);
      ListAdd(w + 1, t);
      WaitqUpdate(old(links.lists), runq, waitqs, w, Insert(s, waitqs[w], t));
      waitqs := waitqs[w := Insert(s, waitqs[w], t)];
      PendedOnOnly(b, Some(w));
      Store(t, b.(pendedOn := Some(w)));
    }

    /** pend. */
    method PendOn(t: ThreadId, wq: Option<QueueId>, timed: bool)
      requires Wired() && Good(View()) && T(View(), t).pendedOn.None? && (wq.Some? ==> wq.value in waitqs)
      modifies this, links
      ensures Wired() && View() == Pend(old(View()), t, wq, timed)
    {
      hide Insert, Plain, Thread, TcbOf, InLists, UnreadyThread, Sorted, WaitAdd;
      ghost var s := View();
      Unready(t);
      UnreadyGood(s, t);
      ThreadIs(t);
      MarkPending(Thread(t));
      MarksPlain(Thread(t));
      SetGood(View(), t, T(View(), t).(pending := true));
      Store(t, Thread(t).(state := Thread(t).state | PENDING));
      if wq.Some? {
        WhereLinked(View(), links.lists, t);
        WaitqAdd(t, wq.value);
      }
      if timed {
        ThreadIs(t);
        TimeoutOnly(Thread(t), true);
        Store(t, Thread(t).(timeout := true));
      }
    }

    /** z_unpend_thread_no_timeout. */
    method UnpendNoTimeout(t: ThreadId)
      requires Wired() && InLists(View()) && T(View(), t).pendedOn.Some?
      modifies this, links
      ensures Wired() && View() == WaitRemove(old(View()), t)
    {
      hide Remove, Plain, Thread, TcbOf;
      ThreadIs(t);
      WhereLinked(View(), links.lists, t);
      hide InLists;
      var b := Thread(t);
      ghost var w := b.pendedOn.value;
      links.RemoveNode(t, w + 1);
      WaitqUpdate(old(links.lists), runq, waitqs, w, Remove(waitqs[w], t));
      waitqs := waitqs[w := Remove(waitqs[w], t)];
      MarkPending(b);
      MarksPlain(b);
      PendedOnOnly(b.(state := b.state & !PENDING), None);
      Store(t, b.(state := b.state & !PENDING, pendedOn := None));
    }

    /** z_abort_thread_timeout, and marking. */
    method ClearTimeout(t: ThreadId)
      requires Wired()
      modifies this`threads
      ensures Wired() && View() == Set(old(View()), t, T(old(View()), t).(timeout := false))
    {
      hide Plain, Thread, TcbOf;
      ThreadIs(t);
      TimeoutOnly(Thread(t), false);
      Store(t, Thread(t).(timeout := false));
    }

    /** z_unpend_thread, then z_ready_thread. */
    method UnpendAndReady(t: ThreadId)
      requires Wired() && Placement(View()) && T(View(), t).pendedOn.Some?
      modifies this, links
      ensures Wired() && View() == Wake(old(View()), t)
    {
      ghost var s := View();
      WakeFacts(s, t);
      hide Placement, InLists, WaitRemove, ReadyThread;
      UnpendNoTimeout(t);
      ClearTimeout(t);
      MakeReady(t);
    }

    /** z_thread_timeout, the timeout having been taken off the timeout list. */
    method TimedOut(t: ThreadId)
      requires Wired() && Placement(View()) && T(View(), t).timeout
      modifies this, links
      ensures Wired() && View() == Expire(old(View()), t)
    {
      ghost var s := View();
      ExpireFacts(s, t);
      hide Placement, InLists, WaitRemove, ReadyThread, Thread, TcbOf, Plain;
      ClearTimeout(t);
      ThreadIs(t);
      if Thread(t).pendedOn.Some? {
        UnpendNoTimeout(t);
      }
      ThreadIs(t);
      var b := Thread(t);
      MarkPrestart(b);
      MarksPlain(b);
      var b1 := b.(state := b.state & !PRESTART);
      MarkSuspended(b1);
      MarksPlain(b1);
      Store(t, b1.(state := b1.state & !SUSPENDED));
      MakeReady(t);
    }

    /** z_thread_single_suspend. */
    method SuspendThread(t: ThreadId)
      requires Wired() && Placement(View())
      modifies this, links
      ensures Wired() && View() == Suspend(old(View()), t)
    {
      PendedPends(View(), t);
      SetGood(View(), t, T(View(), t).(timeout := false));
      hide Placement, InLists, RemoveIfQueued, UpdateCache, Thread, TcbOf, Plain;
      ClearTimeout(t);
      Dequeue(t);
      ThreadIs(t);
      MarkSuspended(Thread(t));
      MarksPlain(Thread(t));
      Store(t, Thread(t).(state := Thread(t).state | SUSPENDED));
      Update(t == current);
    }

    /** z_thread_single_resume of a thread that is not on the ready queue. */
    method ResumeThread(t: ThreadId)
      requires Wired() && Placement(View()) && !T(View(), t).queued
      modifies this, links
      ensures Wired() && View() == Resume(old(View()), t)
    {
      PendedPends(View(), t);
      SetGood(View(), t, T(View(), t).(suspended := false));
      hide Placement, InLists, ReadyThread, Thread, TcbOf, Plain;
      ThreadIs(t);
      MarkSuspended(Thread(t));
      MarksPlain(Thread(t));
      Store(t, Thread(t).(state := Thread(t).state & !SUSPENDED));
      MakeReady(t);
    }

    lemma WakeupTest(t: ThreadId)
      requires Wired()
      ensures var b := T(View(), t);
              Thread(t).state == SUSPENDED <==> b.suspended && !b.pending && !b.prestart && !b.dead && !b.queued
    {
      ThreadIs(t);
      OnlySuspended(Thread(t));
      hide Flag, Plain;
    }

    /** z_impl_k_wakeup. */
    method WakeupThread(t: ThreadId)
      requires Wired() && Placement(View())
      modifies this, links
      ensures Wired() && View() == Wakeup(old(View()), t)
    {
      hide Placement, InLists, ReadyThread, Thread, TcbOf, Plain, Flag, Wired, Prevented, PreventedFromRunning, IsReady;
      hide IsPreempt;
      ghost var s := View();
      WakeupFacts(s, t);
      ThreadIs(t);
      WakeupTest(t);
      if Flag(Thread(t).state, PENDING) {
        return;
      }
      if !Thread(t).timeout && Thread(t).state != SUSPENDED {
        return;
      }
      ClearTimeout(t);
      ThreadIs(t);
      MarkSuspended(Thread(t));
      MarksPlain(Thread(t));
      Store(t, Thread(t).(state := Thread(t).state & !SUSPENDED));
      SetTwice(s, t, T(s, t).(timeout := false), T(s, t).(timeout := false, suspended := false));
      MakeReady(t);
    }

    /** A ready thread taken off the ready queue and put back with its new priority. */
    method Requeue(t: ThreadId, prio: S8)
      requires Wired() && t in runq && Free(links.lists[0 := Remove(runq, t)], t)
      modifies this, links
      ensures Wired()
      ensures var s2 := Set(old(View()).(runq := Remove(old(runq), t)), t, T(old(View()), t).(prio := prio));
              View() == s2.(runq := Insert(s2, s2.runq, t))
    {
      hide Insert, Remove, Thread, TcbOf, Plain, Coupled;
      RunqRemove(t);
      ThreadIs(t);
      PrioOnly(Thread(t), prio);
      Store(t, Thread(t).(prio := prio));
      RunqAdd(t);
    }

    /** z_set_prio. */
    method SetPriority(t: ThreadId, prio: S8) returns (needSched: bool)
      requires Wired() && Placement(View()) && t != idle
      modifies this, links
      ensures Wired() && View() == SetPrio(old(View()), t, prio) && needSched == Ready(T(old(View()), t))
    {
      hide Placement, Insert, Remove, UpdateCache, Thread, TcbOf, Plain, IsReady;
      ThreadIs(t);
      needSched := IsReady(Thread(t));
      if needSched {
        RequeueFree(View(), links.lists, t);
        Requeue(t, prio);
        Update(true);
      } else {
        PrioOnly(Thread(t), prio);
        Store(t, Thread(t).(prio := prio));
      }
    }

    /** z_impl_k_yield, up to the switch. */
    method YieldCurrent()
      requires Wired() && Placement(View()) && Ready(T(View(), current))
      modifies this, links
      ensures Wired() && View() == Yield(old(View()))
    {
      if current != idle {
        WhereLinked(View(), links.lists, current);
        RequeueFree(View(), links.lists, current);
        hide Placement, InLists, RunAdd, Remove, UpdateCache, Coupled;
        RunqRemove(current);
        Enqueue(current);
        Update(true);
      }
    }

    /** z_move_thread_to_end_of_prio_q for the current thread. */
    method MoveToEnd()
      requires Wired() && Placement(View()) && Ready(T(View(), current))
      modifies this, links
      ensures Wired() && View() == Rotate(old(View()))
    {
      ghost var s := View();
      RotateFacts(s);
      hide Placement, InLists, RunAdd, RemoveIfQueued, UpdateCache;
      Dequeue(current);
      WhereLinked(View(), links.lists, current);
      Enqueue(current);
      Update(true);
    }

    /** The thread leaves the queue it is in, whichever that is. */
    method LeaveQueue(t: ThreadId)
      requires Wired() && InLists(View()) && (T(View(), t).pending ==> T(View(), t).pendedOn.Some?)
      modifies this, links
      ensures Wired()
      ensures var s := old(View());
              View() == if Ready(T(s, t)) then UpdateCache(RemoveIfQueued(s, t), t == s.current)
                        else if T(s, t).pending && T(s, t).pendedOn.Some? then WaitRemove(s, t)
                        else s
    {
      hide InLists, RemoveIfQueued, WaitRemove, UpdateCache, Thread, TcbOf, Plain, IsReady, Flag;
      ThreadIs(t);
      if IsReady(Thread(t)) {
        RemoveIdle(View(), t);
        Dequeue(t);
        Update(t == current);
      } else if Flag(Thread(t).state, PENDING) {
        UnpendNoTimeout(t);
      }
    }

    /** z_thread_single_abort. */
    method AbortThread(t: ThreadId)
      requires Wired() && Placement(View()) && (T(View(), t).pending ==> T(View(), t).pendedOn.Some?)
      modifies this, links
      ensures Wired() && View() == Abort(old(View()), t)
    {
      hide Placement, InLists, RemoveIfQueued, WaitRemove, UpdateCache, Thread, TcbOf, Plain, Prevented;
      ghost var s := View();
      ClearedGood(s, t);
      SetTwice(s, t, T(s, t).(timeout := false), NOBODY);
      ClearTimeout(t);
      LeaveQueue(t);
      ThreadIs(t);
      MarkDead(Thread(t));
      MarksPlain(Thread(t));
      Store(t, Thread(t).(state := Thread(t).state | DEAD));
    }

    /** z_tick_sleep, up to the switch. */
    method SleepCurrent()
      requires Wired() && Placement(View())
      modifies this, links
      ensures Wired() && View() == Sleep(old(View()))
    {
      hide Placement, InLists, UnreadyThread, Thread, TcbOf, Plain;
      var t := current;
      ClearedGood(View(), t);
      Unready(t);
      ThreadIs(t);
      TimeoutOnly(Thread(t), true);
      var b := Thread(t).(timeout := true);
      MarkSuspended(b);
      MarksPlain(b);
      Store(t, b.(state := b.state | SUSPENDED));
    }
  }

  // ---------------------------------------------------------------- whole runs

  /** What the kernel's fields can hold, and which wait queues have been initialised. */
  predicate Holds(s: Sched, e: Event) {
    match e
    case ECreate(_, prio, _) => -128 <= prio < 128
    case ESetPrio(_, prio) => -128 <= prio < 128
    case EPendCurrent(wq, _) => wq.Some? ==> wq.value in s.waitqs
    case EWakeFirst(w) => w in s.waitqs
    case ELock => T(s, s.current).locked < 255
    case _ => true
  }

  ghost predicate HoldsRun(s: Sched, es: seq<Event>)
    requires EnabledRun(s, es)
    decreases |es|
  {
    es == [] || (Holds(s, es[0]) && HoldsRun(Step(s, es[0]), es[1..]))
  }

  /** The first thread that waits in a queue is woken, if there is one. */
  method WakeFirst(k: Kernel, w: QueueId)
    requires k.Wired() && Placement(k.View()) && w in k.waitqs
    modifies k, k.links
    ensures k.Wired() && k.View() == Step(old(k.View()), EWakeFirst(w))
  {
    hide Placement, Wake, Kernel.Wired;
    var n := k.FirstWaiting(w);
    FirstIsHead(k.waitqs[w], w + 1);
    if n != Head(w + 1) {
      HeadPends(k.View(), w);
      k.UnpendAndReady(n);
    }
  }

  lemma HeadPends(s: Sched, w: QueueId)
    requires Placement(s) && WaitQ(s, w) != []
    ensures T(s, WaitQ(s, w)[0]).pendedOn == Some(w)
  {
    CountAt(WaitQ(s, w), 0);
    hide Sorted;
  }

  method Create(k: Kernel, t: ThreadId, prio: S8, delayed: bool)
    requires k.Wired() && Enabled(k.View(), ECreate(t, prio, delayed))
    modifies k
    ensures k.Wired() && k.View() == Step(old(k.View()), ECreate(t, prio, delayed))
  {
    var b := Base(prio, 0, PRESTART, delayed, None);
    assert TcbOf(b) == Tcb(prio, 0, true, false, false, false, false, delayed, None) && Plain(b);
    k.Store(t, b);
  }

  /** z_sched_start. */
  method Start(k: Kernel, t: ThreadId)
    requires k.Wired() && Placement(k.View())
    modifies k, k.links
    ensures k.Wired() && k.View() == Step(old(k.View()), EStart(t))
  {
    hide Placement, InLists, ReadyThread, TcbOf, Plain, Flag, Kernel.Thread;
    StartFacts(k.View(), t);
    k.ThreadIs(t);
    if !Flag(k.Thread(t).state, PRESTART) {
      return;
    }
    MarkPrestart(k.Thread(t));
    MarksPlain(k.Thread(t));
    k.Store(t, k.Thread(t).(state := k.Thread(t).state & !PRESTART));
    k.MakeReady(t);
  }

  lemma StartFacts(s: Sched, t: ThreadId)
    requires Placement(s)
    ensures T(s, t).prestart ==>
              var s1 := Set(s, t, T(s, t).(prestart := false)); InLists(s1) && !T(s1, t).queued
  {
    PendedPends(s, t);
    hide InLists, Sorted;
    SetGood(s, t, T(s, t).(prestart := false));
  }

  /** z_sched_lock and k_sched_unlock; update_cache follows an unlock. */
  method Lock(k: Kernel)
    requires k.Wired() && T(k.View(), k.current).locked < 255
    modifies k
    ensures k.Wired() && k.View() == Step(old(k.View()), ELock)
  {
    hide TcbOf, Plain, Flag, Kernel.Wired, Kernel.Thread, Prevented, Ready;
    var t := k.current;
    k.ThreadIs(t);
    var b := k.Thread(t);
    LockByte(b);
    k.Store(t, b.(schedLocked := if b.schedLocked == 0 then 255 else b.schedLocked - 1));
  }

  method Unlock(k: Kernel)
    requires k.Wired() && T(k.View(), k.current).locked > 0
    modifies k
    ensures k.Wired() && k.View() == Step(old(k.View()), EUnlock)
  {
    hide TcbOf, Plain, Flag, Kernel.Wired, Kernel.Thread, Prevented, Ready, UpdateCache;
    var t := k.current;
    k.ThreadIs(t);
    var b := k.Thread(t);
    UnlockByte(b);
    k.Store(t, b.(schedLocked := if b.schedLocked == 255 then 0 else b.schedLocked + 1));
    k.Update(false);
  }

  lemma LockByte(b: Base)
    requires TcbOf(b).locked < 255
    ensures var b' := b.(schedLocked := if b.schedLocked == 0 then 255 else b.schedLocked - 1);
            TcbOf(b') == TcbOf(b).(locked := TcbOf(b).locked + 1) && (Plain(b) ==> Plain(b'))
  {
    hide Flag;
  }

  lemma UnlockByte(b: Base)
    requires TcbOf(b).locked > 0
    ensures var b' := b.(schedLocked := if b.schedLocked == 255 then 0 else b.schedLocked + 1);
            TcbOf(b') == TcbOf(b).(locked := TcbOf(b).locked - 1) && (Plain(b) ==> Plain(b'))
  {
    hide Flag;
  }

  /** One call, whichever it is: the code takes exactly the step, and every thread
      stays where its state says, which is what its one link node depends on. */
  method Execute(k: Kernel, e: Event)
    requires k.Wired() && Placement(k.View()) && Enabled(k.View(), e) && Holds(k.View(), e)
    modifies k, k.links
    ensures k.Wired() && k.View() == Step(old(k.View()), e) && Placement(k.View())
  {
    StepPlaces(k.View(), e);
    PlacedGood(k.View());
    hide Placement, Pend, Wake, Expire, Suspend, Resume, Wakeup, SetPrio, Yield, Rotate, Abort, Sleep, ReadyThread;
    hide UpdateCache, Set, Good, Kernel.Wired;
    match e {
      case ECreate(t, prio, delayed) => Create(k, t, prio, delayed);
      case EStart(t) => Start(k, t);
      case EPendCurrent(wq, timed) => RunningNotPended(k.View()); k.PendOn(k.current, wq, timed);
      case EWakeFirst(w) => WakeFirst(k, w);
      case EWake(t) => k.UnpendAndReady(t);
      case EExpire(t) => k.TimedOut(t);
      case ESuspend(t) => k.SuspendThread(t);
      case EResume(t) => k.ResumeThread(t);
      case EWakeup(t) => k.WakeupThread(t);
      case ESetPrio(t, prio) => var _ := k.SetPriority(t, prio);
      case EYield => k.YieldCurrent();
      case ERotate => k.MoveToEnd();
      case EAbort(t) => k.AbortThread(t);
      case ESleep => k.SleepCurrent();
      case ELock => Lock(k);
      case EUnlock => Unlock(k);
      case ESwap => Swap(k);
    }
  }

  method Swap(k: Kernel)
    requires k.Wired()
    modifies k
    ensures k.Wired() && k.View() == Step(old(k.View()), ESwap)
  {
    k.current := k.cache;
  }

  lemma PlacedGood(s: Sched)
    requires Placement(s)
    ensures Good(s)
  {
  }

  lemma RunningNotPended(s: Sched)
    requires Placement(s) && Ready(T(s, s.current))
    ensures T(s, s.current).pendedOn.None?
  {
    NotPended(s, s.current);
  }

  /** Through every run the kernel's links and flags are those of the state machine. */
  method RunAll(k: Kernel, es: seq<Event>)
    requires k.Wired() && Placement(k.View()) && EnabledRun(k.View(), es) && HoldsRun(k.View(), es)
    modifies k, k.links
    ensures k.Wired() && k.View() == Run(old(k.View()), es) && Placement(k.View())
  {
    hide Placement, Step, Enabled, Holds, Kernel.Wired;
    assert es[0..] == es;
    for i := 0 to |es|
      invariant k.Wired() && Placement(k.View()) && EnabledRun(k.View(), es[i..]) && HoldsRun(k.View(), es[i..])
      invariant Run(k.View(), es[i..]) == Run(old(k.View()), es)
    {
      assert es[i..][0] == es[i] && es[i..][1..] == es[i + 1..];
      Execute(k, es[i]);
    }
    assert es[|es|..] == [];
  }

  // ---------------------------------------------------------------- what the code relies on

  lemma InsertHere(s: Sched, q: seq<ThreadId>, t: ThreadId)
    requires q == [] || T(s, t).prio < T(s, q[0]).prio
    ensures Insert(s, q, t) == [t] + q
  {
  }

  lemma InsertStep(s: Sched, q: seq<ThreadId>, i: nat, t: ThreadId)
    requires i < |q| && T(s, q[i]).prio <= T(s, t).prio
    ensures q[..i] + Insert(s, q[i..], t) == q[..i + 1] + Insert(s, q[i + 1..], t)
  {
    assert q[i..][1..] == q[i + 1..];
    assert q[..i + 1] == q[..i] + [q[i]];
    var rest := Insert(s, q[i + 1..], t);
    assert q[..i] + ([q[i]] + rest) == (q[..i] + [q[i]]) + rest;
  }

  lemma FirstIsHead(q: seq<nat>, l: nat)
    ensures First(q, Head(l)) == Head(l) <==> q == []
  {
  }

  lemma SameThreads(s: Sched, s': Sched)
    requires s' == s.(preempted := s'.preempted, runq := s'.runq, waitqs := s'.waitqs, cache := s'.cache)
    ensures forall t :: T(s', t) == T(s, t)
  {
  }

  lemma RecordedSame(s: Sched, s': Sched, thread: ThreadId, preempted: Option<ThreadId>)
    requires s' == s.(preempted := s'.preempted)
    ensures Recorded(s', thread, preempted) == Recorded(s, thread, preempted)
  {
  }

  lemma PendedOnOnly(b: Base, w: Option<QueueId>)
    ensures TcbOf(b.(pendedOn := w)) == TcbOf(b).(pendedOn := w) && (Plain(b) ==> Plain(b.(pendedOn := w)))
  {
    hide Flag;
  }

  lemma TimeoutOnly(b: Base, active: bool)
    ensures TcbOf(b.(timeout := active)) == TcbOf(b).(timeout := active) && (Plain(b) ==> Plain(b.(timeout := active)))
  {
    hide Flag;
  }

  lemma PrioOnly(b: Base, prio: S8)
    ensures TcbOf(b.(prio := prio)) == TcbOf(b).(prio := prio) && (Plain(b) ==> Plain(b.(prio := prio)))
  {
    hide Flag;
  }

  lemma UnreadyGood(s: Sched, t: ThreadId)
    requires Good(s)
    ensures Good(UnreadyThread(s, t)) && T(UnreadyThread(s, t), t) == T(s, t).(queued := false)
    ensures UnreadyThread(s, t).waitqs == s.waitqs
  {
    hide Good, UpdateCache, Remove;
    RemoveGood(s, t);
    UpdateFrame(RemoveIfQueued(s, t), t == s.current);
  }

  lemma SetTwice(s: Sched, t: ThreadId, a: Tcb, b: Tcb)
    ensures Set(Set(s, t, a), t, b) == Set(s, t, b) && T(Set(s, t, a), t) == a
  {
  }

  lemma ClearedGood(s: Sched, t: ThreadId)
    requires Placement(s)
    ensures InLists(s) && InLists(Set(s, t, T(s, t).(timeout := false)))
  {
    PendedPends(s, t);
    SetGood(s, t, T(s, t).(timeout := false));
    hide Sorted;
  }

  lemma WakeFacts(s: Sched, t: ThreadId)
    requires Placement(s) && T(s, t).pendedOn.Some?
    ensures InLists(s)
    ensures var s1 := WaitRemove(s, t);
            var s2 := Set(s1, t, T(s1, t).(timeout := false));
            InLists(s2) && !T(s2, t).queued
  {
    PendedPends(s, t);
    hide InLists, Sorted, Remove;
    WaitRemoveGood(s, t);
    var s1 := WaitRemove(s, t);
    SetGood(s1, t, T(s1, t).(timeout := false));
  }

  lemma ExpireFacts(s: Sched, t: ThreadId)
    requires Placement(s) && T(s, t).timeout
    ensures var s0 := Set(s, t, T(s, t).(timeout := false));
            var s1 := if T(s0, t).pendedOn.Some? then WaitRemove(s0, t) else s0;
            var s2 := Set(s1, t, T(s1, t).(prestart := false, suspended := false));
            InLists(s0) && InLists(s2) && !T(s2, t).queued
  {
    PendedPends(s, t);
    hide InLists, Sorted, Remove;
    var s0 := Set(s, t, T(s, t).(timeout := false));
    SetGood(s, t, T(s, t).(timeout := false));
    var s1 := s0;
    if T(s0, t).pendedOn.Some? {
      WaitRemoveGood(s0, t);
      s1 := WaitRemove(s0, t);
    }
    SetGood(s1, t, T(s1, t).(prestart := false, suspended := false));
  }

  lemma WakeupFacts(s: Sched, t: ThreadId)
    requires Placement(s)
    ensures var b := T(s, t);
            var s1 := Set(s, t, b.(timeout := false, suspended := false));
            !b.pending && (b.timeout || b.suspended) ==> InLists(s1) && !T(s1, t).queued
  {
    PendedPends(s, t);
    hide InLists, Sorted;
    if !T(s, t).pending {
      SetGood(s, t, T(s, t).(timeout := false, suspended := false));
    }
  }

  lemma RequeueFree(s: Sched, lists: map<nat, seq<nat>>, t: ThreadId)
    requires Placement(s) && Coupled(lists, s.runq, s.waitqs) && Ready(T(s, t)) && t != s.idle
    ensures t in s.runq && Free(lists[0 := Remove(s.runq, t)], t)
  {
    assert Count(s.runq, t) == 1;
    Member(s.runq, t);
    RemoveCount(s.runq, t, t);
    Member(Remove(s.runq, t), t);
    NotPended(s, t);
    forall l | l in lists && l > 0
      ensures t !in lists[l]
    {
      assert WaitQ(s, l - 1) == lists[l];
      Member(WaitQ(s, l - 1), t);
    }
    hide Sorted, Count, Remove;
    FreeUpdated(lists, 0, Remove(s.runq, t), t);
  }

  lemma RotateFacts(s: Sched)
    requires Placement(s) && Ready(T(s, s.current))
    ensures var s1 := RemoveIfQueued(s, s.current);
            InLists(s) && InLists(s1) && !T(s1, s.current).queued && T(s1, s.current).pendedOn.None?
  {
    NotPended(s, s.current);
    hide InLists, Sorted, Remove;
    RemoveGood(s, s.current);
  }
}
