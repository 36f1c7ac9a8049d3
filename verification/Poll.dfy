/**
 One call of k_poll against everything that can happen around it
 (kernel/poll.c): the events are checked and registered one at a time, each
 under the lock, then the caller decides whether to sleep, and afterwards its
 registrations are cleared one at a time.  Between any two of these steps
 objects may be signalled or drained, and while it sleeps it may time out.
 */
module Poll {
  import opened Lists
  import opened Wrappers

  datatype Pc =
    | Checking(next: nat)          // the loop of register_events
    | Deciding
    | Sleeping
    | Clearing(left: nat, rc: int) // the loop of clear_event_registrations
    | Done(rc: int)

  const EAGAIN := 11

  datatype Polling = Polling(
    objects: seq<Option<nat>>,   // what each event waits for; None is K_POLL_TYPE_IGNORE
    justCheck: bool,             // K_NO_WAIT
    pc: Pc,
    isPolling: bool,
    registered: nat,
    met: set<nat>,               // the objects whose condition holds
    lists: map<nat, seq<nat>>,   // the poll_events list of each object: indices of events
    poller: set<nat>,            // the events that point to the poller
    ready: set<nat>,             // the events whose state has been set
    entered: set<nat>,           // history: the events that were registered
    metAtCheck: set<nat>,        // history: the events found ready when checked
    raised: set<nat>)            // history: the events whose object was signalled after they were checked

  function Begin(objects: seq<Option<nat>>, met: set<nat>, justCheck: bool): Polling {
    Polling(objects, justCheck, Checking(0), true, 0, met, map[], {}, {}, {}, {}, {})
  }

  function ListOf(p: Polling, o: nat): seq<nat> { if o in p.lists then p.lists[o] else [] }

  predicate Met(p: Polling, i: nat) {
    i < |p.objects| && p.objects[i].Some? && p.objects[i].value in p.met
  }

  /** One iteration of register_events. */
  function Check(p: Polling, i: nat): Polling
    requires i < |p.objects|
  {
    var q := p.(pc := if i + 1 < |p.objects| then Checking(i + 1) else Deciding);
    if Met(p, i) then
      q.(poller := p.poller - {i}, ready := p.ready + {i}, metAtCheck := p.metAtCheck + {i}, isPolling := false)
    else if !p.justCheck && p.isPolling then
      var q1 := q.(poller := p.poller + {i}, entered := p.entered + {i}, registered := p.registered + 1);
      if p.objects[i].None? then q1
      else q1.(lists := p.lists[p.objects[i].value := ListOf(p, p.objects[i].value) + [i]])
    else q
  }

  /** z_impl_k_poll between the two loops. */
  function Decide(p: Polling): Polling {
    if !p.isPolling then p.(pc := Clearing(p.registered, 0))
    else
      var q := p.(isPolling := false);
      if p.justCheck then q.(pc := Done(-EAGAIN)) else q.(pc := Sleeping)
  }

  /** One iteration of clear_event_registrations. */
  function Clear(p: Polling, left: nat, rc: int): Polling
    requires 0 < left <= |p.objects|
  {
    var i := left - 1;
    var q := p.(poller := p.poller - {i}, pc := Clearing(i, rc));
    if p.objects[i].None? then q
    else q.(lists := p.lists[p.objects[i].value := Remove(ListOf(p, p.objects[i].value), i)])
  }

  /** The events that have been checked so far. */
  function Checked(p: Polling): nat {
    if p.pc.Checking? then p.pc.next else |p.objects|
  }

  /** The checked events that wait for an object. */
  function Hit(p: Polling, o: nat): set<nat> {
    set i | 0 <= i < Checked(p) && i < |p.objects| && p.objects[i] == Some(o)
  }

  /** An object is signalled: k_poll_signal_raise, or the object code through
      z_handle_obj_poll_events.  signal_poll_event wakes the caller if it sleeps. */
  function Raise(p: Polling, o: nat): Polling {
    var q := p.(met := p.met + {o}, raised := p.raised + Hit(p, o));
    if ListOf(p, o) == [] then q
    else
      var i := ListOf(p, o)[0];
      var q1 := q.(lists := p.lists[o := ListOf(p, o)[1..]], ready := p.ready + {i}, poller := p.poller - {i});
      if i !in p.poller then q1
      else q1.(isPolling := false, pc := if p.pc.Sleeping? then Clearing(p.registered, 0) else p.pc)
  }

  datatype Event =
    | EPoller          // the caller takes its next step
    | ERaise(o: nat)
    | EDrain(o: nat)   // the condition stops holding: a reset, or someone else takes what there is
    | ETimeout

  function PollerStep(p: Polling): Polling {
    match p.pc
    case Checking(i) => if i < |p.objects| then Check(p, i) else p.(pc := Deciding)
    case Deciding => Decide(p)
    case Sleeping => p
    case Clearing(left, rc) => if 0 < left <= |p.objects| then Clear(p, left, rc) else p.(pc := Done(rc))
    case Done(_) => p
  }

  function Step(p: Polling, e: Event): Polling {
    match e
    case EPoller => PollerStep(p)
    case ERaise(o) => Raise(p, o)
    case EDrain(o) => p.(met := p.met - {o})
    case ETimeout => if p.pc.Sleeping? then p.(pc := Clearing(p.registered, -EAGAIN)) else p
  }

  function Run(p: Polling, es: seq<Event>): Polling
    decreases |es|
  {
    if es == [] then p else Run(Step(p, es[0]), es[1..])
  }

  // ---------------------------------------------------------------- what every run keeps

  /** How many of the events are registered and not yet cleared. */
  function Window(p: Polling): nat {
    match p.pc
    case Clearing(left, _) => left
    case Done(_) => 0
    case _ => p.registered
  }

  /** How often event i should be in the list of object o. */
  function Share(p: Polling, o: nat, i: nat): nat {
    if i in p.poller && i < |p.objects| && p.objects[i] == Some(o) then 1 else 0
  }

  /** An event is in the list of its object, once, exactly while it points to the
      poller, and only the events of a prefix of the array ever do. */
  ghost predicate Linked(p: Polling) {
    && Window(p) <= p.registered <= |p.objects|
    && (forall i :: i in p.poller ==> i < Window(p))
    && (forall i: nat :: i in p.entered <==> i < p.registered)
    && (forall o: nat, i: nat :: Count(ListOf(p, o), i) == Share(p, o, i))
  }

  /** While the caller still polls, every event it has checked is registered,
      and none of them has been signalled since, and none was ready. */
  ghost predicate Watching(p: Polling) {
    && p.metAtCheck == {} && p.raised == {} && p.registered == Checked(p)
    && forall i :: 0 <= i < p.registered ==> i in p.poller
  }

  ghost predicate Inv(p: Polling) {
    && Linked(p)
    && (p.pc.Checking? ==> p.pc.next < |p.objects| || p.pc.next == 0 == |p.objects|)
    && (p.pc.Checking? || p.pc.Deciding? ==>
          if p.isPolling then (if p.justCheck then p.registered == 0 && p.metAtCheck == {} else Watching(p))
          else p.ready != {})
    && (p.pc.Sleeping? ==> Watching(p) && !p.justCheck)
    && ((p.pc.Clearing? || p.pc.Done?) && p.pc.rc == 0 ==> p.ready != {})
    && ((p.pc.Clearing? || p.pc.Done?) && p.pc.rc != 0 ==> p.pc.rc == -EAGAIN && p.metAtCheck == {})
    && p.registered <= Checked(p) && p.ready <= p.metAtCheck + p.raised
    && (forall i :: i in p.raised ==> i < Checked(p))
  }

  lemma BeginInv(objects: seq<Option<nat>>, met: set<nat>, justCheck: bool)
    ensures Inv(Begin(objects, met, justCheck))
  {
  }

  lemma CheckLinked(p: Polling, i: nat)
    requires Inv(p) && p.pc == Checking(i) && i < |p.objects|
    ensures Linked(Check(p, i))
  {
    var q := Check(p, i);
    assert i !in p.poller && Window(q) == q.registered;
    if !Met(p, i) && !p.justCheck && p.isPolling {
      assert p.registered == i && q.registered == i + 1;
    } else {
      assert q.poller == p.poller && q.registered == p.registered;
    }
    assert (forall j :: j in q.poller ==> j < Window(q)) && (forall j: nat :: j in q.entered <==> j < q.registered);
    forall o: nat, j: nat
      ensures Count(ListOf(q, o), j) == Share(q, o, j)
    {
      assert Count(ListOf(p, o), j) == Share(p, o, j);
      AppendCount(ListOf(p, o), i, j);
      hide Count;
    }
    hide Count;
  }

  lemma CheckInv(p: Polling, i: nat)
    requires Inv(p) && p.pc == Checking(i) && i < |p.objects|
    ensures Inv(Check(p, i))
  {
    CheckLinked(p, i);
    hide Linked, Count;
    var q := Check(p, i);
    assert Checked(q) == i + 1;
    assert p.registered <= |p.objects|;
  }

  lemma DecideLinked(p: Polling)
    requires Inv(p) && p.pc == Deciding
    ensures Linked(Decide(p))
  {
    hide Count, Watching;
    var q := Decide(p);
    forall o: nat, i: nat
      ensures Count(ListOf(q, o), i) == Share(q, o, i)
    {
      assert ListOf(q, o) == ListOf(p, o);
    }
  }

  lemma DecideInv(p: Polling)
    requires Inv(p) && p.pc == Deciding
    ensures Inv(Decide(p))
  {
    DecideLinked(p);
    hide Linked;
  }

  lemma ClearLinked(p: Polling, left: nat, rc: int)
    requires Linked(p) && p.pc == Clearing(left, rc) && 0 < left <= |p.objects|
    ensures Linked(Clear(p, left, rc))
  {
    var i := left - 1;
    var q := Clear(p, left, rc);
    forall o: nat, j: nat
      ensures Count(ListOf(q, o), j) == Share(q, o, j)
    {
      assert Count(ListOf(p, o), j) == Share(p, o, j);
      RemoveCount(ListOf(p, o), i, j);
      hide Count, Remove;
    }
  }

  lemma ClearInv(p: Polling, left: nat, rc: int)
    requires Inv(p) && p.pc == Clearing(left, rc) && 0 < left <= |p.objects|
    ensures Inv(Clear(p, left, rc))
  {
    ClearLinked(p, left, rc);
    assert p.registered <= |p.objects|;
    hide Linked, Remove;
  }

  lemma HeadLinked(p: Polling, o: nat)
    requires Linked(p) && ListOf(p, o) != []
    ensures var i := ListOf(p, o)[0]; i in p.poller && i < |p.objects| && p.objects[i] == Some(o)
  {
    CountAt(ListOf(p, o), 0);
  }

  lemma RaiseLinked(p: Polling, o: nat)
    requires Linked(p)
    ensures Linked(Raise(p, o))
  {
    var q := Raise(p, o);
    if ListOf(p, o) != [] {
      HeadLinked(p, o);
    }
    forall v: nat, j: nat
      ensures Count(ListOf(q, v), j) == Share(q, v, j)
    {
      assert Count(ListOf(p, v), j) == Share(p, v, j);
      if v == o && ListOf(p, o) != [] {
        assert Count(ListOf(q, v), j) == Count(ListOf(p, v), j) - One(j == ListOf(p, o)[0]);
      } else {
        assert ListOf(q, v) == ListOf(p, v);
      }
    }
    hide Count, ListOf;
    assert Window(q) == Window(p) && (forall j :: j in q.poller ==> j in p.poller);
  }

  lemma RaiseInv(p: Polling, o: nat)
    requires Inv(p)
    ensures Inv(Raise(p, o))
  {
    RaiseLinked(p, o);
    if ListOf(p, o) != [] {
      HeadLinked(p, o);
    }
    if Watching(p) && ListOf(p, o) == [] {
      Unlinked(p, o);
    }
    var q := Raise(p, o);
    assert p.registered <= |p.objects| && Window(p) <= p.registered && (forall i :: i in p.poller ==> i < Window(p));
    hide Linked, Count;
    if ListOf(p, o) == [] {
      if (p.pc.Checking? || p.pc.Deciding? || p.pc.Sleeping?) && !p.justCheck && Watching(p) {
        assert q.raised == {};
      }
    }
  }

  /** If nothing is listed for an object, no checked event waits for it while all of them are registered. */
  lemma Unlinked(p: Polling, o: nat)
    requires Linked(p) && Watching(p) && ListOf(p, o) == []
    ensures forall i :: 0 <= i < Checked(p) && i < |p.objects| ==> p.objects[i] != Some(o)
  {
    forall i | 0 <= i < Checked(p) && i < |p.objects|
      ensures p.objects[i] != Some(o)
    {
      assert Count(ListOf(p, o), i) == 0;
    }
  }

  /** Moving on without touching a registration. */
  lemma SameInv(p: Polling, q: Polling)
    requires Inv(p) && q == p.(pc := q.pc, met := q.met)
    requires q.pc == p.pc
          || (p.pc.Checking? && p.pc.next == |p.objects| && q.pc.Deciding?)
          || (p.pc.Clearing? && p.pc.left == 0 && q.pc == Done(p.pc.rc))
          || (p.pc.Sleeping? && q.pc == Clearing(p.registered, -EAGAIN))
    ensures Inv(q)
  {
    forall o: nat, i: nat
      ensures Count(ListOf(q, o), i) == Share(q, o, i)
    {
      assert ListOf(q, o) == ListOf(p, o);
    }
    assert Linked(q);
    hide Linked, Count;
  }

  lemma PollerInv(p: Polling)
    requires Inv(p)
    ensures Inv(PollerStep(p))
  {
    assert p.registered <= |p.objects| && Window(p) <= p.registered;
    hide Check, Decide, Clear, Linked;
    match p.pc {
      case Checking(i) =>
        if i < |p.objects| {
          CheckInv(p, i);
        } else {
          SameInv(p, PollerStep(p));
        }
      case Deciding => DecideInv(p);
      case Clearing(left, rc) =>
        if 0 < left <= |p.objects| {
          ClearInv(p, left, rc);
        } else {
          SameInv(p, PollerStep(p));
        }
      case _ =>
    }
  }

  lemma StepInv(p: Polling, e: Event)
    requires Inv(p)
    ensures Inv(Step(p, e))
  {
    hide Inv, PollerStep, Raise;
    match e
    case EPoller => PollerInv(p);
    case ERaise(o) => RaiseInv(p, o);
    case EDrain(o) => SameInv(p, Step(p, e));
    case ETimeout => SameInv(p, Step(p, e));
  }

  lemma {:induction false} EveryRun(p: Polling, es: seq<Event>)
    requires Inv(p)
    ensures Inv(Run(p, es))
    decreases |es|
  {
    if es != [] {
      StepInv(p, es[0]);
      hide Inv, Step;
      EveryRun(Step(p, es[0]), es[1..]);
    }
  }

  // ---------------------------------------------------------------- the promises of k_poll

  /** No wake-up is lost: a caller that sleeps has every event registered, found
      none of them ready, and none has been signalled since it was checked. */
  lemma NoLostWakeup(objects: seq<Option<nat>>, met: set<nat>, justCheck: bool, es: seq<Event>)
    ensures var p := Run(Begin(objects, met, justCheck), es);
            p.pc.Sleeping? ==>
              p.metAtCheck == {} && p.raised == {} && forall i :: 0 <= i < |p.objects| ==> i in p.poller
  {
    BeginInv(objects, met, justCheck);
    EveryRun(Begin(objects, met, justCheck), es);
    hide Linked, Run;
  }

  /** Signalling the object of any event wakes a sleeping caller, which will return 0. */
  lemma SleeperIsWoken(p: Polling, i: nat)
    requires Inv(p) && p.pc.Sleeping? && i < |p.objects| && p.objects[i].Some?
    ensures var q := Raise(p, p.objects[i].value); q.pc == Clearing(p.registered, 0) && q.ready != {}
  {
    var o := p.objects[i].value;
    assert Count(ListOf(p, o), i) == 1;
    HeadLinked(p, o);
  }

  /** A signal that comes after its event was checked but before the caller
      decides keeps it from sleeping. */
  lemma SignalledDoesNotSleep(p: Polling)
    requires Inv(p) && p.pc.Deciding? && (p.raised != {} || p.metAtCheck != {}) && !p.justCheck
    ensures Decide(p).pc == Clearing(p.registered, 0) && p.ready != {}
  {
  }

  /** On return nothing is left behind: no event is in any list or points to the
      poller on the caller's stack; and 0 is returned only with some event set
      ready, which it is only for a condition that held when checked or was signalled later. */
  lemma NothingLeftBehind(objects: seq<Option<nat>>, met: set<nat>, justCheck: bool, es: seq<Event>, o: nat)
    ensures var p := Run(Begin(objects, met, justCheck), es);
            && (p.pc.Done? ==> p.poller == {} && ListOf(p, o) == [])
            && (p.pc == Done(0) ==> p.ready != {})
            && p.ready <= p.metAtCheck + p.raised
            && forall i: nat :: i in p.entered <==> i < p.registered
  {
    BeginInv(objects, met, justCheck);
    EveryRun(Begin(objects, met, justCheck), es);
    var p := Run(Begin(objects, met, justCheck), es);
    hide Run;
    if p.pc.Done? && ListOf(p, o) != [] {
      HeadLinked(p, o);
    }
  }
}
