/**
 What k_poll (kernel/poll.c) owes its caller, told by the run alone: which
 conditions held at the moments they were looked at, and which objects were
 signalled afterwards.  That decides which events are ready, whether the call
 sleeps, and what it returns.
 */
module PollChecks {
  import opened Lists
  import opened Poll
  import opened Wrappers

  // ---------------------------------------------------------------- the run as its own history

  /** The caller is about to look at event i, and the condition of its object holds. */
  ghost predicate FindsMet(p: Polling, e: Event, i: nat) {
    e.EPoller? && p.pc == Checking(i) && i < |p.objects| && exists o :: p.objects[i] == Some(o) && o in p.met
  }

  /** The caller is about to look at event i, which waits for nothing or for an object whose condition
      does not hold. */
  ghost predicate FindsUnmet(p: Polling, e: Event, i: nat) {
    e.EPoller? && p.pc == Checking(i) && i < |p.objects| && forall o :: p.objects[i] == Some(o) ==> o !in p.met
  }

  /** The object of event i is signalled after the caller has looked at it. */
  ghost predicate Signalled(p: Polling, e: Event, i: nat) {
    e.ERaise? && i < Checked(p) && i < |p.objects| && p.objects[i] == Some(e.o)
  }

  ghost predicate WasMet(p: Polling, es: seq<Event>, i: nat)
    decreases |es|
  {
    es != [] && (FindsMet(p, es[0], i) || WasMet(Step(p, es[0]), es[1..], i))
  }

  ghost predicate WasUnmet(p: Polling, es: seq<Event>, i: nat)
    decreases |es|
  {
    es != [] && (FindsUnmet(p, es[0], i) || WasUnmet(Step(p, es[0]), es[1..], i))
  }

  ghost predicate WasSignalled(p: Polling, es: seq<Event>, i: nat)
    decreases |es|
  {
    es != [] && (Signalled(p, es[0], i) || WasSignalled(Step(p, es[0]), es[1..], i))
  }

  /** What the model records is what the run shows; an event that was found ready stays so. */
  lemma StepHistory(p: Polling, e: Event, i: nat)
    ensures i in Step(p, e).metAtCheck <==> i in p.metAtCheck || FindsMet(p, e, i)
    ensures i in Step(p, e).raised <==> i in p.raised || Signalled(p, e, i)
    ensures p.metAtCheck <= p.ready ==> Step(p, e).metAtCheck <= Step(p, e).ready
    ensures Step(p, e).objects == p.objects && Step(p, e).justCheck == p.justCheck
  {
    match e
    case EPoller => PollerHistory(p, i);
    case ERaise(o) => hide PollerStep;
    case EDrain(o) => hide PollerStep, Raise;
    case ETimeout => hide PollerStep, Raise;
  }

  lemma PollerHistory(p: Polling, i: nat)
    ensures var q := PollerStep(p);
            && (i in q.metAtCheck <==> i in p.metAtCheck || FindsMet(p, EPoller, i))
            && q.raised == p.raised && (p.metAtCheck <= p.ready ==> q.metAtCheck <= q.ready)
            && q.objects == p.objects && q.justCheck == p.justCheck
  {
    match p.pc
    case Checking(k) => hide Decide, Clear;
    case _ => hide Check, Remove;
  }

  lemma {:induction false} RunHistory(p: Polling, es: seq<Event>, i: nat)
    requires p.metAtCheck <= p.ready
    ensures var q := Run(p, es);
            && (i in q.metAtCheck <==> i in p.metAtCheck || WasMet(p, es, i))
            && (i in q.raised <==> i in p.raised || WasSignalled(p, es, i))
            && q.metAtCheck <= q.ready && q.objects == p.objects && q.justCheck == p.justCheck
    decreases |es|
  {
    if es != [] {
      StepHistory(p, es[0], i);
      hide Step, FindsMet, Signalled;
      RunHistory(Step(p, es[0]), es[1..], i);
    }
  }

  /** Every event is looked at once, and found one way or the other. */
  lemma StepLooks(p: Polling, e: Event, i: nat)
    requires Inv(p) && i < |p.objects|
    ensures i < Checked(Step(p, e)) <==> i < Checked(p) || FindsMet(p, e, i) || FindsUnmet(p, e, i)
    ensures FindsMet(p, e, i) || FindsUnmet(p, e, i) ==> i >= Checked(p)
    ensures Step(p, e).objects == p.objects
  {
    hide Linked, Watching;
  }

  lemma {:induction false} RunLooks(p: Polling, es: seq<Event>, i: nat)
    requires Inv(p) && i < |p.objects|
    ensures i < Checked(Run(p, es)) <==> i < Checked(p) || WasMet(p, es, i) || WasUnmet(p, es, i)
    ensures !(WasMet(p, es, i) && WasUnmet(p, es, i))
    ensures i < Checked(p) ==> !WasMet(p, es, i) && !WasUnmet(p, es, i)
    decreases |es|
  {
    if es != [] {
      StepLooks(p, es[0], i);
      StepInv(p, es[0]);
      assert !(FindsMet(p, es[0], i) && FindsUnmet(p, es[0], i));
      hide Step, FindsMet, FindsUnmet, Inv, Checked;
      RunLooks(Step(p, es[0]), es[1..], i);
    }
  }

  // ---------------------------------------------------------------- ready, sleeping, returning

  /** In any run of a call: an event is ready if its condition held when it was looked at, and only then
      or if its object was signalled later. */
  lemma ReadyOnlyIf(objects: seq<Option<nat>>, met: set<nat>, justCheck: bool, es: seq<Event>, i: nat)
    ensures var p := Begin(objects, met, justCheck);
            && (WasMet(p, es, i) ==> i in Run(p, es).ready)
            && (i in Run(p, es).ready ==> WasMet(p, es, i) || WasSignalled(p, es, i))
  {
    var p := Begin(objects, met, justCheck);
    BeginInv(objects, met, justCheck);
    EveryRun(p, es);
    RunHistory(p, es, i);
    hide Run, WasMet, WasSignalled, Linked, Watching;
  }

  /** A caller sleeps only if it has looked at every event, none of the conditions held at that moment,
      and none of the objects was signalled since. */
  lemma SleepsOnlyIf(objects: seq<Option<nat>>, met: set<nat>, justCheck: bool, es: seq<Event>, i: nat)
    requires i < |objects|
    ensures var p := Begin(objects, met, justCheck);
            Run(p, es).pc.Sleeping? ==> WasUnmet(p, es, i) && !WasMet(p, es, i) && !WasSignalled(p, es, i) && !justCheck
  {
    var p := Begin(objects, met, justCheck);
    BeginInv(objects, met, justCheck);
    EveryRun(p, es);
    RunHistory(p, es, i);
    RunLooks(p, es, i);
    hide Run, WasMet, WasUnmet, WasSignalled, Linked;
  }

  /** The object of event i is signalled in time: after the caller has looked at it and before it has
      stopped waiting. */
  ghost predicate InTime(p: Polling, e: Event, i: nat) {
    Signalled(p, e, i) && (p.pc.Checking? || p.pc.Deciding? || p.pc.Sleeping?)
  }

  ghost predicate WasInTime(p: Polling, es: seq<Event>, i: nat)
    decreases |es|
  {
    es != [] && (InTime(p, es[0], i) || WasInTime(Step(p, es[0]), es[1..], i))
  }

  /** The call is bound to return 0. */
  predicate Bound(p: Polling) {
    match p.pc
    case Checking(_) => !p.isPolling
    case Deciding => !p.isPolling
    case Sleeping => false
    case Clearing(_, rc) => rc == 0
    case Done(rc) => rc == 0
  }

  /** What binds it. */
  ghost predicate Binds(p: Polling, e: Event, i: nat) {
    FindsMet(p, e, i) || (!p.justCheck && InTime(p, e, i))
  }

  /** Whether that happens for event i in the run. */
  ghost predicate Owed(p: Polling, es: seq<Event>, i: nat) {
    WasMet(p, es, i) || (!p.justCheck && WasInTime(p, es, i))
  }

  lemma OwedUnfold(p: Polling, es: seq<Event>, i: nat)
    requires es != []
    ensures Owed(p, es, i) <==> Binds(p, es[0], i) || Owed(Step(p, es[0]), es[1..], i)
  {
    StepHistory(p, es[0], i);
    hide Step, FindsMet, InTime;
  }

  lemma BoundStays(p: Polling, e: Event)
    requires Bound(p)
    ensures Bound(Step(p, e))
  {
  }

  lemma RaiseBinds(p: Polling, o: nat)
    requires Inv(p) && !Bound(p)
    ensures Bound(Raise(p, o)) <==> exists i :: Binds(p, ERaise(o), i)
  {
    if ListOf(p, o) != [] {
      HeadLinked(p, o);
      assert p.pc.Checking? || p.pc.Deciding? || p.pc.Sleeping? ==> Signalled(p, ERaise(o), ListOf(p, o)[0]);
      assert Bound(Raise(p, o)) ==> Binds(p, ERaise(o), ListOf(p, o)[0]);
    } else if !p.justCheck && (p.pc.Checking? || p.pc.Deciding? || p.pc.Sleeping?) {
      Unlinked(p, o);
    }
    hide Linked;
  }

  lemma StepBinds(p: Polling, e: Event)
    requires Inv(p) && !Bound(p)
    ensures Bound(Step(p, e)) <==> exists i :: Binds(p, e, i)
  {
    match e
    case ERaise(o) => RaiseBinds(p, o); hide Raise, Inv;
    case EPoller =>
      hide Linked, Watching;
      if p.pc.Checking? && p.pc.next < |p.objects| && Met(p, p.pc.next) {
        assert p.objects[p.pc.next] == Some(p.objects[p.pc.next].value);
        assert Binds(p, e, p.pc.next);
      }
    case _ =>
  }

  lemma {:induction false} RunBinds(p: Polling, es: seq<Event>)
    requires Inv(p) && !Bound(p)
    ensures Bound(Run(p, es)) <==> exists i :: Owed(p, es, i)
    decreases |es|
  {
    if es != [] {
      var q := Step(p, es[0]);
      StepBinds(p, es[0]);
      StepInv(p, es[0]);
      forall i: nat
        ensures Owed(p, es, i) <==> Binds(p, es[0], i) || Owed(q, es[1..], i)
      {
        OwedUnfold(p, es, i);
      }
      hide Step, Inv, Bound, Binds, Owed;
      if Bound(q) {
        RunBound(q, es[1..]);
        var i :| Binds(p, es[0], i);
        assert Owed(p, es, i);
      } else {
        RunBinds(q, es[1..]);
      }
    }
  }

  lemma {:induction false} RunBound(p: Polling, es: seq<Event>)
    requires Bound(p)
    ensures Bound(Run(p, es))
    decreases |es|
  {
    if es != [] {
      BoundStays(p, es[0]);
      hide Step, Bound;
      RunBound(Step(p, es[0]), es[1..]);
    }
  }

  /** What a call returns, in every run: 0 exactly when some condition held at the moment it was looked
      at or, if it may wait, some object was signalled in time, and -EAGAIN otherwise. */
  lemma Answer(objects: seq<Option<nat>>, met: set<nat>, justCheck: bool, es: seq<Event>)
    ensures var p := Begin(objects, met, justCheck);
            Run(p, es).pc.Done? ==>
              Run(p, es).pc.rc == if exists i :: Owed(p, es, i) then 0 else -EAGAIN
  {
    var p := Begin(objects, met, justCheck);
    BeginInv(objects, met, justCheck);
    EveryRun(p, es);
    RunBinds(p, es);
    hide Run, Owed, Linked, Watching;
  }

  // ---------------------------------------------------------------- it does return

  /** How many steps the caller still has to take, at most. */
  function Remaining(p: Polling): nat {
    match p.pc
    case Checking(i) => 2 * |p.objects| + 4 - (if i < |p.objects| then i else |p.objects|)
    case Deciding => |p.objects| + 3
    case Sleeping => |p.objects| + 2
    case Clearing(left, _) => (if left < |p.objects| then left else |p.objects|) + 1
    case Done(_) => 0
  }

  function Steps(es: seq<Event>): nat {
    if es == [] then 0 else (if es[0].EPoller? then 1 else 0) + Steps(es[1..])
  }

  lemma StepRemaining(p: Polling, e: Event)
    requires Inv(p)
    ensures Remaining(Step(p, e)) <= Remaining(p)
    ensures e.EPoller? && !p.pc.Sleeping? && !p.pc.Done? ==> Remaining(Step(p, e)) < Remaining(p)
  {
    hide Linked, Watching;
  }

  /** Once bound to return 0, the call does not sleep, whatever happens, and has returned 0 as soon as
      the caller has taken its remaining steps. */
  lemma {:induction false} BoundReturns(p: Polling, es: seq<Event>)
    requires Inv(p) && Bound(p)
    ensures var q := Run(p, es); !q.pc.Sleeping? && (Steps(es) >= Remaining(p) ==> q.pc == Done(0))
    decreases |es|
  {
    if es != [] {
      StepInv(p, es[0]);
      BoundStays(p, es[0]);
      StepRemaining(p, es[0]);
      assert p.pc.Done? ==> Step(p, es[0]).pc == p.pc && Remaining(p) == 0;
      hide Step, Inv;
      BoundReturns(Step(p, es[0]), es[1..]);
    }
  }

  /** The caller looks at an event whose condition holds: the event is ready from then on, and the call
      returns 0 without sleeping. */
  lemma MetReturns(p: Polling, i: nat, o: nat, es: seq<Event>)
    requires Inv(p) && p.pc == Checking(i) && i < |p.objects| && p.objects[i] == Some(o) && o in p.met
    ensures var q := Run(Step(p, EPoller), es);
            i in q.ready && !q.pc.Sleeping? && (Steps(es) >= Remaining(Step(p, EPoller)) ==> q.pc == Done(0))
  {
    StepInv(p, EPoller);
    assert Bound(Step(p, EPoller)) && i in Step(p, EPoller).ready;
    hide Step, Inv, Run, Bound;
    BoundReturns(Step(p, EPoller), es);
    StaysReady(Step(p, EPoller), es, i);
  }

  /** An object is signalled in time: a call that may wait returns 0 without sleeping on. */
  lemma SignalReturns(p: Polling, i: nat, o: nat, es: seq<Event>)
    requires Inv(p) && !p.justCheck && InTime(p, ERaise(o), i)
    ensures var q := Run(Step(p, ERaise(o)), es);
            !q.pc.Sleeping? && (Steps(es) >= Remaining(Step(p, ERaise(o))) ==> q.pc == Done(0))
  {
    StepInv(p, ERaise(o));
    if Bound(p) {
      BoundStays(p, ERaise(o));
    } else {
      assert Binds(p, ERaise(o), i);
      StepBinds(p, ERaise(o));
    }
    hide Step, Inv, Run, Bound;
    BoundReturns(Step(p, ERaise(o)), es);
  }

  lemma {:induction false} StaysReady(p: Polling, es: seq<Event>, i: nat)
    requires i in p.ready
    ensures i in Run(p, es).ready
    decreases |es|
  {
    if es != [] {
      assert i in Step(p, es[0]).ready;
      hide Step;
      StaysReady(Step(p, es[0]), es[1..], i);
    }
  }

  // ---------------------------------------------------------------- conditions

  /** A signalled object's condition holds until it is drained, and nothing the caller does changes it. */
  lemma {:induction false} MetUntilDrained(p: Polling, es: seq<Event>, o: nat)
    requires EDrain(o) !in es
    ensures o in Run(p, es).met <==> o in p.met || ERaise(o) in es
    decreases |es|
  {
    if es != [] {
      assert o in Step(p, es[0]).met <==> o in p.met || es[0] == ERaise(o);
      hide Step;
      MetUntilDrained(Step(p, es[0]), es[1..], o);
      assert es == [es[0]] + es[1..];
    }
  }
}
