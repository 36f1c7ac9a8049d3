/**
 Several callers of k_poll that wait for the same object (kernel/poll.c): the
 order of their events in the object's list, and who is woken by a signal,
 which concerns the first event only.
 */
module PollQueues {
  import opened WaitQueues

  type PollerId = nat

  /** The walk of add_event, with its short cut for the end of the list. */
  method AddEvent(events: seq<Waiter<PollerId>>, w: Waiter<PollerId>) returns (r: seq<Waiter<PollerId>>)
    requires ByPriority(events)
    ensures r == Pend(events, w) && ByPriority(r)
  {
    PendByPriority(events, w);
    if events == [] || events[|events| - 1].prio < w.prio {
      PendLast(events, w);
      return events + [w];
    }
    var i := 0;
    while i < |events| && events[i].prio <= w.prio
      invariant i <= |events| && Pend(events, w) == events[..i] + Pend(events[i..], w)
    {
      assert events[i..][1..] == events[i + 1..] && events[..i + 1] == events[..i] + [events[i]];
      Associative(events[..i], [events[i]], Pend(events[i + 1..], w));
      i := i + 1;
    }
    r := events[..i] + [w] + events[i..];
    Associative(events[..i], [w], events[i..]);
  }

  lemma {:induction false} PendLast(q: seq<Waiter<PollerId>>, w: Waiter<PollerId>)
    requires ByPriority(q) && (q == [] || q[|q| - 1].prio < w.prio)
    ensures Pend(q, w) == q + [w]
  {
    if q != [] {
      OrderedTail(q);
      BoundedByLast(q);
      PendLast(q[1..], w);
      assert q + [w] == [q[0]] + (q[1..] + [w]);
    }
  }

  lemma {:induction false} BoundedByLast(q: seq<Waiter<PollerId>>)
    requires ByPriority(q) && q != []
    ensures q[0].prio <= q[|q| - 1].prio
  {
    if |q| > 1 {
      OrderedTail(q);
      BoundedByLast(q[1..]);
    }
  }

  // ---------------------------------------------------------------- the object and its pollers

  /** Where a caller is: it registers its events, having been signalled or not; it sleeps; or it
      is awake again and has not yet cleared its registrations. */
  datatype Phase = Registering(noticed: bool) | Asleep | Leaving

  /** Entries are numbered in the order of registration. */
  datatype Object = Object(events: seq<Waiter<PollerId>>, phases: map<PollerId, Phase>, next: nat)

  datatype Event =
    | ERegister(p: PollerId, prio: int)
    | ESleep(p: PollerId)
    | ESignal
    | EWake(p: PollerId)   // by another object, or a timeout
    | EClear(n: nat)       // one iteration of clear_event_registrations

  predicate Enabled(x: Object, e: Event) {
    match e
    case ERegister(p, prio) => p in x.phases ==> x.phases[p].Registering?
    case ESleep(p) => p in x.phases && x.phases[p] == Registering(false)
    case EWake(p) => p in x.phases && x.phases[p].Asleep?
    case EClear(n) => forall w :: w in x.events && w.tid == n ==> !Watches(x, w.desc)
    case ESignal => true
  }

  /** The caller sleeps, or will if nothing happens. */
  predicate Watches(x: Object, p: PollerId) {
    p in x.phases && (x.phases[p].Asleep? || x.phases[p] == Registering(false))
  }

  /** signal_poll_event and the poller's callback. */
  function Signalled(phase: Phase): Phase { if phase.Registering? then Registering(true) else Leaving }

  function Step(x: Object, e: Event): Object
    requires Enabled(x, e)
  {
    match e
    case ERegister(p, prio) =>
      if p in x.phases && x.phases[p].noticed then x
      else Object(Pend(x.events, Waiter(x.next, prio, p)), x.phases[p := Registering(false)], x.next + 1)
    case ESleep(p) => x.(phases := x.phases[p := Asleep])
    case EWake(p) => x.(phases := x.phases[p := Leaving])
    case EClear(n) => x.(events := Unpend(x.events, n))
    case ESignal =>
      if x.events == [] then x
      else
        var p := x.events[0].desc;
        x.(events := x.events[1..], phases := if p in x.phases then x.phases[p := Signalled(x.phases[p])] else x.phases)
  }

  ghost predicate Listed(q: seq<Waiter<PollerId>>, p: PollerId) { exists w :: w in q && w.desc == p }

  /** Entries are in order of priority and registration, and whoever watches has one. */
  ghost predicate Inv(x: Object) {
    && InTurn(x.events) && (forall w :: w in x.events ==> w.tid < x.next)
    && (forall p :: Watches(x, p) ==> Listed(x.events, p))
  }

  lemma {:induction false} UnpendSpares(q: seq<Waiter<PollerId>>, n: nat, w: Waiter<PollerId>)
    requires w in q && w.tid != n
    ensures w in Unpend(q, n)
  {
    if q[0].tid != n && q[0] != w {
      UnpendSpares(q[1..], n, w);
    }
  }

  lemma ClearKeeps(x: Object, n: nat)
    requires Inv(x) && Enabled(x, EClear(n))
    ensures Inv(Step(x, EClear(n)))
  {
    UnpendInTurn(x.events, n);
    hide InTurn, Unpend;
    forall p | Watches(x, p)
      ensures Listed(Unpend(x.events, n), p)
    {
      var w :| w in x.events && w.desc == p;
      UnpendSpares(x.events, n, w);
    }
  }

  lemma SignalKeeps(x: Object)
    requires Inv(x)
    ensures Inv(Step(x, ESignal))
  {
    if x.events != [] {
      var x' := Step(x, ESignal);
      forall p | Watches(x', p)
        ensures Listed(x'.events, p)
      {
        assert Watches(x, p) && p != x.events[0].desc;
        var w :| w in x.events && w.desc == p;
        assert w in x.events[1..];
      }
    }
  }

  lemma RegisterKeeps(x: Object, p: PollerId, prio: int)
    requires Inv(x) && Enabled(x, ERegister(p, prio))
    ensures Inv(Step(x, ERegister(p, prio)))
  {
    var w := Waiter(x.next, prio, p);
    PendInTurn(x.events, w);
    hide InTurn, Pend;
    forall u | Watches(x, u)
      ensures Listed(Pend(x.events, w), u)
    {
      var v :| v in x.events && v.desc == u;
      assert v in Pend(x.events, w);
    }
    assert w in Pend(x.events, w);
  }

  lemma StepKeeps(x: Object, e: Event)
    requires Inv(x) && Enabled(x, e)
    ensures Inv(Step(x, e))
  {
    match e
    case ERegister(p, prio) => RegisterKeeps(x, p, prio);
    case ESleep(p) => assert Watches(x, p); hide InTurn;
    case EWake(p) => hide InTurn;
    case EClear(n) => ClearKeeps(x, n);
    case ESignal => SignalKeeps(x);
  }

  ghost predicate EnabledRun(x: Object, es: seq<Event>)
    decreases |es|
  {
    es == [] || (Enabled(x, es[0]) && EnabledRun(Step(x, es[0]), es[1..]))
  }

  ghost function Run(x: Object, es: seq<Event>): Object
    requires EnabledRun(x, es)
    decreases |es|
  {
    if es == [] then x else Run(Step(x, es[0]), es[1..])
  }

  lemma {:induction false} EveryRun(x: Object, es: seq<Event>)
    requires Inv(x) && EnabledRun(x, es)
    ensures Inv(Run(x, es))
    decreases |es|
  {
    if es != [] {
      StepKeeps(x, es[0]);
      hide Inv, Step, Enabled;
      EveryRun(Step(x, es[0]), es[1..]);
    }
  }

  const UNUSED := Object([], map[], 0)

  // ---------------------------------------------------------------- who is woken

  /** After every run a signal concerns the event of the best priority, of these the one registered
      first, and no other; it wakes its caller if that sleeps, and nobody else. */
  lemma WakesTheFirst(es: seq<Event>)
    requires EnabledRun(UNUSED, es)
    ensures var x := Run(UNUSED, es);
            var x' := Step(x, ESignal);
            && (x.events != [] ==>
                 x'.events == x.events[1..] && forall w :: w in x.events[1..] ==> Before(x.events[0], w))
            && forall p :: p in x.phases && x.phases[p].Asleep? ==>
                 p in x'.phases && x.events != [] && (x'.phases[p].Asleep? <==> p != x.events[0].desc)
  {
    EveryRun(UNUSED, es);
    hide Run, EnabledRun;
    var x := Run(UNUSED, es);
    forall p | p in x.phases && x.phases[p].Asleep?
      ensures x.events != []
    {
      assert Watches(x, p);
    }
  }

  ghost predicate WakesSome(x: Object, x': Object) {
    exists q :: q in x.phases && x.phases[q].Asleep? && q in x'.phases && !x'.phases[q].Asleep?
  }

  /** A signal wakes a sleeper whenever there is one if and only if the first event belongs to one. */
  lemma SignalWakesExact(x: Object, p: PollerId)
    requires Inv(x) && p in x.phases && x.phases[p].Asleep?
    ensures x.events != []
    ensures WakesSome(x, Step(x, ESignal)) <==> x.events[0].desc in x.phases && x.phases[x.events[0].desc].Asleep?
  {
    assert Watches(x, p);
    hide InTurn;
    var first, x' := x.events[0].desc, Step(x, ESignal);
    if first in x.phases && x.phases[first].Asleep? {
      assert !x'.phases[first].Asleep?;
    }
  }

  /** Poller 1 has timed out and not yet cleared its registration when the signal comes: poller 2 sleeps on. */
  lemma SignalWasted()
    ensures var es := [ERegister(1, 3), ESleep(1), ERegister(2, 5), ESleep(2), EWake(1), ESignal];
            && EnabledRun(UNUSED, es)
            && var x := Run(UNUSED, es); 2 in x.phases && x.phases[2].Asleep? && Listed(x.events, 2)
  {
    var a, b := Waiter(0, 3, 1), Waiter(1, 5, 2);
    var x1 := Object([a], map[1 := Registering(false)], 1);
    var x2 := Object([a], map[1 := Asleep], 1);
    assert Pend([a], b) == [a, b] by { assert [a][1..] == []; }
    var x3 := Object([a, b], map[1 := Asleep, 2 := Registering(false)], 2);
    var x4 := Object([a, b], map[1 := Asleep, 2 := Asleep], 2);
    var x5 := Object([a, b], map[1 := Leaving, 2 := Asleep], 2);
    var x6 := Object([b], map[1 := Leaving, 2 := Asleep], 2);
    assert Step(UNUSED, ERegister(1, 3)) == x1 && Step(x1, ESleep(1)) == x2 && Step(x2, ERegister(2, 5)) == x3;
    assert Step(x3, ESleep(2)) == x4 && Step(x4, EWake(1)) == x5 && Step(x5, ESignal) == x6;
    hide Step;
    RunOne(x5, ESignal, []);
    RunOne(x4, EWake(1), [ESignal]);
    RunOne(x3, ESleep(2), [EWake(1), ESignal]);
    RunOne(x2, ERegister(2, 5), [ESleep(2), EWake(1), ESignal]);
    RunOne(x1, ESleep(1), [ERegister(2, 5), ESleep(2), EWake(1), ESignal]);
    RunOne(UNUSED, ERegister(1, 3), [ESleep(1), ERegister(2, 5), ESleep(2), EWake(1), ESignal]);
    assert b in x6.events;
  }

  lemma RunOne(x: Object, e: Event, es: seq<Event>)
    requires Enabled(x, e) && EnabledRun(Step(x, e), es)
    ensures EnabledRun(x, [e] + es) && Run(x, [e] + es) == Run(Step(x, e), es)
  {
    hide Step, Enabled;
    assert ([e] + es)[1..] == es;
  }
}
