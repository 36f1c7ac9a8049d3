/**
 The timeout service as its callers see it: a clock and the pending timeouts
 with the absolute tick at which each falls due, earliest first and, among
 equals, in the order they were armed.  This is the reference that the kernel's
 delta list (module TimeoutList) is proved to implement.
 */
module Timeouts {

  type TimeoutId = nat

  datatype Entry = Entry(id: TimeoutId, expiry: int)

  datatype Clock = Clock(now: int, queue: seq<Entry>)

  /** What an expiry handler may ask of the service: arm a timeout afresh
      (aborting it first when it is still pending), or abort one. */
  datatype Call = Start(id: TimeoutId, ticks: int) | Abort(id: TimeoutId)

  /** An expiry handler: its own state, what it can see of the clock, the timeout
      that fired, and the lag that the service will add to what it arms. */
  type Handler<!U> = (U, Clock, TimeoutId, nat) -> (U, seq<Call>)

  datatype Firing = Firing(tick: int, id: TimeoutId)

  datatype Outcome<U> = Outcome(clock: Clock, user: U, fired: seq<Firing>)

  function Max(a: int, b: int): int { if a < b then b else a }

  /** The plain map from timeout to expiry that the queue stands for. */
  ghost function Expiries(q: seq<Entry>): map<TimeoutId, int> {
    if q == [] then map[] else Expiries(q[1..])[q[0].id := q[0].expiry]
  }

  /** Nothing is due before tick, and each entry is due no earlier than the one before it. */
  ghost predicate SortedFrom(q: seq<Entry>, tick: int) {
    q == [] || (tick <= q[0].expiry && SortedFrom(q[1..], q[0].expiry))
  }

  ghost predicate Unique(q: seq<Entry>) {
    q == [] || (q[0].id !in Expiries(q[1..]) && Unique(q[1..]))
  }

  ghost predicate ValidClock(c: Clock) {
    SortedFrom(c.queue, c.now) && Unique(c.queue)
  }

  // ---------------------------------------------------------------- the operations

  function Insert(q: seq<Entry>, e: Entry): (r: seq<Entry>)
    ensures |r| == |q| + 1
  {
    if q == [] then [e]
    else if e.expiry < q[0].expiry then [e] + q
    else [q[0]] + Insert(q[1..], e)
  }

  function Delete(q: seq<Entry>, id: TimeoutId): (r: seq<Entry>)
    ensures |r| <= |q|
  {
    if q == [] then []
    else if q[0].id == id then q[1..]
    else [q[0]] + Delete(q[1..], id)
  }

  /** One request; lag is what the service adds for ticks the driver has counted but not announced. */
  function Perform(c: Clock, call: Call, lag: nat): Clock {
    match call
    case Abort(id) => c.(queue := Delete(c.queue, id))
    case Start(id, ticks) => c.(queue := Insert(Delete(c.queue, id), Entry(id, c.now + Max(1, ticks) + lag)))
  }

  function PerformAll(c: Clock, calls: seq<Call>, lag: nat): Clock
    decreases |calls|
  {
    if calls == [] then c else PerformAll(Perform(c, calls[0], lag), calls[1..], lag)
  }

  /** The head timeout falls due: time moves to its expiry, it leaves the queue, its handler runs. */
  function Fire<U>(h: Handler<U>, c: Clock, u: U, lag: nat): (r: (Clock, U))
    requires c.queue != []
  {
    var due := c.queue[0];
    var popped := Clock(due.expiry, c.queue[1..]);
    var (u', calls) := h(u, popped, due.id, lag);
    (PerformAll(popped, calls, lag), u')
  }

  /** How many pending timeouts are due no later than tick. */
  function DueBy(q: seq<Entry>, tick: int): nat {
    if q == [] then 0 else (if q[0].expiry <= tick then 1 else 0) + DueBy(q[1..], tick)
  }

  /** Time advances to target, firing everything that falls due on the way.
      hw is the driver's unannounced tick count while the catch-up runs; the
      service consults it only once it has no announced ticks left. */
  function Advance<U>(h: Handler<U>, c: Clock, u: U, target: int, hw: nat): (r: Outcome<U>)
    requires ValidClock(c) && c.now <= target
    decreases target - c.now, DueBy(c.queue, c.now)
  {
    if c.queue == [] || target < c.queue[0].expiry then Outcome(Clock(target, c.queue), u, [])
    else
      var due := c.queue[0];
      var lag := if due.expiry == target then hw else 0;
      FireProgress(h, c, u, lag);
      var (c', u') := Fire(h, c, u, lag);
      var rest := Advance(h, c', u', target, hw);
      Outcome(rest.clock, rest.user, [Firing(due.expiry, due.id)] + rest.fired)
  }

  // ---------------------------------------------------------------- facts about one request

  lemma {:induction false} SortedBound(q: seq<Entry>, tick: int, i: nat)
    requires SortedFrom(q, tick) && i < |q|
    ensures tick <= q[i].expiry
  {
    if i > 0 {
      SortedBound(q[1..], q[0].expiry, i - 1);
    }
  }

  /** Insert keeps every queued entry in its place and puts the new one behind
      all entries due no later: first in, first out among equals. */
  lemma {:induction false} InsertPosition(q: seq<Entry>, e: Entry, tick: int) returns (k: nat)
    requires SortedFrom(q, tick)
    ensures k <= |q| && Insert(q, e) == q[..k] + [e] + q[k..]
    ensures forall i :: 0 <= i < k ==> q[i].expiry <= e.expiry
    ensures forall i :: k <= i < |q| ==> e.expiry < q[i].expiry
  {
    if q == [] || e.expiry < q[0].expiry {
      k := 0;
      assert [e] + q == q[..0] + [e] + q[0..];
      forall i | 0 <= i < |q|
        ensures e.expiry < q[i].expiry
      {
        SortedBound(q, q[0].expiry, i);
      }
    } else {
      var k' := InsertPosition(q[1..], e, q[0].expiry);
      k := k' + 1;
      var t := q[1..];
      assert forall i :: 0 < i < |q| ==> q[i] == t[i - 1];
      assert q[..k] == [q[0]] + t[..k'] && q[k..] == t[k'..];
      assert [q[0]] + (t[..k'] + [e] + t[k'..]) == ([q[0]] + t[..k']) + [e] + t[k'..];
    }
  }

  /** Arming one timeout and aborting one change that timeout's expiry and no other. */
  lemma {:induction false} InsertExpiries(q: seq<Entry>, e: Entry)
    requires e.id !in Expiries(q)
    ensures Expiries(Insert(q, e)) == Expiries(q)[e.id := e.expiry]
  {
    if q == [] {
    } else if e.expiry < q[0].expiry {
      assert Insert(q, e)[1..] == q;
    } else {
      InsertExpiries(q[1..], e);
      assert Insert(q, e)[1..] == Insert(q[1..], e);
    }
  }

  lemma {:induction false} DeleteExpiries(q: seq<Entry>, id: TimeoutId)
    requires Unique(q)
    ensures Expiries(Delete(q, id)) == Expiries(q) - {id}
  {
    if q == [] {
    } else if q[0].id == id {
    } else {
      DeleteExpiries(q[1..], id);
      assert Delete(q, id)[1..] == Delete(q[1..], id);
    }
  }

  lemma {:induction false} DeleteValid(q: seq<Entry>, id: TimeoutId, tick: int)
    requires SortedFrom(q, tick) && Unique(q)
    ensures SortedFrom(Delete(q, id), tick) && Unique(Delete(q, id))
  {
    if q != [] && q[0].id != id {
      DeleteValid(q[1..], id, q[0].expiry);
      DeleteExpiries(q[1..], id);
      assert Delete(q, id)[1..] == Delete(q[1..], id);
    }
  }

  lemma {:induction false} InsertValid(q: seq<Entry>, e: Entry, tick: int)
    requires SortedFrom(q, tick) && Unique(q) && tick <= e.expiry && e.id !in Expiries(q)
    ensures SortedFrom(Insert(q, e), tick) && Unique(Insert(q, e))
  {
    if q == [] {
    } else if e.expiry < q[0].expiry {
      assert Insert(q, e)[1..] == q;
    } else {
      InsertValid(q[1..], e, q[0].expiry);
      InsertExpiries(q[1..], e);
      assert Insert(q, e)[1..] == Insert(q[1..], e);
    }
  }

  lemma PerformValid(c: Clock, call: Call, lag: nat)
    requires ValidClock(c)
    ensures ValidClock(Perform(c, call, lag)) && Perform(c, call, lag).now == c.now
    ensures DueBy(Perform(c, call, lag).queue, c.now) <= DueBy(c.queue, c.now)
  {
    DeleteValid(c.queue, call.id, c.now);
    DueByDelete(c.queue, call.id, c.now);
    if call.Start? {
      var q := Delete(c.queue, call.id);
      var e := Entry(call.id, c.now + Max(1, call.ticks) + lag);
      DeleteExpiries(c.queue, call.id);
      InsertValid(q, e, c.now);
      DueByInsert(q, e, c.now);
    }
  }

  /** On the plain map a request is one update: every other timeout keeps its expiry. */
  lemma PerformExpiries(c: Clock, call: Call, lag: nat)
    requires ValidClock(c)
    ensures Expiries(Perform(c, call, lag).queue)
         == match call
            case Abort(id) => Expiries(c.queue) - {id}
            case Start(id, ticks) => Expiries(c.queue)[id := c.now + Max(1, ticks) + lag]
  {
    DeleteExpiries(c.queue, call.id);
    if call.Start? {
      InsertExpiries(Delete(c.queue, call.id), Entry(call.id, c.now + Max(1, call.ticks) + lag));
    }
  }

  lemma {:induction false} PerformAllValid(c: Clock, calls: seq<Call>, lag: nat)
    requires ValidClock(c)
    ensures ValidClock(PerformAll(c, calls, lag)) && PerformAll(c, calls, lag).now == c.now
    ensures DueBy(PerformAll(c, calls, lag).queue, c.now) <= DueBy(c.queue, c.now)
    decreases |calls|
  {
    if calls != [] {
      PerformValid(c, calls[0], lag);
      PerformAllValid(Perform(c, calls[0], lag), calls[1..], lag);
    }
  }

  lemma {:induction false} DueByDelete(q: seq<Entry>, id: TimeoutId, tick: int)
    ensures DueBy(Delete(q, id), tick) <= DueBy(q, tick)
  {
    if q != [] && q[0].id != id {
      DueByDelete(q[1..], id, tick);
      assert Delete(q, id)[1..] == Delete(q[1..], id);
    }
  }

  lemma {:induction false} DueByInsert(q: seq<Entry>, e: Entry, tick: int)
    requires tick < e.expiry
    ensures DueBy(Insert(q, e), tick) == DueBy(q, tick)
  {
    if q == [] {
    } else if e.expiry < q[0].expiry {
      assert Insert(q, e)[1..] == q;
    } else {
      DueByInsert(q[1..], e, tick);
      assert Insert(q, e)[1..] == Insert(q[1..], e);
    }
  }

  /** Why the catch-up loop stops although handlers re-arm: every re-armed
      timeout lies at least one tick ahead, so either time moves or the number
      of timeouts due now drops. */
  lemma FireProgress<U>(h: Handler<U>, c: Clock, u: U, lag: nat)
    requires ValidClock(c) && c.queue != []
    ensures var c' := Fire(h, c, u, lag).0;
            ValidClock(c') && c'.now == c.queue[0].expiry &&
            (c.now < c'.now || DueBy(c'.queue, c'.now) < DueBy(c.queue, c.now))
  {
    var due := c.queue[0];
    var popped := Clock(due.expiry, c.queue[1..]);
    assert ValidClock(popped);
    PerformAllValid(popped, h(u, popped, due.id, lag).1, lag);
  }

  // ---------------------------------------------------------------- facts about an advance

  function Prepend<U>(fired: seq<Firing>, r: Outcome<U>): Outcome<U> {
    r.(fired := fired + r.fired)
  }

  lemma AdvanceDone<U>(h: Handler<U>, c: Clock, u: U, target: int, hw: nat, fired: seq<Firing>)
    requires ValidClock(c) && c.now <= target && (c.queue != [] ==> target < c.queue[0].expiry)
    ensures Prepend(fired, Advance(h, c, u, target, hw)) == Outcome(Clock(target, c.queue), u, fired)
  {
    assert fired + [] == fired;
  }

  lemma AdvanceUnfold<U>(h: Handler<U>, c: Clock, u: U, target: int, hw: nat, fired: seq<Firing>)
    requires ValidClock(c) && c.now <= target && c.queue != [] && c.queue[0].expiry <= target
    ensures var due := c.queue[0];
            var (c', u') := Fire(h, c, u, if due.expiry == target then hw else 0);
            && ValidClock(c') && c'.now == due.expiry
            && (c.now < c'.now || DueBy(c'.queue, c'.now) < DueBy(c.queue, c.now))
            && Prepend(fired, Advance(h, c, u, target, hw))
               == Prepend(fired + [Firing(due.expiry, due.id)], Advance(h, c', u', target, hw))
  {
    var due := c.queue[0];
    var lag := if due.expiry == target then hw else 0;
    FireProgress(h, c, u, lag);
    var (c', u') := Fire(h, c, u, lag);
    var rest := Advance(h, c', u', target, hw);
    assert fired + ([Firing(due.expiry, due.id)] + rest.fired) == (fired + [Firing(due.expiry, due.id)]) + rest.fired;
  }

  /** Everything left pending lies strictly in the future, and time is exactly the target. */
  lemma {:induction false} SurvivorsInFuture<U>(h: Handler<U>, c: Clock, u: U, target: int, hw: nat)
    requires ValidClock(c) && c.now <= target
    ensures var r := Advance(h, c, u, target, hw);
            ValidClock(r.clock) && r.clock.now == target && SortedFrom(r.clock.queue, target + 1)
    decreases target - c.now, DueBy(c.queue, c.now)
  {
    if c.queue != [] && c.queue[0].expiry <= target {
      var lag := if c.queue[0].expiry == target then hw else 0;
      FireProgress(h, c, u, lag);
      var (c', u') := Fire(h, c, u, lag);
      SurvivorsInFuture(h, c', u', target, hw);
    }
  }

  ghost predicate FiredInOrder(fired: seq<Firing>, from: int, to: int) {
    fired == [] || (from <= fired[0].tick <= to && FiredInOrder(fired[1..], fired[0].tick, to))
  }

  /** Timeouts fire in the order of their expiries, none before the start nor after the target. */
  lemma {:induction false} FiresInOrder<U>(h: Handler<U>, c: Clock, u: U, target: int, hw: nat)
    requires ValidClock(c) && c.now <= target
    ensures FiredInOrder(Advance(h, c, u, target, hw).fired, c.now, target)
    decreases target - c.now, DueBy(c.queue, c.now)
  {
    if c.queue != [] && c.queue[0].expiry <= target {
      var lag := if c.queue[0].expiry == target then hw else 0;
      FireProgress(h, c, u, lag);
      var (c', u') := Fire(h, c, u, lag);
      FiresInOrder(h, c', u', target, hw);
    }
  }

  /** What happens next depends on the queue alone, not on how far time has come. */
  lemma AdvanceFrom<U>(h: Handler<U>, c: Clock, later: int, u: U, target: int)
    requires ValidClock(c) && c.now <= later <= target && ValidClock(Clock(later, c.queue))
    ensures Advance(h, Clock(later, c.queue), u, target, 0) == Advance(h, c, u, target, 0)
  {
    if c.queue != [] {
      assert Fire(h, c, u, 0) == Fire(h, Clock(later, c.queue), u, 0);
    }
  }

  /** Announcing up to a and then up to b is announcing up to b at once: the same
      queue, the same time, the same handler state and the same firings, whatever
      the handlers re-arm or abort, as long as the driver counts no tick meanwhile. */
  lemma {:induction false} Batching<U>(h: Handler<U>, c: Clock, u: U, a: int, b: int)
    requires ValidClock(c) && c.now <= a <= b
    ensures var r1 := Advance(h, c, u, a, 0);
            ValidClock(r1.clock) && r1.clock.now == a &&
            Advance(h, c, u, b, 0) == Prepend(r1.fired, Advance(h, r1.clock, r1.user, b, 0))
    decreases a - c.now, DueBy(c.queue, c.now)
  {
    SurvivorsInFuture(h, c, u, a, 0);
    if c.queue != [] && c.queue[0].expiry <= a {
      FireProgress(h, c, u, 0);
      var (c', u') := Fire(h, c, u, 0);
      Batching(h, c', u', a, b);
      var r1 := Advance(h, c', u', a, 0);
      PrependTwice([Firing(c.queue[0].expiry, c.queue[0].id)], r1.fired, Advance(h, r1.clock, r1.user, b, 0));
    } else {
      AdvanceFrom(h, c, a, u, b);
      PrependTwice([], [], Advance(h, c, u, b, 0));
    }
  }

  lemma PrependTwice<U>(f: seq<Firing>, g: seq<Firing>, r: Outcome<U>)
    ensures Prepend(f, Prepend(g, r)) == Prepend(f + g, r)
    ensures Prepend([], r) == r
  {
    assert f + (g + r.fired) == (f + g) + r.fired;
    assert [] + r.fired == r.fired;
  }

  function Total(ticks: seq<nat>): nat {
    if ticks == [] then 0 else ticks[0] + Total(ticks[1..])
  }

  /** A whole run of announcements, one after another. */
  ghost function AdvanceAll<U>(h: Handler<U>, c: Clock, u: U, ticks: seq<nat>): (r: Outcome<U>)
    requires ValidClock(c)
    ensures ValidClock(r.clock)
    decreases |ticks|
  {
    if ticks == [] then Outcome(c, u, [])
    else
      SurvivorsInFuture(h, c, u, c.now + ticks[0], 0);
      var r1 := Advance(h, c, u, c.now + ticks[0], 0);
      Prepend(r1.fired, AdvanceAll(h, r1.clock, r1.user, ticks[1..]))
  }

  lemma AdvanceNowhere<U>(h: Handler<U>, c: Clock, u: U)
    requires ValidClock(c) && SortedFrom(c.queue, c.now + 1)
    ensures Advance(h, c, u, c.now, 0) == Outcome(c, u, [])
  {
  }

  /** However the ticks are batched, only their total matters. */
  lemma {:induction false} AnyBatching<U>(h: Handler<U>, c: Clock, u: U, ticks: seq<nat>)
    requires ValidClock(c) && SortedFrom(c.queue, c.now + 1)
    ensures AdvanceAll(h, c, u, ticks) == Advance(h, c, u, c.now + Total(ticks), 0)
    decreases |ticks|
  {
    hide Advance, ValidClock, SortedFrom;
    if ticks == [] {
      AdvanceNowhere(h, c, u);
    } else {
      var t := ticks[0];
      SurvivorsInFuture(h, c, u, c.now + t, 0);
      var r1 := Advance(h, c, u, c.now + t, 0);
      AnyBatching(h, r1.clock, r1.user, ticks[1..]);
      Batching(h, c, u, c.now + t, c.now + Total(ticks));
    }
  }

  /** The condition on the driver is needed: as soon as it counts a single tick
      during the catch-up, a timeout that re-arms itself every tick fires twice
      under one announcement of two ticks and once under two of one tick. */
  lemma BatchingNeedsQuietDriver(hw: nat)
    ensures (forall h: Handler<()>, c: Clock, a: int, b: int | ValidClock(c) &&
      c.now <= a <= b :: SplitsAt(h, c, a, b, hw))
            <==> hw == 0
  {
    if hw == 0 {
      forall h: Handler<()>, c: Clock, a: int, b: int | ValidClock(c) && c.now <= a <= b
        ensures SplitsAt(h, c, a, b, hw)
      {
        Batching(h, c, (), a, b);
        assert Advance(h, c, (), a, 0).user == ();
      }
    } else {
      var h: Handler<()> := (u: (), view: Clock, id: TimeoutId, lag: nat) => ((), [Start(id, 1)]);
      var c := Clock(0, [Entry(7, 1)]);
      TickByTick(h, hw);
      assert !SplitsAt(h, c, 1, 2, hw);
    }
  }

  /** Announcing up to a and then up to b fires what announcing up to b fires. */
  ghost predicate SplitsAt(h: Handler<()>, c: Clock, a: int, b: int, hw: nat)
    requires ValidClock(c) && c.now <= a <= b
  {
    SurvivorsInFuture(h, c, (), a, hw);
    var r := Advance(h, c, (), a, hw);
    Advance(h, c, (), b, hw).fired == r.fired + Advance(h, r.clock, (), b, hw).fired
  }

  lemma TickByTick(h: Handler<()>, hw: nat)
    requires forall view, id, lag :: h((), view, id, lag) == ((), [Start(id, 1)])
    requires hw > 0
    ensures !SplitsAt(h, Clock(0, [Entry(7, 1)]), 1, 2, hw)
  {
    var c, d, e := Clock(0, [Entry(7, 1)]), Clock(1, [Entry(7, 2)]), Clock(1, [Entry(7, 2 + hw)]);
    OneTick(h, 0, 0);
    OneTick(h, 0, hw);
    OneTick(h, 1, hw);
    assert Advance(h, d, (), 2, hw).fired == [Firing(2, 7)] + Advance(h, Clock(2, [Entry(7, 3 + hw)]), (), 2, hw).fired;
    assert Advance(h, c, (), 2, hw).fired == [Firing(1, 7)] + Advance(h, d, (), 2, hw).fired;
    assert Advance(h, e, (), 1, hw) == Outcome(e, (), []);
    assert Advance(h, c, (), 1, hw) == Outcome(e, (), [Firing(1, 7)]);
    assert Advance(h, e, (), 2, hw).fired == [];
  }

  lemma OneTick(h: Handler<()>, now: int, lag: nat)
    requires forall view, id, lag :: h((), view, id, lag) == ((), [Start(id, 1)])
    ensures var c := Clock(now, [Entry(7, now + 1)]);
            ValidClock(c) && Fire(h, c, (), lag) == (Clock(now + 1, [Entry(7, now + 2 + lag)]), ())
  {
    var c := Clock(now, [Entry(7, now + 1)]);
    assert c.queue[1..] == [] && [Start(7, 1)][1..] == [];
    assert Perform(Clock(now + 1, []), Start(7, 1), lag).queue == [Entry(7, now + 2 + lag)];
  }

  // ---------------------------------------------------------------- first in, first out

  ghost predicate Ahead(q: seq<Entry>, x: TimeoutId, y: TimeoutId) {
    q != [] && if q[0].id == x then y in Expiries(q[1..]) else q[0].id != y && Ahead(q[1..], x, y)
  }

  ghost predicate FiresBefore(fired: seq<Firing>, x: Firing, y: Firing) {
    fired != [] && if fired[0].id == x.id then fired[0] == x && y in fired[1..]
                   else fired[0].id != y.id && FiresBefore(fired[1..], x, y)
  }

  /** No handler starts or aborts timeout id. */
  ghost predicate Untouched<U(!new)>(h: Handler<U>, id: TimeoutId) {
    forall u, view, other, lag, i :: 0 <= i < |h(u, view, other, lag).1| ==> h(u, view, other, lag).1[i].id != id
  }

  lemma {:induction false} AheadPending(q: seq<Entry>, x: TimeoutId, y: TimeoutId)
    requires Ahead(q, x, y)
    ensures x in Expiries(q) && y in Expiries(q)
  {
    if q[0].id != x {
      AheadPending(q[1..], x, y);
    }
  }

  lemma {:induction false} DeleteAhead(q: seq<Entry>, id: TimeoutId, x: TimeoutId, y: TimeoutId)
    requires Unique(q) && Ahead(q, x, y) && id != x && id != y
    ensures Ahead(Delete(q, id), x, y)
  {
    if q[0].id != id {
      assert Delete(q, id)[1..] == Delete(q[1..], id);
      DeleteExpiries(q[1..], id);
      if q[0].id != x {
        DeleteAhead(q[1..], id, x, y);
      }
    }
  }

  lemma {:induction false} InsertAhead(q: seq<Entry>, e: Entry, x: TimeoutId, y: TimeoutId)
    requires Ahead(q, x, y) && e.id != x && e.id != y && e.id !in Expiries(q)
    ensures Ahead(Insert(q, e), x, y)
  {
    if e.expiry < q[0].expiry {
      assert Insert(q, e)[1..] == q;
    } else {
      assert Insert(q, e)[1..] == Insert(q[1..], e);
      InsertExpiries(q[1..], e);
      if q[0].id != x {
        InsertAhead(q[1..], e, x, y);
      }
    }
  }

  /** A timeout armed behind one that is pending and due no later. */
  lemma {:induction false} InsertBehind(q: seq<Entry>, e: Entry, tick: int, x: TimeoutId)
    requires SortedFrom(q, tick) && Unique(q) && x in Expiries(q) && Expiries(q)[x] <= e.expiry && e.id !in Expiries(q)
    ensures Ahead(Insert(q, e), x, e.id)
  {
    if q[0].id == x {
      assert Insert(q, e)[1..] == Insert(q[1..], e);
      InsertExpiries(q[1..], e);
    } else {
      ArmedBound(q[1..], q[0].expiry, x);
      assert Insert(q, e)[1..] == Insert(q[1..], e);
      InsertBehind(q[1..], e, q[0].expiry, x);
    }
  }

  lemma {:induction false} ArmedBound(q: seq<Entry>, tick: int, id: TimeoutId)
    requires SortedFrom(q, tick) && id in Expiries(q)
    ensures tick <= Expiries(q)[id]
  {
    if q[0].id != id {
      ArmedBound(q[1..], q[0].expiry, id);
    }
  }

  lemma {:induction false} OthersKeep(c: Clock, calls: seq<Call>, lag: nat, id: TimeoutId)
    requires ValidClock(c) && forall i :: 0 <= i < |calls| ==> calls[i].id != id
    ensures var q, q' := Expiries(c.queue), Expiries(PerformAll(c, calls, lag).queue);
            (id in q' <==> id in q) && (id in q ==> q'[id] == q[id])
    decreases |calls|
  {
    if calls != [] {
      PerformValid(c, calls[0], lag);
      PerformExpiries(c, calls[0], lag);
      OthersKeep(Perform(c, calls[0], lag), calls[1..], lag, id);
    }
  }

  lemma {:induction false} OthersKeepAhead(c: Clock, calls: seq<Call>, lag: nat, x: TimeoutId, y: TimeoutId)
    requires ValidClock(c) && Ahead(c.queue, x, y)
    requires forall i :: 0 <= i < |calls| ==> calls[i].id != x && calls[i].id != y
    ensures Ahead(PerformAll(c, calls, lag).queue, x, y)
    decreases |calls|
  {
    if calls != [] {
      PerformValid(c, calls[0], lag);
      DeleteAhead(c.queue, calls[0].id, x, y);
      DeleteExpiries(c.queue, calls[0].id);
      if calls[0].Start? {
        InsertAhead(Delete(c.queue, calls[0].id), Entry(calls[0].id, c.now + Max(1, calls[0].ticks) + lag), x, y);
      }
      OthersKeepAhead(Perform(c, calls[0], lag), calls[1..], lag, x, y);
    }
  }

  lemma OtherFires<U(!new)>(h: Handler<U>, c: Clock, u: U, lag: nat, id: TimeoutId)
    requires ValidClock(c) && c.queue != [] && c.queue[0].id != id && id in Expiries(c.queue) && Untouched(h, id)
    ensures var q' := Expiries(Fire(h, c, u, lag).0.queue);
            id in q' && q'[id] == Expiries(c.queue)[id]
  {
    var popped := Clock(c.queue[0].expiry, c.queue[1..]);
    assert ValidClock(popped);
    OthersKeep(popped, h(u, popped, c.queue[0].id, lag).1, lag, id);
  }

  /** A pending timeout that no handler touches fires at exactly its expiry. */
  lemma {:induction false} FiresWhenDue<U(!new)>(h: Handler<U>, c: Clock, u: U, target: int, hw: nat, id: TimeoutId)
    requires ValidClock(c) && c.now <= target && id in Expiries(c.queue) && Expiries(c.queue)[id] <= target
    requires Untouched(h, id)
    ensures Firing(Expiries(c.queue)[id], id) in Advance(h, c, u, target, hw).fired
    decreases target - c.now, DueBy(c.queue, c.now)
  {
    hide Untouched, Unique, Fire;
    ArmedBound(c.queue, c.queue[0].expiry, id);
    if c.queue[0].id != id {
      var lag := if c.queue[0].expiry == target then hw else 0;
      FireProgress(h, c, u, lag);
      OtherFires(h, c, u, lag, id);
      var (c', u') := Fire(h, c, u, lag);
      FiresWhenDue(h, c', u', target, hw, id);
    }
  }

  lemma OtherFiresAhead<U(!new)>(h: Handler<U>, c: Clock, u: U, lag: nat, x: TimeoutId, y: TimeoutId)
    requires ValidClock(c) && Ahead(c.queue, x, y) && c.queue[0].id != x && Untouched(h, x) && Untouched(h, y)
    ensures Ahead(Fire(h, c, u, lag).0.queue, x, y)
  {
    var popped := Clock(c.queue[0].expiry, c.queue[1..]);
    assert ValidClock(popped);
    OthersKeepAhead(popped, h(u, popped, c.queue[0].id, lag).1, lag, x, y);
  }

  lemma FirstHead<U(!new)>(h: Handler<U>, c: Clock, u: U, lag: nat, x: TimeoutId, y: TimeoutId)
    requires ValidClock(c) && Ahead(c.queue, x, y) && x != y && c.queue[0].id == x && Untouched(h, y)
    ensures c.queue[0].expiry == Expiries(c.queue)[x]
    ensures var q' := Expiries(Fire(h, c, u, lag).0.queue);
            y in q' && y in Expiries(c.queue) && q'[y] == Expiries(c.queue)[y]
  {
    AheadPending(c.queue, x, y);
    OtherFires(h, c, u, lag, y);
  }

  lemma {:induction false} QueueOrderFires<U(!new)
    >(h: Handler<U>, c: Clock, u: U, target: int, hw: nat, x: TimeoutId, y: TimeoutId)
    requires ValidClock(c) && c.now <= target && Ahead(c.queue, x, y) && x != y && Untouched(h, x) && Untouched(h, y)
    requires x in Expiries(c.queue) && y in Expiries(c.queue) && Expiries(c.queue)[x] <= target
    requires Expiries(c.queue)[y] <= target
    ensures FiresBefore(Advance(h, c, u, target, hw).fired, Firing(Expiries(c.queue)[x], x),
                        Firing(Expiries(c.queue)[y], y))
    decreases target - c.now, DueBy(c.queue, c.now)
  {
    hide Untouched, Unique, Fire, Expiries;
    ArmedBound(c.queue, c.queue[0].expiry, x);
    var due := c.queue[0];
    var lag := if due.expiry == target then hw else 0;
    FireProgress(h, c, u, lag);
    var (c', u') := Fire(h, c, u, lag);
    var rest := Advance(h, c', u', target, hw);
    assert ([Firing(due.expiry, due.id)] + rest.fired)[1..] == rest.fired;
    if due.id == x {
      FirstHead(h, c, u, lag, x, y);
      FiresWhenDue(h, c', u', target, hw, y);
    } else {
      OtherFires(h, c, u, lag, x);
      OtherFires(h, c, u, lag, y);
      OtherFiresAhead(h, c, u, lag, x, y);
      QueueOrderFires(h, c', u', target, hw, x, y);
    }
  }

  /** First in, first out: a timeout armed while another is pending and due no
      later fires after it, whatever else is armed, aborted or fires in between,
      as long as no handler touches the two. */
  lemma FirstInFirstOut<U(!new)>(
      h: Handler<U>, c: Clock, u: U, x: TimeoutId, y: TimeoutId, ticks: int, lag: nat, others: seq<Call>, otherLag: nat,
          target: int, hw: nat)
    requires ValidClock(c) && x != y && x in Expiries(c.queue)
    requires Expiries(c.queue)[x] <= c.now + Max(1, ticks) + lag <= target
    requires forall i :: 0 <= i < |others| ==> others[i].id != x && others[i].id != y
    requires Untouched(h, x) && Untouched(h, y)
    ensures var c' := PerformAll(Perform(c, Start(y, ticks), lag), others, otherLag);
            && ValidClock(c') && c'.now == c.now
            && FiresBefore(Advance(h, c', u, target, hw).fired, Firing(Expiries(c.queue)[x], x),
                           Firing(c.now + Max(1, ticks) + lag, y))
  {
    hide Untouched, Expiries, Advance, Insert, Delete, Ahead, FiresBefore, SortedFrom, Unique;
    var e := Entry(y, c.now + Max(1, ticks) + lag);
    var c1 := Perform(c, Start(y, ticks), lag);
    PerformValid(c, Start(y, ticks), lag);
    PerformExpiries(c, Start(y, ticks), lag);
    DeleteValid(c.queue, y, c.now);
    DeleteExpiries(c.queue, y);
    InsertBehind(Delete(c.queue, y), e, c.now, x);
    PerformAllValid(c1, others, otherLag);
    OthersKeepAhead(c1, others, otherLag, x, y);
    OthersKeep(c1, others, otherLag, x);
    OthersKeep(c1, others, otherLag, y);
    QueueOrderFires(h, PerformAll(c1, others, otherLag), u, target, hw, x, y);
  }
}
