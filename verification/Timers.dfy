/**
 kernel/timer.c: one-shot and periodic timers on top of the timeout service.
 A periodic timer re-arms itself from its own expiry handler; the main results are
 that it does so without drift, however the ticks are batched and whatever the
 other timers and their expiry functions do, unless the driver has counted on by
 then; and that an expiry function has the last word on its own timer.
 */
module Timers {
  import opened Timeouts
  import TimeoutList
  import opened Wrappers

  const U32 := 0x1_0000_0000

  /** status is an unsigned 32-bit counter. */
  function Wrap(n: nat): nat { n % U32 }

  datatype Timer = Timer(period: nat, status: nat)

  /** What an expiry function may do to timers. */
  datatype TimerCall = StartTimer(id: TimeoutId, duration: nat, period: nat) | StopTimer(id: TimeoutId)

  /** All timers and the application's own state. */
  datatype Sys<V> = Sys(timers: map<TimeoutId, Timer>, user: V)

  type ExpiryFn<!V> = (V, Clock, TimeoutId, nat) -> (V, seq<TimerCall>)

  function Requests(calls: seq<TimerCall>): (r: seq<Call>)
    ensures |r| == |calls|
    ensures forall i :: 0 <= i < |calls| ==> r[i].id == calls[i].id
  {
    if calls == [] then []
    else [match calls[0]
          case StartTimer(id, duration, _) => Start(id, duration)
          case StopTimer(id) => Abort(id)] + Requests(calls[1..])
  }

  function Reset(timers: map<TimeoutId, Timer>, calls: seq<TimerCall>): map<TimeoutId, Timer>
    decreases |calls|
  {
    if calls == [] then timers
    else Reset(match calls[0]
               case StartTimer(id, _, period) => timers[id := Timer(period, 0)]
               case StopTimer(_) => timers, calls[1..])
  }

  function Rearm(id: TimeoutId, period: nat): seq<Call> {
    if period > 0 then [Start(id, period)] else []
  }

  /** z_timer_expiration_handler: re-arm when periodic, count the expiry, run the expiry function. */
  function Expire<V>(fn: ExpiryFn<V>, s: Sys<V>, view: Clock, id: TimeoutId, lag: nat): (Sys<V>, seq<Call>) {
    if id !in s.timers then (s, [])
    else
      var t := s.timers[id];
      var counted := s.timers[id := Timer(t.period, Wrap(t.status + 1))];
      var (v, calls) := fn(s.user, PerformAll(view, Rearm(id, t.period), lag), id, lag);
      (Sys(Reset(counted, calls), v), Rearm(id, t.period) + Requests(calls))
  }

  function Handle<V>(fn: ExpiryFn<V>): Handler<Sys<V>> {
    (s: Sys<V>, view: Clock, id: TimeoutId, lag: nat) => Expire(fn, s, view, id, lag)
  }

  /** No expiry function starts or stops timer id. */
  ghost predicate LeavesAlone<V(!new)>(fn: ExpiryFn<V>, id: TimeoutId) {
    forall v, view, other, lag, i ::
      0 <= i < |fn(v, view, other, lag).1| ==> fn(v, view, other, lag).1[i].id != id
  }

  // ---------------------------------------------------------------- when a timer should fire

  /** The ticks first, first + period, ... that are not after target. */
  ghost function Schedule(first: int, period: nat, target: int): seq<int>
    decreases target - first
  {
    if target < first then []
    else if period == 0 then [first]
    else [first] + Schedule(first + period, period, target)
  }

  ghost function FiringsOf(fired: seq<Firing>, id: TimeoutId): seq<int> {
    if fired == [] then []
    else (if fired[0].id == id then [fired[0].tick] else []) + FiringsOf(fired[1..], id)
  }

  /** The k-th scheduled tick is first + k * period, and k is scheduled exactly when that is not after
      target. */
  lemma {:induction false} ScheduleExact(first: int, period: nat, target: int)
    requires period > 0
    ensures forall k: nat :: k < |Schedule(first, period, target)| <==> first + k * period <= target
    ensures forall k: nat :: k < |Schedule(first, period, target)| ==>
        Schedule(first, period, target)[k] == first + k * period
    decreases target - first
  {
    var s := Schedule(first, period, target);
    if first <= target {
      ScheduleExact(first + period, period, target);
      var rest := Schedule(first + period, period, target);
      forall k: nat
        ensures k < |s| <==> first + k * period <= target
        ensures k < |s| ==> s[k] == first + k * period
      {
        if k > 0 {
          assert first + k * period == (first + period) + (k - 1) * period;
          assert k < |s| <==> k - 1 < |rest|;
          assert k < |s| ==> s[k] == rest[k - 1];
        }
      }
    } else {
      forall k: nat
        ensures target < first + k * period
      {
        assert 0 <= k * period;
      }
    }
  }

  // ---------------------------------------------------------------- other timeouts do not disturb one

  datatype Arm = Disarmed | Due(tick: int)

  ghost function ArmOf(q: seq<Entry>, id: TimeoutId): Arm {
    if id in Expiries(q) then Due(Expiries(q)[id]) else Disarmed
  }

  lemma PoppedArm(c: Clock, id: TimeoutId)
    requires ValidClock(c) && c.queue != []
    ensures ValidClock(Clock(c.queue[0].expiry, c.queue[1..]))
    ensures c.queue[0].id == id ==> ArmOf(c.queue, id) == Due(c.queue[0].expiry) && ArmOf(c.queue[1..], id) == Disarmed
    ensures c.queue[0].id != id ==> ArmOf(c.queue[1..], id) == ArmOf(c.queue, id)
  {
  }

  lemma {:induction false} PerformAppended(c: Clock, a: seq<Call>, b: seq<Call>, lag: nat)
    ensures PerformAll(c, a + b, lag) == PerformAll(PerformAll(c, a, lag), b, lag)
    decreases |a|
  {
    if a == [] {
      assert a + b == b;
    } else {
      assert (a + b)[1..] == a[1..] + b;
      PerformAppended(Perform(c, a[0], lag), a[1..], b, lag);
    }
  }

  // ---------------------------------------------------------------- expiry functions that start and stop timers

  /** The last call on timer x, if there is one. */
  function LastCall(calls: seq<TimerCall>, x: TimeoutId): Option<TimerCall> {
    if calls == [] then None
    else
      var later := LastCall(calls[1..], x);
      if later.Some? || calls[0].id != x then later else Some(calls[0])
  }

  /** The last start of timer x, if there is one. */
  function LastStart(calls: seq<TimerCall>, x: TimeoutId): Option<TimerCall> {
    if calls == [] then None
    else
      var later := LastStart(calls[1..], x);
      if later.Some? || calls[0].id != x || calls[0].StopTimer? then later else Some(calls[0])
  }

  /** What a call at tick now leaves of an arm. */
  ghost function Obeyed(arm: Arm, call: Option<TimerCall>, now: int, lag: nat): Arm {
    match call
    case None => arm
    case Some(StartTimer(_, duration, _)) => Due(now + Max(1, duration) + lag)
    case Some(StopTimer(_)) => Disarmed
  }

  function Found(timers: map<TimeoutId, Timer>, x: TimeoutId): Option<Timer> {
    if x in timers then Some(timers[x]) else None
  }

  lemma {:induction false} CallsObeyed(c: Clock, calls: seq<TimerCall>, lag: nat, x: TimeoutId)
    requires ValidClock(c)
    ensures ArmOf(PerformAll(c, Requests(calls), lag).queue, x)
         == Obeyed(ArmOf(c.queue, x), LastCall(calls, x), c.now, lag)
    decreases |calls|
  {
    if calls != [] {
      var r := Requests(calls);
      PerformValid(c, r[0], lag);
      PerformExpiries(c, r[0], lag);
      hide ValidClock, Perform, Expiries;
      CallsObeyed(Perform(c, r[0], lag), calls[1..], lag, x);
      assert r[1..] == Requests(calls[1..]);
    }
  }

  lemma {:induction false} ResetObeyed(timers: map<TimeoutId, Timer>, calls: seq<TimerCall>, x: TimeoutId)
    ensures Found(Reset(timers, calls), x)
         == match LastStart(calls, x)
            case Some(start) => Some(Timer(if start.StartTimer? then start.period else 0, 0))
            case None => Found(timers, x)
    decreases |calls|
  {
    if calls != [] {
      var timers' := match calls[0]
        case StartTimer(id, _, period) => timers[id := Timer(period, 0)]
        case StopTimer(_) => timers;
      ResetObeyed(timers', calls[1..], x);
    }
  }

  /** The clock an expiry function sees: its own timer is armed again if it is periodic. */
  function Seen(c: Clock, period: nat, lag: nat): Clock
    requires c.queue != []
  {
    var popped := Clock(c.queue[0].expiry, c.queue[1..]);
    if period == 0 then popped else Perform(popped, Start(c.queue[0].id, period), lag)
  }

  lemma SeenArm(c: Clock, period: nat, lag: nat, x: TimeoutId)
    requires ValidClock(c) && c.queue != []
    ensures ValidClock(Seen(c, period, lag)) && Seen(c, period, lag).now == c.queue[0].expiry
    ensures ArmOf(Seen(c, period, lag).queue, x)
         == if c.queue[0].id != x then ArmOf(c.queue, x)
            else if period == 0 then Disarmed
            else Due(c.queue[0].expiry + period + lag)
  {
    PoppedArm(c, x);
    var popped := Clock(c.queue[0].expiry, c.queue[1..]);
    if period > 0 {
      PerformValid(popped, Start(c.queue[0].id, period), lag);
      PerformExpiries(popped, Start(c.queue[0].id, period), lag);
    }
    hide Perform, SortedFrom, Unique;
  }

  /** One firing, for every expiry function and seen from every timer x: the timer that fires is armed
      again and counted before its expiry function runs, so that what that function did last to x
      stands: started, x is due that long from now, with the new period and its count at 0; stopped, it
      is disarmed; untouched, it is as it was, or a period on if it is the one that fired. */
  lemma FiringObeys<V(!new)>(fn: ExpiryFn<V>, s: Sys<V>, c: Clock, lag: nat, x: TimeoutId)
    requires ValidClock(c) && c.queue != [] && c.queue[0].id in s.timers
    ensures var (c', s') := Fire(Handle(fn), c, s, lag);
            var id, now, t := c.queue[0].id, c.queue[0].expiry, s.timers[c.queue[0].id];
            var (v, calls) := fn(s.user, Seen(c, t.period, lag), id, lag);
            && s'.user == v
            && ArmOf(c'.queue, x)
               == Obeyed(if id != x then ArmOf(c.queue, x)
                         else if t.period == 0 then Disarmed
                         else Due(now + t.period + lag),
                         LastCall(calls, x), now, lag)
            && Found(s'.timers, x)
               == match LastStart(calls, x)
                  case Some(start) => Some(Timer(if start.StartTimer? then start.period else 0, 0))
                  case None => if id == x then Some(Timer(t.period, Wrap(t.status + 1))) else Found(s.timers, x)
  {
    var due := c.queue[0];
    var t := s.timers[due.id];
    var popped, rearm := Clock(due.expiry, c.queue[1..]), Rearm(due.id, t.period);
    assert PerformAll(popped, rearm, lag) == Seen(c, t.period, lag) by {
      if t.period > 0 {
        assert rearm[1..] == [];
      }
    }
    var calls := fn(s.user, Seen(c, t.period, lag), due.id, lag).1;
    hide PerformAll, Seen, ValidClock, Reset, Requests, ArmOf;
    SeenArm(c, t.period, lag, x);
    PerformAppended(popped, rearm, Requests(calls), lag);
    CallsObeyed(Seen(c, t.period, lag), calls, lag, x);
    ResetObeyed(s.timers[due.id := Timer(t.period, Wrap(t.status + 1))], calls, x);
  }

  lemma {:induction false} NoCall(calls: seq<TimerCall>, x: TimeoutId)
    requires forall i :: 0 <= i < |calls| ==> calls[i].id != x
    ensures LastCall(calls, x) == None && LastStart(calls, x) == None
  {
    if calls != [] {
      NoCall(calls[1..], x);
    }
  }

  /** One firing, seen from a timer id that no expiry function touches: its own re-arms it a period
      later, and later still by the driver's lag, and counts; anyone else's leaves it as it was. */
  lemma OneFiring<V(!new)>(fn: ExpiryFn<V>, s: Sys<V>, c: Clock, id: TimeoutId, lag: nat)
    requires ValidClock(c) && c.queue != [] && id in s.timers && LeavesAlone(fn, id)
    ensures var (c', s') := Fire(Handle(fn), c, s, lag);
            var t, own := s.timers[id], c.queue[0].id == id;
            && id in s'.timers
            && s'.timers[id] == (if own then Timer(t.period, Wrap(t.status + 1)) else t)
            && ArmOf(c'.queue, id) == (if !own then ArmOf(c.queue, id)
                                       else if t.period > 0 then Due(c.queue[0].expiry + t.period + lag)
                                       else Disarmed)
            && (own ==> ArmOf(c.queue, id) == Due(c.queue[0].expiry))
  {
    var due := c.queue[0];
    PoppedArm(c, id);
    if due.id in s.timers {
      FiringObeys(fn, s, c, lag, id);
      NoCall(fn(s.user, Seen(c, s.timers[due.id].period, lag), due.id, lag).1, id);
      hide Fire, ValidClock, Seen, ArmOf;
    }
  }

  /** No expiry function starts timer x; they may stop it. */
  ghost predicate NeverStarts<V(!new)>(fn: ExpiryFn<V>, x: TimeoutId) {
    forall v, view, other, lag :: LastStart(fn(v, view, other, lag).1, x) == None
  }

  lemma {:induction false} OnlyStops(calls: seq<TimerCall>, x: TimeoutId)
    requires LastStart(calls, x) == None
    ensures LastCall(calls, x).Some? ==> LastCall(calls, x).value.StopTimer?
  {
    if calls != [] {
      OnlyStops(calls[1..], x);
    }
  }

  /** A disarmed timer that nobody starts stays silent. */
  lemma {:induction false} StaysSilent<V(!new)
    >(fn: ExpiryFn<V>, s: Sys<V>, c: Clock, x: TimeoutId, target: int, hw: nat)
    requires ValidClock(c) && c.now <= target && NeverStarts(fn, x) && ArmOf(c.queue, x) == Disarmed
    ensures var r := Advance(Handle(fn), c, s, target, hw);
            && FiringsOf(r.fired, x) == [] && ArmOf(r.clock.queue, x) == Disarmed
            && Found(r.user.timers, x) == Found(s.timers, x)
    decreases target - c.now, DueBy(c.queue, c.now)
  {
    hide ArmOf, ValidClock, NeverStarts, Seen, Fire, LastStart, LastCall;
    if c.queue == [] || target < c.queue[0].expiry {
      AdvanceDone(Handle(fn), c, s, target, hw, []);
      PrependNone(Advance(Handle(fn), c, s, target, hw));
    } else {
      var lag := if c.queue[0].expiry == target then hw else 0;
      AdvanceUnfold(Handle(fn), c, s, target, hw, []);
      HeadNotPast(c);
      FireProgress(Handle(fn), c, s, lag);
      SilentFiring(fn, s, c, lag, x);
      var (c', s') := Fire(Handle(fn), c, s, lag);
      StaysSilent(fn, s', c', x, target, hw);
      var due, rest := c.queue[0], Advance(Handle(fn), c', s', target, hw);
      PrependNone(Advance(Handle(fn), c, s, target, hw));
      assert [] + [Firing(due.expiry, due.id)] == [Firing(due.expiry, due.id)];
      assert ([Firing(due.expiry, due.id)] + rest.fired)[1..] == rest.fired;
    }
  }

  lemma PrependNone<U>(r: Outcome<U>)
    ensures Prepend([], r) == r
  {
    assert [] + r.fired == r.fired;
  }

  /** The firing of another timer, or of a timeout that is no timer. */
  lemma SilentFiring<V(!new)>(fn: ExpiryFn<V>, s: Sys<V>, c: Clock, lag: nat, x: TimeoutId)
    requires ValidClock(c) && c.queue != [] && NeverStarts(fn, x) && ArmOf(c.queue, x) == Disarmed
    ensures var (c', s') := Fire(Handle(fn), c, s, lag);
            c.queue[0].id != x && ArmOf(c'.queue, x) == Disarmed && Found(s'.timers, x) == Found(s.timers, x)
  {
    PoppedArm(c, x);
    hide ArmOf, ValidClock, Seen;
    if c.queue[0].id in s.timers {
      FiringObeys(fn, s, c, lag, x);
      var t := s.timers[c.queue[0].id];
      OnlyStops(fn(s.user, Seen(c, t.period, lag), c.queue[0].id, lag).1, x);
      hide Fire;
    }
  }

  /** A timer stopped in its own expiry function has fired for the last time, periodic or not. */
  lemma StoppedByItself<V(!new)>(fn: ExpiryFn<V>, s: Sys<V>, c: Clock, target: int, hw: nat)
    requires ValidClock(c) && c.now <= target && c.queue != [] && c.queue[0].expiry <= target
    requires c.queue[0].id in s.timers && NeverStarts(fn, c.queue[0].id)
    requires var x, t, lag := c.queue[0].id, s.timers[c.queue[0].id], if c.queue[0].expiry == target then hw else 0;
             LastCall(fn(s.user, Seen(c, t.period, lag), x, lag).1, x) == Some(StopTimer(x))
    ensures var x, t, r := c.queue[0].id, s.timers[c.queue[0].id], Advance(Handle(fn), c, s, target, hw);
            && FiringsOf(r.fired, x) == [c.queue[0].expiry] && ArmOf(r.clock.queue, x) == Disarmed
            && Found(r.user.timers, x) == Some(Timer(t.period, Wrap(t.status + 1)))
  {
    hide ArmOf, ValidClock, NeverStarts, Seen, Fire, LastStart, LastCall;
    var due, lag := c.queue[0], if c.queue[0].expiry == target then hw else 0;
    AdvanceUnfold(Handle(fn), c, s, target, hw, []);
    FiringObeys(fn, s, c, lag, due.id);
    var (c', s') := Fire(Handle(fn), c, s, lag);
    assert LastStart(fn(s.user, Seen(c, s.timers[due.id].period, lag), due.id, lag).1, due.id) == None by {
      assert NeverStarts(fn, due.id);
      NoStart(fn, due.id, s.user, Seen(c, s.timers[due.id].period, lag), due.id, lag);
    }
    StaysSilent(fn, s', c', due.id, target, hw);
    var rest := Advance(Handle(fn), c', s', target, hw);
    PrependNone(Advance(Handle(fn), c, s, target, hw));
    assert [] + [Firing(due.expiry, due.id)] == [Firing(due.expiry, due.id)];
    assert ([Firing(due.expiry, due.id)] + rest.fired)[1..] == rest.fired;
    assert [due.expiry] + [] == [due.expiry];
  }

  lemma NoStart<V(!new)>(fn: ExpiryFn<V>, x: TimeoutId, v: V, view: Clock, other: TimeoutId, lag: nat)
    requires NeverStarts(fn, x)
    ensures LastStart(fn(v, view, other, lag).1, x) == None
  {
  }

  // ---------------------------------------------------------------- no drift

  lemma {:induction false} NeverFires<V(!new)
    >(fn: ExpiryFn<V>, s: Sys<V>, c: Clock, id: TimeoutId, target: int, hw: nat)
    requires ValidClock(c) && c.now <= target && id in s.timers && LeavesAlone(fn, id)
    requires ArmOf(c.queue, id) == Disarmed
    ensures var r := Advance(Handle(fn), c, s, target, hw);
            FiringsOf(r.fired, id) == [] && id in r.user.timers && r.user.timers[id] == s.timers[id]
    decreases target - c.now, DueBy(c.queue, c.now)
  {
    if c.queue != [] && c.queue[0].expiry <= target {
      var lag := if c.queue[0].expiry == target then hw else 0;
      FireProgress(Handle(fn), c, s, lag);
      OneFiring(fn, s, c, id, lag);
      var (c', s') := Fire(Handle(fn), c, s, lag);
      NeverFires(fn, s', c', id, target, hw);
    }
  }

  /** What an advance must have done to timer id, as it was before with status t. */
  ghost predicate Kept<V>(r: Outcome<Sys<V>>, id: TimeoutId, t: Timer, due: seq<int>) {
    FiringsOf(r.fired, id) == due && id in r.user.timers && r.user.timers[id] == Timer(t.period, Wrap(t.status + |due|))
  }

  lemma KeptLater<V>(r: Outcome<Sys<V>>, id: TimeoutId, t: Timer, due: seq<int>, f: Firing)
    requires Kept(r, id, if f.id == id then Timer(t.period, Wrap(t.status + 1)) else t, due)
    ensures Kept(Prepend([f], r), id, t, if f.id == id then [f.tick] + due else due)
  {
    assert ([f] + r.fired)[1..] == r.fired;
    CountOneMore(t.status, |due|);
  }

  /** Over one advance an armed timer fires exactly at its scheduled ticks and counts each of them, however
      late the driver is. */
  lemma {:induction false} FiresOnSchedule<V(!new)
    >(fn: ExpiryFn<V>, s: Sys<V>, c: Clock, id: TimeoutId, first: int, target: int, hw: nat)
    requires ValidClock(c) && c.now <= target && id in s.timers && LeavesAlone(fn, id)
    requires ArmOf(c.queue, id) == Due(first) && s.timers[id].status < U32
    ensures Kept(Advance(Handle(fn), c, s, target, hw), id, s.timers[id], Schedule(first, s.timers[id].period, target))
    decreases target - c.now, DueBy(c.queue, c.now)
  {
    hide *;
    var t := s.timers[id];
    if c.queue == [] || target < c.queue[0].expiry {
      NothingFires(fn, s, c, id, first, target, hw);
    } else {
      var lag := if c.queue[0].expiry == target then hw else 0;
      AdvanceUnfold(Handle(fn), c, s, target, hw, []);
      OneFiring(fn, s, c, id, lag);
      HeadNotPast(c);
      var due := c.queue[0];
      var (c', s') := Fire(Handle(fn), c, s, lag);
      var r := Advance(Handle(fn), c', s', target, hw);
      ScheduleUnfold(first, t.period, target);
      CountOneMore(t.status, 0);
      var later := [];
      if due.id == id && t.period == 0 {
        NeverFires(fn, s', c', id, target, hw);
        NeverKept(r, id, s'.timers[id]);
      } else {
        var next := if due.id == id then first + t.period + lag else first;
        FiresOnSchedule(fn, s', c', id, next, target, hw);
        ScheduleUnfold(next, t.period, target);
        ScheduleUnfold(first + t.period, t.period, target);
        later := Schedule(next, t.period, target);
      }
      KeptLater(r, id, t, later, Firing(due.expiry, due.id));
      PrependTwice([], [], Advance(Handle(fn), c, s, target, hw));
      assert [] + [Firing(due.expiry, due.id)] == [Firing(due.expiry, due.id)];
      assert Advance(Handle(fn), c, s, target, hw) == Prepend([Firing(due.expiry, due.id)], r);
      assert Schedule(first, t.period, target) == if due.id == id then [due.expiry] + later else later;
    }
  }

  lemma HeadNotPast(c: Clock)
    requires ValidClock(c) && c.queue != []
    ensures c.now <= c.queue[0].expiry
  {
  }

  lemma ScheduleUnfold(first: int, period: nat, target: int)
    ensures Schedule(first, period, target)
         == if target < first then []
            else if period == 0 then [first]
            else [first] + Schedule(first + period, period, target)
    ensures [first] + [] == [first]
  {
  }

  lemma NothingFires<V>(fn: ExpiryFn<V>, s: Sys<V>, c: Clock, id: TimeoutId, first: int, target: int, hw: nat)
    requires ValidClock(c) && c.now <= target && id in s.timers
    requires ArmOf(c.queue, id) == Due(first) && s.timers[id].status < U32
    requires c.queue == [] || target < c.queue[0].expiry
    ensures Kept(Advance(Handle(fn), c, s, target, hw), id, s.timers[id], Schedule(first, s.timers[id].period, target))
  {
    NothingDue(c, id, first, target);
    CountOneMore(s.timers[id].status, 0);
  }

  lemma NeverKept<V>(r: Outcome<Sys<V>>, id: TimeoutId, t: Timer)
    requires FiringsOf(r.fired, id) == [] && id in r.user.timers && r.user.timers[id] == t && t.status < U32
    ensures Kept(r, id, t, [])
  {
    CountOneMore(t.status, 0);
  }

  lemma NothingDue(c: Clock, id: TimeoutId, first: int, target: int)
    requires ValidClock(c) && ArmOf(c.queue, id) == Due(first)
    requires c.queue == [] || target < c.queue[0].expiry
    ensures target < first
  {
    ArmedBound(c.queue, c.queue[0].expiry, id);
  }

  lemma CountOneMore(status: nat, n: nat)
    ensures Wrap(Wrap(status + 1) + n) == Wrap(status + (n + 1)) && Wrap(status + 1) < U32
    ensures status < U32 ==> Wrap(status + 0) == status
  {
    assert status + 1 == ((status + 1) / U32) * U32 + Wrap(status + 1);
    WholeTurns(Wrap(status + 1) + n, (status + 1) / U32);
  }

  lemma {:induction false} WholeTurns(n: nat, turns: nat)
    ensures Wrap(turns * U32 + n) == Wrap(n)
  {
    if turns > 0 {
      WholeTurns(n, turns - 1);
      OneTurn((turns - 1) * U32 + n);
    }
  }

  lemma OneTurn(n: nat)
    ensures Wrap(n + U32) == Wrap(n)
  {
  }

  lemma Started(c: Clock, id: TimeoutId, duration: nat, lag: nat)
    requires ValidClock(c) && SortedFrom(c.queue, c.now + 1)
    ensures var c' := Perform(c, Start(id, duration), lag);
            && c'.now == c.now && ValidClock(c') && SortedFrom(c'.queue, c.now + 1)
            && ArmOf(c'.queue, id) == Due(c.now + lag + Max(1, duration))
  {
    PerformValid(c, Start(id, duration), lag);
    PerformExpiries(c, Start(id, duration), lag);
    DeleteValid(c.queue, id, c.now + 1);
    DeleteExpiries(c.queue, id);
    InsertValid(Delete(c.queue, id), Entry(id, c.now + lag + Max(1, duration)), c.now + 1);
  }

  /** The promise of a timer: started with a duration and a period and left alone, then after any run of
      announcements its status is the number of k with start + max(1, duration) + k * period not after
      now, and it has fired at exactly those ticks. */
  lemma NoDrift<V(!new)
    >(fn: ExpiryFn<V>, s: Sys<V>, c: Clock, id: TimeoutId, duration: nat, period: nat, lag: nat, ticks: seq<nat>)
    requires ValidClock(c) && SortedFrom(c.queue, c.now + 1) && LeavesAlone(fn, id) && period > 0
    ensures var c' := Perform(c, Start(id, duration), lag);
            ValidClock(c') &&
            var r := AdvanceAll(Handle(fn), c', s.(timers := s.timers[id := Timer(period, 0)]), ticks);
            var first, now := c.now + lag + Max(1, duration), c.now + Total(ticks);
            var due := FiringsOf(r.fired, id);
            && r.clock.now == now
            && id in r.user.timers && r.user.timers[id].status == Wrap(|due|)
            && (forall k: nat :: k < |due| <==> first + k * period <= now)
            && (forall k: nat :: k < |due| ==> due[k] == first + k * period)
  {
    hide Advance, AdvanceAll, Schedule, FiringsOf, ValidClock, SortedFrom, Perform, LeavesAlone, ArmOf;
    var c' := Perform(c, Start(id, duration), lag);
    var s' := s.(timers := s.timers[id := Timer(period, 0)]);
    var first, now := c.now + lag + Max(1, duration), c.now + Total(ticks);
    Started(c, id, duration, lag);
    AnyBatching(Handle(fn), c', s', ticks);
    SurvivorsInFuture(Handle(fn), c', s', now, 0);
    FiresOnSchedule(fn, s', c', id, first, now, 0);
    assert Wrap(0 + |Schedule(first, period, now)|) == Wrap(|Schedule(first, period, now)|);
    ScheduleExact(first, period, now);
  }

  // ---------------------------------------------------------------- reading the status

  lemma {:induction false} ScheduleSplit(first: int, period: nat, from: int, upto: int)
    requires period > 0 && from <= upto
    ensures var n := |Schedule(first, period, from)|;
            && from < first + n * period
            && Schedule(first, period, upto) == Schedule(first, period, from) + Schedule(first + n * period, period,
                upto)
    decreases upto - first
  {
    hide Schedule;
    ScheduleUnfold(first, period, from);
    ScheduleUnfold(first, period, upto);
    if first <= from {
      ScheduleSplit(first + period, period, from, upto);
      var head := Schedule(first + period, period, from);
      var n := |head|;
      assert first + period + n * period == first + (n + 1) * period;
      assert [first] + (head + Schedule(first + period + n * period, period, upto))
          == ([first] + head) + Schedule(first + period + n * period, period, upto);
    } else {
      assert [] + Schedule(first, period, upto) == Schedule(first, period, upto);
    }
  }

  /** When a periodic timer is due next, once time has come to target: at the next tick of its schedule, and later by
      the driver's lag exactly if it fired at target itself. */
  lemma {:induction false} ArmedNext<V(!new)
    >(fn: ExpiryFn<V>, s: Sys<V>, c: Clock, id: TimeoutId, first: int, target: int, hw: nat)
    requires ValidClock(c) && c.now <= target && id in s.timers && LeavesAlone(fn, id)
    requires ArmOf(c.queue, id) == Due(first) && s.timers[id].period > 0
    ensures var period := s.timers[id].period;
            var n := |Schedule(first, period, target)|;
            ArmOf(Advance(Handle(fn), c, s, target, hw).clock.queue, id)
            == Due(first + n * period + if n > 0 && first + (n - 1) * period == target then hw else 0)
    decreases target - c.now, DueBy(c.queue, c.now)
  {
    hide *;
    var period := s.timers[id].period;
    ScheduleUnfold(first, period, target);
    if c.queue == [] || target < c.queue[0].expiry {
      NothingDue(c, id, first, target);
      AdvanceDone(Handle(fn), c, s, target, hw, []);
      PrependTwice([], [], Advance(Handle(fn), c, s, target, hw));
    } else {
      var lag := if c.queue[0].expiry == target then hw else 0;
      AdvanceUnfold(Handle(fn), c, s, target, hw, []);
      OneFiring(fn, s, c, id, lag);
      HeadNotPast(c);
      var own := c.queue[0].id == id;
      var (c', s') := Fire(Handle(fn), c, s, lag);
      var next := if own then first + period + lag else first;
      ArmedNext(fn, s', c', id, next, target, hw);
      if own {
        NextIsSame(first, period, target, hw);
      }
      PrependClock([], Advance(Handle(fn), c, s, target, hw));
      PrependClock([] + [Firing(c.queue[0].expiry, c.queue[0].id)], Advance(Handle(fn), c', s', target, hw));
    }
  }

  lemma PrependClock<U>(fired: seq<Firing>, r: Outcome<U>)
    ensures Prepend(fired, r).clock == r.clock
  {
  }

  lemma NextIsSame(first: int, period: nat, target: int, hw: nat)
    requires period > 0 && first <= target
    ensures var lag := if first == target then hw else 0;
            var next := first + period + lag;
            var n, k := |Schedule(next, period, target)|, |Schedule(first, period, target)|;
            next + n * period + (if n > 0 && next + (n - 1) * period == target then hw else 0)
            == first + k * period + if k > 0 && first + (k - 1) * period == target then hw else 0
  {
    if first == target {
      assert Schedule(first + period + hw, period, target) == [] == Schedule(first + period, period, target);
    } else {
      var n := |Schedule(first + period, period, target)|;
      assert |Schedule(first, period, target)| == n + 1;
      assert first + period + n * period == first + (n + 1) * period;
      assert n > 0 ==> first + period + (n - 1) * period == first + n * period;
    }
  }

  /** What k_timer_status_get returns when it is called after each announcement: the count so far, which
      it also resets. */
  ghost function Reads<V>(fn: ExpiryFn<V>, s: Sys<V>, c: Clock, id: TimeoutId, ticks: seq<nat>): seq<nat>
    requires ValidClock(c)
    decreases |ticks|
  {
    if ticks == [] then []
    else
      SurvivorsInFuture(Handle(fn), c, s, c.now + ticks[0], 0);
      var r := Advance(Handle(fn), c, s, c.now + ticks[0], 0);
      if id !in r.user.timers then []
      else
        var t := r.user.timers[id];
        [t.status] + Reads(fn, r.user.(timers := r.user.timers[id := Timer(t.period, 0)]), r.clock, id, ticks[1..])
  }

  /** Each read returns exactly the expiries since the read before it (modulo 2^32): none is lost and
      none is counted twice. */
  lemma {:induction false} ReadsAddUp<V(!new)
    >(fn: ExpiryFn<V>, s: Sys<V>, c: Clock, id: TimeoutId, first: int, ticks: seq<nat>, k: nat)
    requires ValidClock(c) && LeavesAlone(fn, id) && id in s.timers && s.timers[id].status == 0
    requires s.timers[id].period > 0
    requires ArmOf(c.queue, id) == Due(first) && c.now < first && k < |ticks|
    ensures var period, got := s.timers[id].period, Reads(fn, s, c, id, ticks);
            && |got| == |ticks|
            && got[k] == (|Schedule(first, period, c.now + Total(ticks[..k + 1]))| - |Schedule(first, period,
                c.now + Total(ticks[..k]))|) % U32
    decreases |ticks|
  {
    hide ValidClock, LeavesAlone, ArmOf, Schedule, Advance, FiringsOf;
    var period, now := s.timers[id].period, c.now + ticks[0];
    SurvivorsInFuture(Handle(fn), c, s, now, 0);
    FiresOnSchedule(fn, s, c, id, first, now, 0);
    ArmedNext(fn, s, c, id, first, now, 0);
    ScheduleSplit(first, period, now, now);
    ScheduleUnfold(first, period, c.now);
    var r := Advance(Handle(fn), c, s, now, 0);
    var n := |Schedule(first, period, now)|;
    var s' := r.user.(timers := r.user.timers[id := Timer(period, 0)]);
    var got' := Reads(fn, s', r.clock, id, ticks[1..]);
    assert Reads(fn, s, c, id, ticks) == [Wrap(n)] + got';
    if k == 0 {
      assert ticks[..1][0] == ticks[0] && ticks[..1][1..] == [] && ticks[..0] == [];
      assert Total(ticks[..1]) == ticks[0] + Total([]);
      if |ticks| > 1 {
        ReadsAddUp(fn, s', r.clock, id, first + n * period, ticks[1..], 0);
      }
    } else {
      ReadsAddUp(fn, s', r.clock, id, first + n * period, ticks[1..], k - 1);
      assert ticks[1..][..k] == ticks[..k + 1][1..] && ticks[1..][..k - 1] == ticks[..k][1..];
      ScheduleSplit(first, period, now, now + Total(ticks[1..][..k]));
      ScheduleSplit(first, period, now, now + Total(ticks[1..][..k - 1]));
    }
  }

  // ---------------------------------------------------------------- the kernel's timers

  class TimerService {
    const queue: TimeoutList.TimeoutQueue
    var timers: map<TimeoutId, Timer>

    constructor (q: TimeoutList.TimeoutQueue)
      ensures queue == q && timers == map[]
    {
      queue, timers := q, map[];
    }

    /** z_impl_k_timer_start, its times already in ticks. */
    method TimerStart(id: TimeoutId, duration: nat, period: nat, hw: nat)
      requires queue.Valid() && (duration != 0 || period != 0)
      modifies this, queue
      ensures queue.Valid() && queue.View() == Perform(old(queue.View()), Start(id, duration), old(queue.Elapsed(hw)))
      ensures timers == old(timers)[id := Timer(period, 0)]
    {
      ghost var before := queue.View();
      TimeoutList.AbsoluteValid(queue.currTick, queue.list);
      var ret := queue.AbortTimeout(id);
      TimeoutList.AbortedIsUnlinked(before, queue.list, id);
      TimeoutList.Unlinked(queue.currTick, queue.list, id);
      timers := timers[id := Timer(period, 0)];
      queue.Add(id, duration, hw);
    }

    /** z_impl_k_timer_stop: stopping an inactive timer has no effect. */
    method TimerStop(id: TimeoutId) returns (stopped: bool)
      requires queue.Valid()
      modifies queue
      ensures queue.Valid() && queue.View() == Perform(old(queue.View()), Abort(id), 0)
      ensures stopped <==> id in Expiries(old(queue.View()).queue)
    {
      var ret := queue.AbortTimeout(id);
      stopped := ret == 0;
    }

    /** z_impl_k_timer_status_get. */
    method StatusGet(id: TimeoutId) returns (status: nat)
      requires id in timers
      modifies this
      ensures status == old(timers)[id].status
      ensures timers == old(timers)[id := Timer(old(timers)[id].period, 0)]
    {
      status := timers[id].status;
      timers := timers[id := Timer(timers[id].period, 0)];
    }

    /** A tick interrupt reaches the timers. */
    method Tick<V>(fn: ExpiryFn<V>, user: V, ticks: nat, hw: nat) returns (user': V, fired: seq<Firing>)
      requires queue.Valid() && queue.announceRemaining == 0
      modifies this, queue
      ensures queue.Valid() && queue.announceRemaining == 0 && queue.WakesInTime()
      ensures ValidClock(old(queue.View()))
      ensures Outcome(queue.View(), Sys(timers, user'), fired)
           == Advance(Handle(fn), old(queue.View()), Sys(old(timers), user), old(queue.currTick) + ticks, hw)
    {
      var s;
      s, fired := queue.Announce(Handle(fn), Sys(timers, user), ticks, hw);
      timers, user' := s.timers, s.user;
    }
  }
}
