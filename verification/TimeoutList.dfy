/**
 kernel/timeout.c: the timeout list, in which every node stores only the ticks
 by which it follows the node before it, and the announcement loop over it.
 Each operation is proved to be the corresponding one on absolute expiries.
 */
module TimeoutList {
  import opened Timeouts

  const EINVAL := 22

  /** MAX_WAIT without sloppy idle: the driver may sleep as long as it can count. */
  const INT_MAX := 0x7fff_ffff

  datatype Node = Node(id: TimeoutId, dticks: int)

  // ---------------------------------------------------------------- the delta form

  function Absolute(now: int, list: seq<Node>): (q: seq<Entry>)
    ensures |q| == |list|
    decreases |list|
  {
    if list == [] then []
    else
      var expiry := now + list[0].dticks;
      [Entry(list[0].id, expiry)] + Absolute(expiry, list[1..])
  }

  function InsertDelta(list: seq<Node>, id: TimeoutId, dticks: int): seq<Node> {
    if list == [] then [Node(id, dticks)]
    else if list[0].dticks > dticks then
      [Node(id, dticks), Node(list[0].id, list[0].dticks - dticks)] + list[1..]
    else [list[0]] + InsertDelta(list[1..], id, dticks - list[0].dticks)
  }

  function InsertBeyond(passed: seq<Node>, rest: seq<Node>, id: TimeoutId, dticks: int): seq<Node> {
    passed + InsertDelta(rest, id, dticks)
  }

  lemma InsertBeyondHead(passed: seq<Node>, rest: seq<Node>, id: TimeoutId, dticks: int)
    requires rest != [] && rest[0].dticks <= dticks
    ensures InsertBeyond(passed, rest, id, dticks) == InsertBeyond(passed + [rest[0]], rest[1..], id,
                                                                   dticks - rest[0].dticks)
  {
  }

  /** remove_timeout: the follower inherits the removed node's ticks. */
  function RemoveAt(list: seq<Node>, i: nat): seq<Node>
    requires i < |list|
  {
    if i > 0 then [list[0]] + RemoveAt(list[1..], i - 1)
    else if |list| == 1 then []
    else [Node(list[1].id, list[1].dticks + list[0].dticks)] + list[2..]
  }

  ghost function Links(list: seq<Node>): set<TimeoutId> {
    if list == [] then {} else {list[0].id} + Links(list[1..])
  }

  /** The node's place, or the length of the list when it is not linked. */
  function IndexOf(list: seq<Node>, id: TimeoutId): (i: nat)
    ensures i <= |list|
    ensures i < |list| ==> list[i].id == id
    ensures i < |list| <==> id in Links(list)
  {
    if list == [] || list[0].id == id then 0 else 1 + IndexOf(list[1..], id)
  }

  ghost predicate ValidList(list: seq<Node>) {
    list == [] || (0 <= list[0].dticks && list[0].id !in Links(list[1..]) && ValidList(list[1..]))
  }

  function SumTo(list: seq<Node>, n: nat): int
    requires n <= |list|
  {
    if n == 0 then 0 else SumTo(list, n - 1) + list[n - 1].dticks
  }

  // ---------------------------------------------------------------- the delta form refines absolute expiries

  lemma {:induction false} SumToTail(list: seq<Node>, n: nat)
    requires 0 < n <= |list|
    ensures SumTo(list, n) == list[0].dticks + SumTo(list[1..], n - 1)
  {
    if n > 1 {
      SumToTail(list, n - 1);
    }
  }

  /** A node's expiry is the prefix sum of the deltas up to it. */
  lemma {:induction false} AbsoluteAt(now: int, list: seq<Node>, i: nat)
    requires i < |list|
    ensures Absolute(now, list)[i] == Entry(list[i].id, now + SumTo(list, i + 1))
    decreases |list|
  {
    SumToTail(list, i + 1);
    if i > 0 {
      AbsoluteAt(now + list[0].dticks, list[1..], i - 1);
    }
  }

  lemma {:induction false} AbsoluteValid(now: int, list: seq<Node>)
    requires ValidList(list)
    ensures ValidClock(Clock(now, Absolute(now, list)))
    ensures Expiries(Absolute(now, list)).Keys == Links(list)
    decreases |list|
  {
    if list != [] {
      AbsoluteValid(now + list[0].dticks, list[1..]);
    }
  }

  /** Moving d ticks from the clock into the head delta changes no expiry. */
  lemma AbsoluteShift(now: int, list: seq<Node>, d: int)
    ensures Absolute(now + d, if list == [] then list else [Node(list[0].id, list[0].dticks - d)] + list[1..])
         == Absolute(now, list)
  {
  }

  lemma {:induction false} InsertRefines(now: int, list: seq<Node>, id: TimeoutId, dticks: int)
    ensures Absolute(now, InsertDelta(list, id, dticks)) == Insert(Absolute(now, list), Entry(id, now + dticks))
    decreases |list|
  {
    var list', q := InsertDelta(list, id, dticks), Absolute(now, list);
    if list == [] {
    } else if list[0].dticks > dticks {
      var rest := [Node(list[0].id, list[0].dticks - dticks)] + list[1..];
      assert list'[1..] == rest;
      AbsoluteShift(now, list, dticks);
    } else {
      InsertRefines(now + list[0].dticks, list[1..], id, dticks - list[0].dticks);
      assert list'[1..] == InsertDelta(list[1..], id, dticks - list[0].dticks);
      assert q[1..] == Absolute(now + list[0].dticks, list[1..]);
    }
  }

  lemma InsertDeltaHead(list: seq<Node>, id: TimeoutId, dticks: int)
    ensures var list' := InsertDelta(list, id, dticks);
            list' != [] && (list'[0].id != id ==> list != [] && list'[0] == list[0])
  {
  }

  lemma {:induction false} RemoveRefines(now: int, list: seq<Node>, id: TimeoutId)
    requires id in Links(list)
    ensures Absolute(now, RemoveAt(list, IndexOf(list, id))) == Delete(Absolute(now, list), id)
    decreases |list|
  {
    var list', q := RemoveAt(list, IndexOf(list, id)), Absolute(now, list);
    assert q[1..] == Absolute(now + list[0].dticks, list[1..]);
    if list[0].id != id {
      RemoveRefines(now + list[0].dticks, list[1..], id);
      assert list'[1..] == RemoveAt(list[1..], IndexOf(list[1..], id));
    } else if |list| > 1 {
      assert list'[1..] == list[2..] == list[1..][1..];
    }
  }

  lemma {:induction false} RemoveValid(list: seq<Node>, id: TimeoutId)
    requires ValidList(list) && id in Links(list)
    ensures var list' := RemoveAt(list, IndexOf(list, id));
            && ValidList(list') && Links(list') == Links(list) - {id}
            && (list' != [] ==> list[0].dticks <= list'[0].dticks)
  {
    var list' := RemoveAt(list, IndexOf(list, id));
    if list[0].id != id {
      RemoveValid(list[1..], id);
      assert list'[1..] == RemoveAt(list[1..], IndexOf(list[1..], id));
    } else if |list| > 1 {
      assert list'[1..] == list[2..] == list[1..][1..];
    }
  }

  lemma {:induction false} InsertDeltaValid(list: seq<Node>, id: TimeoutId, dticks: int)
    requires ValidList(list) && 0 <= dticks && id !in Links(list)
    ensures ValidList(InsertDelta(list, id, dticks))
    ensures Links(InsertDelta(list, id, dticks)) == Links(list) + {id}
  {
    if list == [] {
    } else if list[0].dticks > dticks {
      var rest := [Node(list[0].id, list[0].dticks - dticks)] + list[1..];
      assert InsertDelta(list, id, dticks)[1..] == rest && rest[1..] == list[1..];
    } else {
      InsertDeltaValid(list[1..], id, dticks - list[0].dticks);
      assert InsertDelta(list, id, dticks)[1..] == InsertDelta(list[1..], id, dticks - list[0].dticks);
    }
  }

  // ---------------------------------------------------------------- the kernel's state

  class TimeoutQueue {
    var currTick: int
    var list: seq<Node>
    var announceRemaining: nat

    /** The length of a time slice, 0 when slicing is off. */
    const sliceTicks: nat

    /** What the driver was last told: at which tick it was asked, and for how many ticks. */
    var driverSetAt: int
    var driverTicks: int

    ghost predicate Valid() reads this {
      ValidList(list)
    }

    function View(): Clock reads this {
      Clock(currTick, Absolute(currTick, list))
    }

    /** The driver wakes the kernel no later than the earliest expiry (or at
        once, when that expiry had passed by the time it was asked). */
    ghost predicate WakesInTime() reads this {
      list != [] ==> driverSetAt + driverTicks <= Max(currTick + list[0].dticks, driverSetAt)
    }

    constructor (slice: nat)
      ensures Valid() && WakesInTime() && View() == Clock(0, []) && announceRemaining == 0
    {
      currTick, list, announceRemaining, driverSetAt, driverTicks, sliceTicks := 0, [], 0, 0, INT_MAX, slice;
    }

    function Elapsed(hw: nat): nat reads this {
      if announceRemaining == 0 then hw else 0
    }

    /** next_timeout: how long the driver may stay silent, no longer than to the
        earliest expiry nor than a time slice, and otherwise as long as it can count. */
    function NextTimeout(hw: nat): (ticks: nat) reads this
      ensures list != [] ==> currTick + Elapsed(hw) + ticks <= Max(currTick + list[0].dticks, currTick + Elapsed(hw))
      ensures sliceTicks > 0 ==> ticks <= sliceTicks
      ensures ticks == sliceTicks > 0 || if list == [] then ticks == INT_MAX
                                         else currTick + Elapsed(hw) + ticks == Max(currTick + list[0].dticks,
                                             currTick + Elapsed(hw))
    {
      var ret := if list == [] then INT_MAX else Max(0, list[0].dticks - Elapsed(hw));
      if sliceTicks != 0 && sliceTicks < ret then sliceTicks else ret
    }

    method SetDriver(hw: nat)
      modifies this`driverSetAt, this`driverTicks
      ensures WakesInTime()
    {
      driverSetAt, driverTicks := currTick + Elapsed(hw), NextTimeout(hw);
    }

    /** The insertion loop of z_add_timeout. */
    method Link(id: TimeoutId, ticks: nat)
      modifies this`list
      ensures list == InsertDelta(old(list), id, ticks)
    {
      var dticks: int := ticks;
      var i := 0;
      while i < |list| && list[i].dticks <= dticks
        invariant 0 <= i <= |list| && list == old(list)
        invariant InsertDelta(list, id, ticks) == InsertBeyond(list[..i], list[i..], id, dticks)
      {
        InsertBeyondHead(list[..i], list[i..], id, dticks);
        assert list[..i + 1] == list[..i] + [list[i]];
        dticks := dticks - list[i].dticks;
        i := i + 1;
      }
      if i < |list| {
        list := list[..i] + ([Node(id, dticks), Node(list[i].id, list[i].dticks - dticks)] + list[i + 1..]);
      } else {
        list := list + [Node(id, dticks)];
      }
    }

    /** z_add_timeout. */
    method Add(id: TimeoutId, ticks: int, hw: nat)
      requires Valid() && id !in Links(list)
      modifies this`list, this`driverSetAt, this`driverTicks
      ensures Valid()
      ensures View() == Perform(old(View()), Start(id, ticks), old(Elapsed(hw)))
      ensures old(WakesInTime()) ==> WakesInTime()
    {
      hide InsertDelta, Absolute, Insert, Delete, ValidList, Links;
      var dticks := Max(1, ticks) + Elapsed(hw);
      InsertRefines(currTick, list, id, dticks);
      InsertDeltaValid(list, id, dticks);
      Unlinked(currTick, list, id);
      InsertDeltaHead(list, id, dticks);
      Link(id, dticks);
      if list[0].id == id {
        SetDriver(hw);
      }
    }

    /** z_abort_timeout: 0 when the timeout was pending, -EINVAL otherwise. */
    method AbortTimeout(id: TimeoutId) returns (ret: int)
      requires Valid()
      modifies this`list
      ensures Valid()
      ensures View() == Perform(old(View()), Abort(id), 0)
      ensures ret == if id in Expiries(old(View()).queue) then 0 else -EINVAL
      ensures old(WakesInTime()) ==> WakesInTime()
    {
      var i := IndexOf(list, id);
      AbsoluteValid(currTick, list);
      if i < |list| {
        RemoveRefines(currTick, list, id);
        RemoveValid(list, id);
        list := RemoveAt(list, i);
        ret := 0;
      } else {
        Unlinked(currTick, list, id);
        ret := -EINVAL;
      }
    }

    /** z_timeout_remaining: ticks from now to the timeout's expiry, 0 when it is not pending. */
    method Remaining(id: TimeoutId, hw: nat) returns (ticks: int)
      requires Valid()
      ensures var pending := Expiries(View().queue);
              ticks == if id in pending then pending[id] - (currTick + Elapsed(hw)) else 0
    {
      Linked(currTick, list, id);
      var at := IndexOf(list, id);
      if at == |list| {
        return 0;
      }
      ticks := 0;
      var i := 0;
      while true
        invariant 0 <= i <= at && ticks == SumTo(list, i) && IndexOf(list[i..], id) == at - i
        decreases |list| - i
      {
        ticks := ticks + list[i].dticks;
        if list[i].id == id {
          break;
        }
        i := i + 1;
      }
      ticks := ticks - Elapsed(hw);
    }

    /** Runs the requests of one handler. */
    method RunCalls(calls: seq<Call>, hw: nat)
      requires Valid()
      modifies this
      ensures Valid() && currTick == old(currTick) && announceRemaining == old(announceRemaining)
      ensures View() == PerformAll(old(View()), calls, old(Elapsed(hw)))
    {
      ghost var lag := Elapsed(hw);
      hide Absolute, Insert, Delete, ValidClock, ValidList, Links;
      var k := 0;
      while k < |calls|
        invariant 0 <= k <= |calls| && Valid()
        invariant currTick == old(currTick) && announceRemaining == old(announceRemaining)
        invariant PerformAll(old(View()), calls, lag) == PerformAll(View(), calls[k..], lag)
      {
        ghost var before := View();
        AbsoluteValid(currTick, list);
        var ret := AbortTimeout(calls[k].id);
        match calls[k] {
          case Abort(_) =>
          case Start(id, ticks) =>
            AbortedIsUnlinked(before, list, id);
            Unlinked(currTick, list, id);
            Add(id, ticks, hw);
        }
        assert View() == Perform(before, calls[k], lag);
        assert calls[k..][1..] == calls[k + 1..];
        k := k + 1;
      }
    }

    /** One turn of the loop in z_clock_announce. */
    method FireHead<U>(h: Handler<U>, u: U, hw: nat) returns (u': U, firing: Firing)
      requires Valid() && list != [] && list[0].dticks <= announceRemaining
      modifies this
      ensures Valid() && currTick + announceRemaining == old(currTick + announceRemaining)
      ensures currTick == old(currTick + list[0].dticks)
      ensures (View(), u') == Fire(h, old(View()), u, Elapsed(hw))
      ensures firing == Firing(currTick, old(list[0].id))
    {
      var t := list[0];
      currTick := currTick + t.dticks;
      announceRemaining := announceRemaining - t.dticks;
      list := [Node(t.id, 0)] + list[1..];
      list := RemoveAt(list, 0);
      assert list == old(list)[1..];
      var (u1, calls) := h(u, View(), t.id, Elapsed(hw));
      u' := u1;
      firing := Firing(currTick, t.id);
      RunCalls(calls, hw);
    }

    /** The end of z_clock_announce: the ticks left over come off the head. */
    method Settle(hw: nat)
      requires Valid() && (list != [] ==> announceRemaining < list[0].dticks)
      modifies this
      ensures Valid() && announceRemaining == 0 && WakesInTime()
      ensures View() == Clock(old(currTick + announceRemaining), old(View()).queue)
    {
      AbsoluteShift(currTick, list, announceRemaining);
      if list != [] {
        list := [Node(list[0].id, list[0].dticks - announceRemaining)] + list[1..];
      }
      currTick := currTick + announceRemaining;
      announceRemaining := 0;
      SetDriver(hw);
    }

    /** z_clock_announce. */
    method Announce<U>(h: Handler<U>, u0: U, ticks: nat, hw: nat) returns (u: U, fired: seq<Firing>)
      requires Valid() && announceRemaining == 0
      modifies this
      ensures Valid() && announceRemaining == 0 && WakesInTime()
      ensures ValidClock(old(View()))
      ensures Outcome(View(), u, fired) == Advance(h, old(View()), u0, old(currTick) + ticks, hw)
    {
      ghost var target := currTick + ticks;
      AbsoluteValid(currTick, list);
      ghost var goal := Advance(h, View(), u0, target, hw);
      u, fired := u0, [];
      announceRemaining := ticks;
      while list != [] && list[0].dticks <= announceRemaining
        invariant Valid() && ValidClock(View()) && currTick + announceRemaining == target
        invariant goal == Prepend(fired, Advance(h, View(), u, target, hw))
        decreases announceRemaining, DueBy(View().queue, currTick)
      {
        ghost var before := View();
        AdvanceUnfold(h, before, u, target, hw, fired);
        var firing;
        u, firing := FireHead(h, u, hw);
        AbsoluteValid(currTick, list);
        assert Elapsed(hw) == if before.queue[0].expiry == target then hw else 0;
        fired := fired + [firing];
      }
      AdvanceDone(h, View(), u, target, hw, fired);
      Settle(hw);
    }
  }

  // ---------------------------------------------------------------- linked and pending agree

  lemma {:induction false} Linked(now: int, list: seq<Node>, id: TimeoutId)
    requires ValidList(list)
    ensures var m, i := Expiries(Absolute(now, list)), IndexOf(list, id);
            && (id in m <==> i < |list|)
            && (i < |list| ==> m[id] == now + SumTo(list, i + 1))
    decreases |list|
  {
    if list != [] {
      var i := IndexOf(list, id);
      if i < |list| {
        SumToTail(list, i + 1);
      }
      Linked(now + list[0].dticks, list[1..], id);
    }
  }

  /** Deleting a timeout that is not linked leaves the queue alone. */
  lemma {:induction false} Unlinked(now: int, list: seq<Node>, id: TimeoutId)
    requires id !in Links(list)
    ensures Delete(Absolute(now, list), id) == Absolute(now, list)
    decreases |list|
  {
    if list != [] {
      Unlinked(now + list[0].dticks, list[1..], id);
    }
  }

  lemma AbortedIsUnlinked(before: Clock, list: seq<Node>, id: TimeoutId)
    requires ValidClock(before) && ValidList(list) && Absolute(before.now, list) == Delete(before.queue, id)
    ensures id !in Links(list)
  {
    DeleteExpiries(before.queue, id);
    AbsoluteValid(before.now, list);
  }
}
