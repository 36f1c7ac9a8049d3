/**
 The critical sections of kernel/poll.c on its own data: an array of events, each
 with the link node through which it hangs in the list of its object.  Each
 section takes its step of module Poll, whatever comes in between.
 */
module PollKernel {
  import opened DLists
  import opened Lists
  import opened Poll
  import opened Wrappers

  ghost function Marked(bits: seq<bool>): set<nat> { set i: nat | i < |bits| && bits[i] }

  lemma MarkOne(bits: seq<bool>, i: nat, b: bool)
    requires i < |bits|
    ensures Marked(bits[i := b]) == if b then Marked(bits) + {i} else Marked(bits) - {i}
  {
  }

  ghost function ListIn(lists: map<nat, seq<nat>>, o: nat): seq<nat> { if o in lists then lists[o] else [] }

  /** The lists that hang from the objects are those of the state. */
  ghost predicate Hung(linked: map<nat, seq<nat>>, lists: map<nat, seq<nat>>) {
    forall o :: o in linked ==> linked[o] == ListIn(lists, o)
  }

  lemma HungUpdate(linked: map<nat, seq<nat>>, lists: map<nat, seq<nat>>, o: nat, q: seq<nat>)
    requires Hung(linked, lists)
    ensures Hung(linked[o := q], lists[o := q])
  {
  }

  /** Where an event is linked. */
  lemma WhereHung(linked: map<nat, seq<nat>>, p: Polling, i: nat)
    requires Poll.Linked(p) && Hung(linked, p.lists)
    ensures i !in p.poller ==> Free(linked, i)
    ensures !Free(linked, i) && i < |p.objects| ==>
        p.objects[i].Some? && p.objects[i].value in linked && i in linked[p.objects[i].value]
  {
    forall o | o in linked
      ensures i in linked[o] <==> Share(p, o, i) == 1
    {
      assert Count(ListOf(p, o), i) == Share(p, o, i);
      Member(ListOf(p, o), i);
    }
  }

  lemma FirstPolls(p: Polling, o: nat)
    requires Poll.Inv(p)
    ensures ListOf(p, o) != [] ==> var i := ListOf(p, o)[0]; i in p.poller && i < |p.objects|
  {
    if ListOf(p, o) != [] {
      HeadLinked(p, o);
    }
    hide Poll.Linked, Watching;
  }

  lemma NotYetHung(linked: map<nat, seq<nat>>, p: Polling, i: nat)
    requires Poll.Inv(p) && Hung(linked, p.lists) && p.pc == Checking(i)
    ensures Free(linked, i) && i !in p.poller
  {
    assert i !in p.poller;
    WhereHung(linked, p, i);
    hide Poll.Linked, Watching, Free;
  }

  lemma HungWhere(linked: map<nat, seq<nat>>, p: Polling, i: nat)
    requires Poll.Inv(p) && Hung(linked, p.lists)
    ensures !Free(linked, i) && i < |p.objects| ==>
        p.objects[i].Some? && p.objects[i].value in linked && i in linked[p.objects[i].value]
  {
    WhereHung(linked, p, i);
    hide Poll.Linked, Watching, Free;
  }

  lemma {:induction false} RemoveAbsent(q: seq<nat>, i: nat)
    requires i !in q
    ensures Remove(q, i) == q
  {
    if q != [] {
      RemoveAbsent(q[1..], i);
    }
  }

  /** One call of k_poll. */
  class PollCall {
    const objects: seq<Option<nat>>
    const justCheck: bool
    const links: Links
    const pollers: array<bool>    // whether event->poller is set
    const states: array<bool>     // whether event->state is set
    var pc: Pc
    var isPolling: bool
    var registered: nat
    var met: set<nat>
    ghost var lists: map<nat, seq<nat>>
    ghost var entered: set<nat>
    ghost var metAtCheck: set<nat>
    ghost var raised: set<nat>

    ghost function View(): Polling reads this, pollers, states {
      Polling(objects, justCheck, pc, isPolling, registered, met, lists, Marked(pollers[..]), Marked(states[..]),
              entered, metAtCheck, raised)
    }

    ghost predicate Valid() reads this, links, pollers, states {
      && links.Valid() && Hung(links.lists, lists) && pollers != states
      && pollers.Length == states.Length == |objects|
      && (forall i :: 0 <= i < |objects| && objects[i].Some? ==> objects[i].value in links.lists)
    }

    /** The start of z_impl_k_poll, all objects being initialised and nobody else polling them. */
    constructor (objects: seq<Option<nat>>, met: set<nat>, justCheck: bool, links: Links)
      requires links.Valid() && (forall o :: o in links.lists ==> links.lists[o] == [])
      requires forall i :: 0 <= i < |objects| && objects[i].Some? ==> objects[i].value in links.lists
      ensures this.objects == objects && this.links == links && fresh(pollers) && fresh(states)
      ensures Valid() && View() == Begin(objects, met, justCheck) && Poll.Inv(View())
    {
      this.objects, this.met, this.justCheck, this.links := objects, met, justCheck, links;
      pollers, states := new bool[|objects|](_ => false), new bool[|objects|](_ => false);
      pc, isPolling, registered := Checking(0), true, 0;
      lists, entered, metAtCheck, raised := map[], {}, {}, {};
      new;
      assert Marked(pollers[..]) == {} && Marked(states[..]) == {};
      BeginInv(objects, met, justCheck);
    }

    /** set_event_ready. */
    method SetEventReady(i: nat)
      requires Valid() && i < |objects|
      modifies pollers, states
      ensures Valid() && View() == old(View()).(poller := old(View()).poller - {i}, ready := old(View()).ready + {i})
    {
      MarkOne(pollers[..], i, false);
      MarkOne(states[..], i, true);
      pollers[i] := false;
      assert pollers[..] == old(pollers[..])[i := false];
      states[i] := true;
      assert states[..] == old(states[..])[i := true];
    }

    method SetPoller(i: nat, b: bool)
      requires Valid() && i < |objects|
      modifies pollers
      ensures Valid()
      ensures View() == old(View()).(poller := if b then old(View()).poller + {i} else old(View()).poller - {i})
    {
      MarkOne(pollers[..], i, b);
      pollers[i] := b;
      assert pollers[..] == old(pollers[..])[i := b];
    }

    /** add_event: appended, as all events in the list belong to one poller. */
    method AddEvent(o: nat, i: nat)
      requires Valid() && o in links.lists && Free(links.lists, i)
      modifies this`lists, links
      ensures Valid() && links.lists.Keys == old(links.lists.Keys)
      ensures lists == old(lists)[o := ListIn(old(lists), o) + [i]]
    {
      ghost var q := links.lists[o];
      assert q + [] == q && q + ([i] + []) == q + [i];
      HungUpdate(links.lists, lists, o, q + [i]);
      links.InsertBefore(Head(o), i, o, q, []);
      lists := lists[o := q + [i]];
    }

    /** register_event. */
    method Register(i: nat)
      requires Valid() && i < |objects| && Free(links.lists, i)
      modifies this, links, pollers
      ensures Valid()
      ensures var p := old(View());
              View() == p.(poller := p.poller + {i}, entered := p.entered + {i}, registered := p.registered + 1,
                           lists := if objects[i].None? then p.lists
                                    else p.lists[objects[i].value := ListOf(p, objects[i].value) + [i]])
    {
      hide Marked, Free, Hung, Links.Valid;
      if objects[i].Some? {
        AddEvent(objects[i].value, i);
      }
      SetPoller(i, true);
      registered := registered + 1;
      entered := entered + {i};
    }

    /** One iteration of register_events: is_condition_met, then register_event. */
    method CheckEvent(i: nat)
      requires Valid() && Poll.Inv(View()) && pc == Checking(i) && i < |objects|
      modifies this, links, pollers, states
      ensures Valid() && View() == Check(old(View()), i)
    {
      hide Poll.Inv, Free, Marked, Hung, Links.Valid;
      NotYetHung(links.lists, View(), i);
      if objects[i].Some? && objects[i].value in met {
        SetEventReady(i);
        isPolling := false;
        metAtCheck := metAtCheck + {i};
      } else if !justCheck && isPolling {
        Register(i);
      }
      pc := if i + 1 < |objects| then Checking(i + 1) else Deciding;
    }

    /** z_impl_k_poll between the loops. */
    method DecideToSleep()
      requires Valid() && pc == Deciding
      modifies this
      ensures Valid() && View() == Decide(old(View()))
    {
      hide Marked, Hung, Links.Valid;
      if !isPolling {
        pc := Clearing(registered, 0);
        return;
      }
      isPolling := false;
      pc := if justCheck then Done(-EAGAIN) else Sleeping;
    }

    /** The event is taken out of the list of its object if it is linked. */
    method RemoveEvent(o: nat, i: nat)
      requires Valid() && o in links.lists && (!Free(links.lists, i) ==> i in links.lists[o])
      modifies this`lists, links
      ensures Valid() && links.lists.Keys == old(links.lists.Keys)
      ensures lists == old(lists)[o := Remove(ListIn(old(lists), o), i)]
    {
      var found := links.IsLinked(i);
      HungUpdate(links.lists, lists, o, Remove(links.lists[o], i));
      if found {
        hide Remove, Hung, Links.Valid;
        links.RemoveNode(i, o);
      } else {
        RemoveAbsent(links.lists[o], i);
        assert links.lists == links.lists[o := links.lists[o]];
      }
      hide Remove;
      lists := lists[o := Remove(ListIn(lists, o), i)];
    }

    /** One iteration of clear_event_registrations. */
    method ClearRegistration(left: nat, rc: int)
      requires Valid() && Poll.Inv(View()) && pc == Clearing(left, rc) && 0 < left <= |objects|
      modifies this, links, pollers
      ensures Valid() && View() == Clear(old(View()), left, rc)
    {
      hide Poll.Inv, Free, Marked, Hung, Links.Valid, Remove;
      var i := left - 1;
      HungWhere(links.lists, View(), i);
      SetPoller(i, false);
      if objects[i].Some? {
        RemoveEvent(objects[i].value, i);
      }
      pc := Clearing(i, rc);
    }

    /** sys_dlist_get: the first event of an object's list, if there is one. */
    method GetEvent(o: nat) returns (n: int)
      requires Valid() && o in links.lists
      modifies this`lists, links
      ensures Valid() && links.lists.Keys == old(links.lists.Keys)
      ensures ListIn(old(lists), o) == [] ==> n < 0 && lists == old(lists)
      ensures ListIn(old(lists), o) != [] ==>
          n == ListIn(old(lists), o)[0] && lists == old(lists)[o := ListIn(old(lists), o)[1..]]
    {
      ghost var q := links.lists[o];
      assert q == [] + q;
      n := links.Next(Head(o), o, [], q);
      if n != Head(o) {
        assert Remove(q, n) == q[1..];
        HungUpdate(links.lists, lists, o, q[1..]);
        hide Remove, Hung, Links.Valid;
        links.RemoveNode(n, o);
        lists := lists[o := q[1..]];
      }
    }

    /** z_impl_k_poll_signal_raise and z_handle_obj_poll_events, with signal_poll_event and k_poll_poller_cb. */
    method RaiseObject(o: nat)
      requires Valid() && Poll.Inv(View()) && o in links.lists
      modifies this, links, pollers, states
      ensures Valid() && View() == Raise(old(View()), o)
    {
      hide Poll.Inv, Hit, Marked, Hung, Links.Valid;
      ghost var p := View();
      FirstPolls(p, o);
      raised := raised + Hit(p, o);
      met := met + {o};
      var n := GetEvent(o);
      if n < 0 {
        return;
      }
      if pc.Sleeping? {
        pc := Clearing(registered, 0);
      }
      isPolling := false;
      SetEventReady(n);
    }

    /** Whatever happens next, to the caller or to an object. */
    method Execute(e: Event)
      requires Valid() && Poll.Inv(View()) && (e.ERaise? ==> e.o in links.lists)
      modifies this, links, pollers, states
      ensures Valid() && Poll.Inv(View()) && View() == Step(old(View()), e)
    {
      ghost var p := View();
      StepInv(p, e);
      hide Poll.Inv, Marked, Hung, Links.Valid, Check, Decide, Clear, Raise;
      match e {
        case EPoller =>
          match pc {
            case Checking(i) => if i < |objects| { CheckEvent(i); } else { pc := Deciding; }
            case Deciding => DecideToSleep();
            case Sleeping =>
            case Clearing(left, rc) =>
              if 0 < left <= |objects| { ClearRegistration(left, rc); } else { pc := Done(rc); }
            case Done(_) =>
          }
        case ERaise(o) => RaiseObject(o);
        case EDrain(o) => met := met - {o};
        case ETimeout => if pc.Sleeping? { pc := Clearing(registered, -EAGAIN); }
      }
    }
  }
}
