/**
 The interrupt descriptor table that arch/x86/gen_idt.py builds: vectors are
 given out in three passes, hard-coded ones first, then one from its group of
 16 for each entry that asks for a priority, then spurious handlers.
 */
module Idt {
  import opened Bitmasks
  import opened Wrappers

  /** A struct genidt_entry_s; -1 stands for unspecified in irq, prio and vec. */
  datatype Entry = Entry(handler: nat, irq: int, prio: int, vec: int, dpl: nat, tss: nat)

  datatype Desc = Desc(handler: nat, tss: nat, dpl: nat)

  datatype Error =
    | NoVectorOrPriority
    | VectorTooLarge
    | DuplicateVector
    | NoFreeVector
    | IrqTooLarge
    | DuplicateIrq

  function DescOf(e: Entry): Desc { Desc(e.handler, e.tss, e.dpl) }

  // ---------------------------------------------------------------- what can be asked for

  ghost predicate WellFormed(es: seq<Entry>) {
    forall i :: 0 <= i < |es| ==>
      es[i].irq >= -1 && es[i].prio >= -1 && es[i].vec >= -1 && (es[i].irq != -1 ==> es[i].vec != 0)
  }

  /** The first vector of a priority level, and one past the last that exists. */
  function Base(prio: int): int { 32 + prio * 16 }

  function Limit(prio: int, maxVec: nat): int { if Base(prio) + 16 <= maxVec then Base(prio) + 16 else maxVec }

  /** The vectors hard-coded by the first k entries. */
  ghost function Hard(es: seq<Entry>, k: nat): set<int>
    requires k <= |es|
  {
    if k == 0 then {} else Hard(es, k - 1) + (if es[k - 1].vec != -1 then {es[k - 1].vec} else {})
  }

  /** How many of the first k entries ask for a vector of the given priority. */
  ghost function Requests(es: seq<Entry>, prio: int, k: nat): nat
    requires k <= |es|
  {
    if k == 0 then 0
    else Requests(es, prio, k - 1) + (if es[k - 1].vec == -1 && es[k - 1].prio == prio then 1 else 0)
  }

  /** How many vectors from lo up to hi are not taken. */
  ghost function Untaken(taken: set<int>, lo: int, hi: int): nat
    decreases hi - lo
  {
    if hi <= lo then 0 else Untaken(taken, lo, hi - 1) + (if hi - 1 in taken then 0 else 1)
  }

  ghost predicate Capacity(es: seq<Entry>, maxVec: nat) {
    forall p: nat :: Requests(es, p, |es|) <= Untaken(Hard(es, |es|), Base(p), Limit(p, maxVec))
  }

  /** Exactly what makes a table possible. */
  ghost predicate Assignable(es: seq<Entry>, maxVec: nat, maxIrq: nat) {
    && (forall i :: 0 <= i < |es| ==> (es[i].vec == -1 ==> es[i].prio != -1))
    && (forall i :: 0 <= i < |es| ==> es[i].vec < maxVec && es[i].irq < maxIrq)
    && (forall i, j :: 0 <= i < j < |es| && es[i].vec != -1 ==> es[i].vec != es[j].vec)
    && (forall i, j :: 0 <= i < j < |es| && es[i].irq != -1 ==> es[i].irq != es[j].irq)
    && Capacity(es, maxVec)
  }

  /** More entries ask for priority p than the level has vectors left by the hard-coded ones. */
  ghost predicate Overbooked(es: seq<Entry>, p: nat, maxVec: nat) {
    Requests(es, p, |es|) > Untaken(Hard(es, |es|), Base(p), Limit(p, maxVec))
  }

  /** What each error message says about the entries. */
  ghost predicate Blames(error: Error, es: seq<Entry>, maxVec: nat, maxIrq: nat) {
    match error
    case NoVectorOrPriority => exists i :: 0 <= i < |es| && es[i].vec == -1 && es[i].prio == -1
    case VectorTooLarge => exists i :: 0 <= i < |es| && es[i].vec >= maxVec
    case DuplicateVector => exists i, j :: 0 <= i < j < |es| && es[i].vec == es[j].vec != -1
    case NoFreeVector => exists p: nat :: Overbooked(es, p, maxVec)
    case IrqTooLarge => exists i :: 0 <= i < |es| && es[i].irq >= maxIrq
    case DuplicateIrq => exists i, j :: 0 <= i < j < |es| && es[i].irq == es[j].irq != -1
  }

  /** Each of these reasons rules out a table. */
  lemma BlamedRulesOut(error: Error, es: seq<Entry>, maxVec: nat, maxIrq: nat)
    requires Blames(error, es, maxVec, maxIrq)
    ensures !Assignable(es, maxVec, maxIrq)
  {
    if error == NoFreeVector {
      var p: nat :| Overbooked(es, p, maxVec);
      assert !Capacity(es, maxVec);
    }
    hide Capacity, Overbooked;
  }

  // ---------------------------------------------------------------- a table in the making

  /** What has been given out: the vector of each entry, the entry at each vector
      and the entry of each interrupt line. */
  datatype Ledger = Ledger(at: map<int, int>, who: map<int, int>, line: map<int, int>)

  /** The vectors are those of the ledger, one for each entry in it. */
  ghost predicate Vectors(es: seq<Entry>, vectors: seq<Option<Desc>>, l: Ledger) {
    && (forall v :: v in l.who ==> 0 <= v < |vectors| && l.who[v] in l.at && l.at[l.who[v]] == v)
    && (forall i :: i in l.at ==> 0 <= i < |es| && l.at[i] in l.who && l.who[l.at[i]] == i)
    && (forall v :: 0 <= v < |vectors| ==> vectors[v] == if v in l.who then Some(DescOf(es[l.who[v]])) else None)
  }

  /** The map sends each line to the vector of its entry, and no other line anywhere. */
  ghost predicate Lines(es: seq<Entry>, irqMap: seq<nat>, l: Ledger) {
    && (forall q :: q in l.line ==>
         0 <= q < |irqMap| && l.line[q] in l.at && 0 <= l.line[q] < |es| && es[l.line[q]].irq == q &&
           l.at[l.line[q]] != 0)
    && (forall i :: i in l.at && 0 <= i < |es| && es[i].irq != -1 ==> es[i].irq in l.line && l.line[es[i].irq] == i)
    && (forall q :: 0 <= q < |irqMap| ==> irqMap[q] == if q in l.line then l.at[l.line[q]] else 0)
  }

  /** Entry k put at vector v. */
  ghost function Enter(es: seq<Entry>, l: Ledger, k: nat, v: nat): Ledger
    requires k < |es|
  {
    Ledger(l.at[k := v], l.who[v := k], if es[k].irq == -1 then l.line else l.line[es[k].irq := k])
  }

  /** update_irq_vec_map. */
  method UpdateIrqVecMap(irqMap: seq<nat>, irq: int, vector: nat) returns (error: Option<Error>, r: seq<nat>)
    requires irq >= -1
    ensures error == (if irq == -1 then None else if irq >= |irqMap| then Some(IrqTooLarge)
                      else if irqMap[irq] != 0 then Some(DuplicateIrq) else None)
    ensures error.None? ==> r == if irq == -1 then irqMap else irqMap[irq := vector]
  {
    r := irqMap;
    if irq == -1 {
      return None, r;
    }
    if irq >= |irqMap| {
      return Some(IrqTooLarge), r;
    }
    if irqMap[irq] != 0 {
      return Some(DuplicateIrq), r;
    }
    r := irqMap[irq := vector];
    error := None;
  }

  lemma EnterVectors(es: seq<Entry>, vectors: seq<Option<Desc>>, l: Ledger, k: nat, v: nat)
    requires Vectors(es, vectors, l) && k < |es| && k !in l.at && v < |vectors| && vectors[v].None?
    ensures Vectors(es, vectors[v := Some(DescOf(es[k]))], Enter(es, l, k, v)) && v !in l.who
  {
  }

  lemma EnterLines(es: seq<Entry>, irqMap: seq<nat>, l: Ledger, k: nat, v: nat)
    requires Lines(es, irqMap, l) && k < |es| && k !in l.at && es[k].irq >= -1
    requires es[k].irq != -1 ==> es[k].irq < |irqMap| && irqMap[es[k].irq] == 0 && v != 0
    ensures Lines(es, if es[k].irq == -1 then irqMap else irqMap[es[k].irq := v], Enter(es, l, k, v))
  {
  }

  // ---------------------------------------------------------------- pass 1

  /** After k entries of pass 1: the hard-coded ones among them are in place, and nothing stands in the way yet. */
  ghost predicate Pass1Done(es: seq<Entry>, maxVec: nat, maxIrq: nat, k: nat, vectors: seq<Option<Desc>>,
                            irqMap: seq<nat>, l: Ledger)
    requires k <= |es|
  {
    && |vectors| == maxVec && |irqMap| == maxIrq && Vectors(es, vectors, l) && Lines(es, irqMap, l)
    && l.who.Keys == Hard(es, k)
    && (forall i :: i in l.at <==> 0 <= i < k && es[i].vec != -1)
    && (forall i :: i in l.at ==> l.at[i] == es[i].vec)
    && (forall i :: 0 <= i < k && es[i].vec == -1 ==> es[i].prio != -1)
  }

  lemma Clash(es: seq<Entry>, maxVec: nat, maxIrq: nat, i: int, k: nat)
    requires 0 <= i < |es| && k < |es| && i != k
    ensures es[i].vec == es[k].vec != -1 ==> Blames(DuplicateVector, es, maxVec, maxIrq)
    ensures es[i].irq == es[k].irq != -1 ==> Blames(DuplicateIrq, es, maxVec, maxIrq)
  {
    var a, b := if i < k then i else k, if i < k then k else i;
    assert 0 <= a < b < |es|;
  }

  /** An interrupt line that cannot be entered rules out a table. */
  lemma LineClash(es: seq<Entry>, maxVec: nat, maxIrq: nat, irqMap: seq<nat>, l: Ledger, k: nat)
    requires Lines(es, irqMap, l) && |irqMap| == maxIrq && k < |es| && k !in l.at && es[k].irq >= 0
    requires es[k].irq >= maxIrq || irqMap[es[k].irq] != 0
    ensures Blames(if es[k].irq >= maxIrq then IrqTooLarge else DuplicateIrq, es, maxVec, maxIrq)
  {
    if es[k].irq < maxIrq {
      Clash(es, maxVec, maxIrq, l.line[es[k].irq], k);
    }
  }

  lemma Pass1Facts(es: seq<Entry>, maxVec: nat, maxIrq: nat, k: nat, vectors: seq<Option<Desc>>, irqMap: seq<nat>,
                   l: Ledger)
    requires k < |es| && Pass1Done(es, maxVec, maxIrq, k, vectors, irqMap, l)
    ensures |vectors| == maxVec && |irqMap| == maxIrq && k !in l.at && Lines(es, irqMap, l)
  {
  }

  lemma Pass1Skip(es: seq<Entry>, maxVec: nat, maxIrq: nat, k: nat, vectors: seq<Option<Desc>>, irqMap: seq<nat>,
                  l: Ledger)
    requires k < |es| && Pass1Done(es, maxVec, maxIrq, k, vectors, irqMap, l) && es[k].vec == -1 && es[k].prio != -1
    ensures Pass1Done(es, maxVec, maxIrq, k + 1, vectors, irqMap, l)
  {
    hide Vectors, Lines;
  }

  lemma Pass1Enter(es: seq<Entry>, maxVec: nat, maxIrq: nat, k: nat, vectors: seq<Option<Desc>>, irqMap: seq<nat>,
                   l: Ledger)
    requires k < |es| && Pass1Done(es, maxVec, maxIrq, k, vectors, irqMap, l) && 0 <= es[k].vec < maxVec
    requires vectors[es[k].vec].None?
    requires es[k].irq >= -1 && (es[k].irq != -1 ==> es[k].irq < maxIrq && irqMap[es[k].irq] == 0 && es[k].vec != 0)
    ensures Pass1Done(es, maxVec, maxIrq, k + 1, vectors[es[k].vec := Some(DescOf(es[k]))],
                      if es[k].irq == -1 then irqMap else irqMap[es[k].irq := es[k].vec], Enter(es, l, k, es[k].vec))
  {
    EnterVectors(es, vectors, l, k, es[k].vec);
    EnterLines(es, irqMap, l, k, es[k].vec);
    hide Vectors, Lines;
  }

  lemma Pass1Taken(es: seq<Entry>, maxVec: nat, maxIrq: nat, k: nat, vectors: seq<Option<Desc>>, irqMap: seq<nat>,
                   l: Ledger)
    requires k < |es| && Pass1Done(es, maxVec, maxIrq, k, vectors, irqMap, l) && 0 <= es[k].vec < maxVec
    requires vectors[es[k].vec].Some?
    ensures Blames(DuplicateVector, es, maxVec, maxIrq)
  {
    hide Lines;
    assert es[k].vec in l.who;
    Clash(es, maxVec, maxIrq, l.who[es[k].vec], k);
  }

  lemma Pass1Begin(es: seq<Entry>, maxVec: nat, maxIrq: nat)
    ensures Pass1Done(es, maxVec, maxIrq, 0, seq(maxVec, _ => None), seq(maxIrq, _ => 0), Ledger(map[], map[], map[]))
  {
  }

  method Pass1(es: seq<Entry>, maxVec: nat, maxIrq: nat)
    returns (error: Option<Error>, vectors: seq<Option<Desc>>, irqMap: seq<nat>, ghost l: Ledger)
    requires WellFormed(es)
    ensures error.None? ==> Pass1Done(es, maxVec, maxIrq, |es|, vectors, irqMap, l)
    ensures error.Some? ==> Blames(error.value, es, maxVec, maxIrq)
  {
    Pass1Begin(es, maxVec, maxIrq);
    irqMap, vectors, l := seq(maxIrq, _ => 0), seq(maxVec, _ => None), Ledger(map[], map[], map[]);
    for k := 0 to |es|
      invariant Pass1Done(es, maxVec, maxIrq, k, vectors, irqMap, l)
    {
      hide Pass1Done, Lines, Overbooked;
      Pass1Facts(es, maxVec, maxIrq, k, vectors, irqMap, l);
      var e := es[k];
      if e.vec == -1 {
        if e.prio == -1 {
          return Some(NoVectorOrPriority), vectors, irqMap, l;
        }
        Pass1Skip(es, maxVec, maxIrq, k, vectors, irqMap, l);
        continue;
      }
      if e.vec >= maxVec {
        return Some(VectorTooLarge), vectors, irqMap, l;
      }
      if vectors[e.vec].Some? {
        Pass1Taken(es, maxVec, maxIrq, k, vectors, irqMap, l);
        return Some(DuplicateVector), vectors, irqMap, l;
      }
      var failed, irqMap' := UpdateIrqVecMap(irqMap, e.irq, e.vec);
      if failed.Some? {
        LineClash(es, maxVec, maxIrq, irqMap, l, k);
        return failed, vectors, irqMap, l;
      }
      Pass1Enter(es, maxVec, maxIrq, k, vectors, irqMap, l);
      vectors, irqMap, l := vectors[e.vec := Some(DescOf(e))], irqMap', Enter(es, l, k, e.vec);
    }
    error := None;
  }

  // ---------------------------------------------------------------- pass 2

  lemma {:induction false} TakeOne(taken: set<int>, v: int, lo: int, hi: int)
    requires v !in taken
    ensures Untaken(taken + {v}, lo, hi) == Untaken(taken, lo, hi) - (if lo <= v < hi then 1 else 0)
    decreases hi - lo
  {
    if lo < hi {
      TakeOne(taken, v, lo, hi - 1);
    }
  }

  lemma {:induction false} AllTaken(taken: set<int>, lo: int, hi: int)
    requires forall v :: lo <= v < hi ==> v in taken
    ensures Untaken(taken, lo, hi) == 0
    decreases hi - lo
  {
    if lo < hi {
      AllTaken(taken, lo, hi - 1);
    }
  }

  lemma {:induction false} MoreRequests(es: seq<Entry>, prio: int, k: nat, n: nat)
    requires k <= n <= |es|
    ensures Requests(es, prio, k) <= Requests(es, prio, n)
    decreases n
  {
    if k < n {
      MoreRequests(es, prio, k, n - 1);
    }
  }

  /** Each level has as many vectors left as it had, less the requests served. */
  ghost predicate Balanced(es: seq<Entry>, maxVec: nat, k: nat, l: Ledger)
    requires k <= |es|
  {
    forall p: nat :: Untaken(l.who.Keys, Base(p), Limit(p, maxVec)) + Requests(es, p, k)
                     == Untaken(Hard(es, |es|), Base(p), Limit(p, maxVec))
  }

  /** After k entries of pass 2: each entry so far that asks for a priority is in its group. */
  ghost predicate Pass2Done(es: seq<Entry>, maxVec: nat, maxIrq: nat, k: nat, vectors: seq<Option<Desc>>,
                            irqMap: seq<nat>, l: Ledger)
    requires k <= |es|
  {
    && |vectors| == maxVec && |irqMap| == maxIrq && Vectors(es, vectors, l) && Lines(es, irqMap, l)
    && Balanced(es, maxVec, k, l)
    && (forall i :: i in l.at <==> 0 <= i < |es| && (es[i].vec != -1 || i < k))
    && (forall i :: i in l.at ==> if es[i].vec != -1 then l.at[i] == es[i].vec
                                  else Base(es[i].prio) <= l.at[i] < Base(es[i].prio) + 16)
  }

  lemma Pass2Begin(es: seq<Entry>, maxVec: nat, maxIrq: nat, vectors: seq<Option<Desc>>, irqMap: seq<nat>, l: Ledger)
    requires Pass1Done(es, maxVec, maxIrq, |es|, vectors, irqMap, l)
    ensures Pass2Done(es, maxVec, maxIrq, 0, vectors, irqMap, l)
  {
    hide Vectors, Lines;
  }

  lemma Pass2Skip(es: seq<Entry>, maxVec: nat, maxIrq: nat, k: nat, vectors: seq<Option<Desc>>, irqMap: seq<nat>,
                  l: Ledger)
    requires k < |es| && Pass2Done(es, maxVec, maxIrq, k, vectors, irqMap, l) && es[k].vec != -1
    ensures Pass2Done(es, maxVec, maxIrq, k + 1, vectors, irqMap, l)
  {
    hide Vectors, Lines;
    assert forall p: nat :: Requests(es, p, k + 1) == Requests(es, p, k);
    hide Requests, Untaken;
  }

  lemma Pass2Balanced(es: seq<Entry>, maxVec: nat, k: nat, l: Ledger, v: nat)
    requires k < |es| && es[k].vec == -1 && es[k].prio >= 0 && Balanced(es, maxVec, k, l) && v !in l.who && v < maxVec
    requires Base(es[k].prio) <= v < Base(es[k].prio) + 16
    ensures Balanced(es, maxVec, k + 1, Enter(es, l, k, v))
  {
    var l' := Enter(es, l, k, v);
    assert l'.who.Keys == l.who.Keys + {v};
    forall p: nat
      ensures Untaken(l'.who.Keys, Base(p), Limit(p, maxVec)) + Requests(es, p, k + 1)
           == Untaken(Hard(es, |es|), Base(p), Limit(p, maxVec))
    {
      TakeOne(l.who.Keys, v, Base(p), Limit(p, maxVec));
      assert Base(p) <= v < Limit(p, maxVec) <==> p == es[k].prio;
      assert Untaken(l.who.Keys, Base(p), Limit(p, maxVec)) + Requests(es, p, k) == Untaken(Hard(es, |es|), Base(p),
          Limit(p, maxVec));
      hide Untaken, Hard;
    }
  }

  lemma Pass2Enter(es: seq<Entry>, maxVec: nat, maxIrq: nat, k: nat, vectors: seq<Option<Desc>>, irqMap: seq<nat>,
                   l: Ledger, v: nat)
    requires k < |es| && Pass2Done(es, maxVec, maxIrq, k, vectors, irqMap, l) && es[k].vec == -1 && es[k].prio >= 0
    requires Base(es[k].prio) <= v < Base(es[k].prio) + 16 && v < maxVec && vectors[v].None?
    requires es[k].irq >= -1 && (es[k].irq != -1 ==> es[k].irq < maxIrq && irqMap[es[k].irq] == 0)
    ensures Pass2Done(es, maxVec, maxIrq, k + 1, vectors[v := Some(DescOf(es[k]))],
                      if es[k].irq == -1 then irqMap else irqMap[es[k].irq := v], Enter(es, l, k, v))
  {
    EnterVectors(es, vectors, l, k, v);
    EnterLines(es, irqMap, l, k, v);
    Pass2Balanced(es, maxVec, k, l, v);
    hide Vectors, Lines, Balanced;
  }

  /** No vector of the level is left: it has more requests than vectors. */
  lemma Pass2Full(es: seq<Entry>, maxVec: nat, maxIrq: nat, k: nat, vectors: seq<Option<Desc>>, irqMap: seq<nat>,
                  l: Ledger)
    requires k < |es| && Pass2Done(es, maxVec, maxIrq, k, vectors, irqMap, l) && es[k].vec == -1 && es[k].prio >= 0
    requires forall v :: Base(es[k].prio) <= v < Limit(es[k].prio, maxVec) ==> vectors[v].Some?
    ensures Overbooked(es, es[k].prio, maxVec)
  {
    var p := es[k].prio;
    AllTaken(l.who.Keys, Base(p), Limit(p, maxVec));
    MoreRequests(es, p, k + 1, |es|);
    assert Untaken(l.who.Keys, Base(p), Limit(p, maxVec)) + Requests(es, p, k) == Untaken(Hard(es, |es|), Base(p),
        Limit(p, maxVec));
  }

  /** The first free vector of a priority level, or None. */
  method FindFree(vectors: seq<Option<Desc>>, prio: nat) returns (v: Option<nat>)
    ensures v.Some? ==> Base(prio) <= v.value < Base(prio) + 16 && v.value < |vectors| && vectors[v.value].None?
    ensures v.None? ==> forall w :: Base(prio) <= w < Limit(prio, |vectors|) ==> vectors[w].Some?
  {
    for vi := Base(prio) to Base(prio) + 16
      invariant forall w :: Base(prio) <= w < vi && w < |vectors| ==> vectors[w].Some?
    {
      if vi >= |vectors| {
        return None;
      }
      if vectors[vi].None? {
        return Some(vi);
      }
    }
    v := None;
  }

  lemma Pass2Facts(es: seq<Entry>, maxVec: nat, maxIrq: nat, k: nat, vectors: seq<Option<Desc>>, irqMap: seq<nat>,
                   l: Ledger)
    requires k < |es| && Pass2Done(es, maxVec, maxIrq, k, vectors, irqMap, l)
    ensures |vectors| == maxVec && |irqMap| == maxIrq && Lines(es, irqMap, l) && (es[k].vec == -1 ==> k !in l.at)
  {
  }

  method Pass2(es: seq<Entry>, maxVec: nat, maxIrq: nat, vectors0: seq<Option<Desc>>, irqMap0: seq<nat>,
               ghost l0: Ledger)
    returns (error: Option<Error>, vectors: seq<Option<Desc>>, irqMap: seq<nat>, ghost l: Ledger)
    requires WellFormed(es) && (forall i :: 0 <= i < |es| && es[i].vec == -1 ==> es[i].prio != -1)
    requires Pass2Done(es, maxVec, maxIrq, 0, vectors0, irqMap0, l0)
    ensures error.None? ==> Pass2Done(es, maxVec, maxIrq, |es|, vectors, irqMap, l)
    ensures error.Some? ==> Blames(error.value, es, maxVec, maxIrq)
  {
    hide Pass2Done, Lines, Overbooked;
    irqMap, vectors, l := irqMap0, vectors0, l0;
    for k := 0 to |es|
      invariant Pass2Done(es, maxVec, maxIrq, k, vectors, irqMap, l)
    {
      Pass2Facts(es, maxVec, maxIrq, k, vectors, irqMap, l);
      var e := es[k];
      if e.vec != -1 {
        Pass2Skip(es, maxVec, maxIrq, k, vectors, irqMap, l);
        continue;
      }
      var found := FindFree(vectors, e.prio);
      if found.None? {
        Pass2Full(es, maxVec, maxIrq, k, vectors, irqMap, l);
        return Some(NoFreeVector), vectors, irqMap, l;
      }
      var v := found.value;
      var failed, irqMap' := UpdateIrqVecMap(irqMap, e.irq, v);
      if failed.Some? {
        LineClash(es, maxVec, maxIrq, irqMap, l, k);
        return failed, vectors, irqMap, l;
      }
      Pass2Enter(es, maxVec, maxIrq, k, vectors, irqMap, l, v);
      vectors, irqMap, l := vectors[v := Some(DescOf(e))], irqMap', Enter(es, l, k, v);
    }
    error := None;
  }

  /** Every request was met: so it could be. */
  lemma Sufficient(es: seq<Entry>, maxVec: nat, maxIrq: nat, vectors: seq<Option<Desc>>, irqMap: seq<nat>, l: Ledger)
    requires (forall i :: 0 <= i < |es| && es[i].vec == -1 ==> es[i].prio != -1)
    requires Pass2Done(es, maxVec, maxIrq, |es|, vectors, irqMap, l)
    ensures Assignable(es, maxVec, maxIrq)
  {
    forall i | 0 <= i < |es|
      ensures es[i].vec < maxVec && es[i].irq < maxIrq
    {
      assert i in l.at;
    }
    forall i, j | 0 <= i < j < |es|
      ensures (es[i].vec != -1 ==> es[i].vec != es[j].vec) && (es[i].irq != -1 ==> es[i].irq != es[j].irq)
    {
      assert i in l.at && j in l.at && l.who[l.at[i]] == i && l.who[l.at[j]] == j;
    }
    forall p: nat
      ensures Requests(es, p, |es|) <= Untaken(Hard(es, |es|), Base(p), Limit(p, maxVec))
    {
      assert Untaken(l.who.Keys, Base(p), Limit(p, maxVec)) + Requests(es, p, |es|) == Untaken(Hard(es, |es|), Base(p),
          Limit(p, maxVec));
    }
    hide Vectors, Lines, Balanced, Requests, Untaken;
  }

  // ---------------------------------------------------------------- pass 3 and the whole

  /** The exceptions that push an error code. */
  const ERR_CODE_VECTORS := {8, 10, 11, 12, 13, 14, 17}

  function Spurious(v: int, spurCode: nat, spurNoCode: nat): Desc {
    Desc(if v in ERR_CODE_VECTORS then spurCode else spurNoCode, 0, 0)
  }

  /** Pass 3: what is left gets a spurious handler. */
  method Pass3(vectors: seq<Option<Desc>>, spurCode: nat, spurNoCode: nat) returns (idt: seq<Desc>)
    ensures |idt| == |vectors|
    ensures forall v :: 0 <= v < |vectors| ==> idt[v] == if vectors[v].Some? then vectors[v].value
                                                         else Spurious(v, spurCode, spurNoCode)
  {
    idt := [];
    for i := 0 to |vectors|
      invariant |idt| == i
      invariant forall v :: 0 <= v < i ==> idt[v] == if vectors[v].Some? then vectors[v].value
                                                     else Spurious(v, spurCode, spurNoCode)
    {
      if vectors[i].Some? {
        idt := idt + [vectors[i].value];
      } else {
        idt := idt + [Spurious(i, spurCode, spurNoCode)];
      }
    }
  }

  /** A finished table: every entry has one vector of its own, the one it named or
      one of its group; the map sends its line there; all the rest is spurious. */
  ghost predicate Complete(es: seq<Entry>, maxVec: nat, maxIrq: nat, spurCode: nat, spurNoCode: nat, idt: seq<Desc>,
                           irqMap: seq<nat>, at: map<int, int>, who: map<int, int>) {
    && |idt| == maxVec && |irqMap| == maxIrq
    && (forall i :: 0 <= i < |es| ==>
          && i in at && 0 <= at[i] < maxVec && at[i] in who && who[at[i]] == i && idt[at[i]] == DescOf(es[i])
          && (if es[i].vec != -1 then at[i] == es[i].vec else Base(es[i].prio) <= at[i] < Base(es[i].prio) + 16)
          && (es[i].irq != -1 ==> 0 <= es[i].irq < maxIrq && irqMap[es[i].irq] == at[i]))
    && (forall v :: 0 <= v < maxVec && v !in who ==> idt[v] == Spurious(v, spurCode, spurNoCode))
    && (forall v :: v in who ==> 0 <= who[v] < |es| && at[who[v]] == v)
    && (forall q :: 0 <= q < maxIrq && irqMap[q] != 0 ==> exists i :: 0 <= i < |es| && es[i].irq == q)
  }

  lemma Completed(es: seq<Entry>, maxVec: nat, maxIrq: nat, spurCode: nat, spurNoCode: nat, vectors: seq<Option<Desc>>,
                  irqMap: seq<nat>, l: Ledger, idt: seq<Desc>)
    requires WellFormed(es) && Pass2Done(es, maxVec, maxIrq, |es|, vectors, irqMap, l) && |idt| == |vectors|
    requires forall v :: 0 <= v < |vectors| ==> idt[v] == if vectors[v].Some? then vectors[v].value
                                                          else Spurious(v, spurCode, spurNoCode)
    ensures Complete(es, maxVec, maxIrq, spurCode, spurNoCode, idt, irqMap, l.at, l.who)
  {
    hide Balanced, Spurious;
    forall q | 0 <= q < maxIrq && irqMap[q] != 0
      ensures exists i :: 0 <= i < |es| && es[i].irq == q
    {
      assert q in l.line && es[l.line[q]].irq == q;
    }
  }

  /** setup_idt succeeds exactly when a table is possible, and then it is one. */
  method SetupIdt(spurCode: nat, spurNoCode: nat, es: seq<Entry>, maxVec: nat, maxIrq: nat)
    returns (error: Option<Error>, idt: seq<Desc>, irqMap: seq<nat>, ghost at: map<int, int>, ghost who: map<int, int>)
    requires WellFormed(es)
    ensures error.None? <==> Assignable(es, maxVec, maxIrq)
    ensures error.Some? ==> Blames(error.value, es, maxVec, maxIrq)
    ensures error.None? ==> Complete(es, maxVec, maxIrq, spurCode, spurNoCode, idt, irqMap, at, who)
  {
    var vectors;
    ghost var l;
    idt, at, who := [], map[], map[];
    error, vectors, irqMap, l := Pass1(es, maxVec, maxIrq);
    if error.Some? {
      BlamedRulesOut(error.value, es, maxVec, maxIrq);
      return;
    }
    Pass2Begin(es, maxVec, maxIrq, vectors, irqMap, l);
    assert forall i :: 0 <= i < |es| && es[i].vec == -1 ==> es[i].prio != -1;
    hide Pass1Done, Pass2Done, Assignable, Complete, Blames;
    error, vectors, irqMap, l := Pass2(es, maxVec, maxIrq, vectors, irqMap, l);
    if error.Some? {
      BlamedRulesOut(error.value, es, maxVec, maxIrq);
      return;
    }
    Sufficient(es, maxVec, maxIrq, vectors, irqMap, l);
    idt := Pass3(vectors, spurCode, spurNoCode);
    Completed(es, maxVec, maxIrq, spurCode, spurNoCode, vectors, irqMap, l, idt);
    at, who := l.at, l.who;
  }

  // ---------------------------------------------------------------- the bitfield of free vectors

  /** create_irq_vectors_allocated: bit i of the field says that vector i has a spurious handler. */
  method VectorsAllocated(idt: seq<Desc>, spurCode: nat, spurNoCode: nat) returns (bits: seq<bv32>)
    ensures |bits| == (|idt| + 7) / 8
    ensures forall i :: 0 <= i < |idt| ==> (Has(bits[i / 8], i % 8) <==> idt[i].handler in {spurCode, spurNoCode})
  {
    hide Has, With, Bit;
    bits := seq((|idt| + 7) / 8, _ => 0);
    forall j | 0 <= j < 8
      ensures !Has(0, j)
    {
      NonzeroHas(0);
    }
    for i := 0 to |idt|
      invariant |bits| == (|idt| + 7) / 8
      invariant forall k :: 0 <= k < |idt| ==> (Has(bits[k / 8], k % 8)
         <==> k < i && idt[k].handler in {spurCode, spurNoCode})
    {
      if idt[i].handler in {spurCode, spurNoCode} {
        var before := bits[i / 8];
        forall j | 0 <= j < 8
          ensures Has(With(before, Bit(i % 8)), j) <==> j == i % 8 || Has(before, j)
        {
          Setting(before, i % 8, j);
        }
        bits := bits[i / 8 := With(before, Bit(i % 8))];
      }
    }
  }

  /** The field marks exactly the vectors that no entry has, if and only if no entry
      installs one of the two spurious handlers itself. */
  lemma FreeBitsExact(es: seq<Entry>, maxVec: nat, maxIrq: nat, spurCode: nat, spurNoCode: nat, idt: seq<Desc>,
                      irqMap: seq<nat>, at: map<int, int>, who: map<int, int>)
    requires Complete(es, maxVec, maxIrq, spurCode, spurNoCode, idt, irqMap, at, who)
    ensures (forall v :: 0 <= v < maxVec ==> (idt[v].handler in {spurCode, spurNoCode} <==> v !in who))
       <==> forall i :: 0 <= i < |es| ==> es[i].handler !in {spurCode, spurNoCode}
  {
    if forall v :: 0 <= v < maxVec ==> (idt[v].handler in {spurCode, spurNoCode} <==> v !in who) {
      forall i | 0 <= i < |es|
        ensures es[i].handler !in {spurCode, spurNoCode}
      {
        assert idt[at[i]].handler == es[i].handler;
      }
    }
    if forall i :: 0 <= i < |es| ==> es[i].handler !in {spurCode, spurNoCode} {
      forall v | 0 <= v < maxVec
        ensures idt[v].handler in {spurCode, spurNoCode} <==> v !in who
      {
        if v in who {
          assert idt[v] == DescOf(es[who[v]]);
        }
      }
    }
  }

  // ---------------------------------------------------------------- the gates

  const KERNEL_CODE_SEG := 0x08

  /** create_irq_gate: the two halves of the offset, little-endian, around the
      selector, a zero byte and the type byte. */
  function IrqGate(handler: nat, dpl: nat): seq<nat> {
    var lo, hi := handler % 0x1_0000, handler / 0x1_0000;
    [lo % 0x100, lo / 0x100, KERNEL_CODE_SEG, 0, 0, 0xE + dpl * 0x20 + 0x80, hi % 0x100, hi / 0x100]
  }

  datatype Gate = Gate(offset: nat, selector: nat, kind: nat, dpl: nat, present: bool)

  /** How the processor reads a gate (section 6.11 of the Intel Architecture Software
      Developer's Manual, volume 3): the offset in two halves around the selector,
      then type, descriptor privilege level and present bit in one byte. */
  function ReadGate(b: seq<nat>): Gate
    requires |b| == 8
  {
    Gate((b[0] + b[1] * 0x100) + (b[6] + b[7] * 0x100) * 0x1_0000, b[2] + b[3] * 0x100,
         b[5] % 0x20, b[5] / 0x20 % 4, b[5] >= 0x80)
  }

  lemma GateRoundTrip(handler: nat, dpl: nat)
    requires handler < 0x1_0000_0000 && dpl < 4
    ensures ReadGate(IrqGate(handler, dpl)) == Gate(handler, KERNEL_CODE_SEG, 0xE, dpl, true)
    ensures forall i :: 0 <= i < 8 ==> IrqGate(handler, dpl)[i] < 0x100
  {
    var lo, hi := handler % 0x1_0000, handler / 0x1_0000;
    Halves(lo, 0x100);
    Halves(hi, 0x100);
    Halves(handler, 0x1_0000);
  }

  lemma Halves(x: nat, n: nat)
    requires 0 < n && x < n * n
    ensures x % n + x / n * n == x && x / n < n
  {
  }
}
