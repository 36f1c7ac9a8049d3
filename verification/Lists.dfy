/** Lists that hold an element at most once, by how often each element occurs. */
module Lists {

  function One(b: bool): nat { if b then 1 else 0 }

  function Count(q: seq<nat>, t: nat): nat {
    if q == [] then 0 else (if q[0] == t then 1 else 0) + Count(q[1..], t)
  }

  /** sys_dlist_remove. */
  function Remove(q: seq<nat>, t: nat): seq<nat> {
    if q == [] then [] else if q[0] == t then q[1..] else [q[0]] + Remove(q[1..], t)
  }

  lemma {:induction false} RemoveCount(q: seq<nat>, t: nat, u: nat)
    ensures Count(Remove(q, t), u) == if u == t && Count(q, u) > 0 then Count(q, u) - 1 else Count(q, u)
  {
    if q != [] && q[0] != t {
      RemoveCount(q[1..], t, u);
      assert Remove(q, t)[1..] == Remove(q[1..], t);
    }
  }

  lemma {:induction false} AppendCount(q: seq<nat>, t: nat, u: nat)
    ensures Count(q + [t], u) == Count(q, u) + One(u == t)
  {
    if q == [] {
      assert q + [t] == [t] && [t][1..] == [];
    } else {
      AppendCount(q[1..], t, u);
      assert (q + [t])[1..] == q[1..] + [t];
    }
  }

  lemma {:induction false} CountAt(q: seq<nat>, i: nat)
    requires i < |q|
    ensures Count(q, q[i]) >= 1
  {
    if i > 0 {
      CountAt(q[1..], i - 1);
    }
  }

  lemma {:induction false} OnlyOnce(q: seq<nat>, i: nat, j: nat)
    requires i < j < |q| && Count(q, q[i]) <= 1
    ensures q[i] != q[j]
  {
    if i == 0 {
      CountAt(q[1..], j - 1);
    } else {
      OnlyOnce(q[1..], i - 1, j - 1);
    }
  }

  /** A list that holds exactly the numbers below n outside a set. */
  lemma {:induction false} FreeCount(free: seq<nat>, used: set<nat>, n: nat)
    requires forall b: nat :: Count(free, b) == One(b < n && b !in used)
    requires forall b :: b in used ==> b < n
    ensures |free| + |used| == n
    decreases n
  {
    if n == 0 {
      assert used == {};
      if free != [] {
        CountAt(free, 0);
      }
    } else {
      var top := n - 1;
      if top in used {
        forall b: nat
          ensures Count(free, b) == One(b < top && b !in used - {top})
        {
        }
        FreeCount(free, used - {top}, top);
      } else {
        forall b: nat
          ensures Count(Remove(free, top), b) == One(b < top && b !in used)
        {
          RemoveCount(free, top, b);
        }
        RemoveSize(free, top);
        FreeCount(Remove(free, top), used, top);
      }
    }
  }

  lemma {:induction false} RemoveSize(q: seq<nat>, t: nat)
    requires Count(q, t) > 0
    ensures |Remove(q, t)| == |q| - 1
  {
    if q[0] != t {
      RemoveSize(q[1..], t);
    }
  }

  lemma {:induction false} Member(q: seq<nat>, b: nat)
    ensures b in q <==> Count(q, b) > 0
  {
    if q != [] {
      Member(q[1..], b);
    }
  }
}
