/**
 One bit for each of up to 32 priorities, as the multi-queue scheduler keeps
 them in a 32-bit word.
 */
module Bitmasks {

  /** BIT(p). */
  function Bit(p: nat): bv32 {
    if p == 0 then 1 else Bit(p - 1) << 1
  }

  function And(a: bv32, b: bv32): bv32 { a & b }

  predicate Meets(a: bv32, b: bv32) { And(a, b) != 0 }

  predicate Has(mask: bv32, p: nat) { Meets(mask, Bit(p)) }

  function With(mask: bv32, b: bv32): bv32 { mask | b }

  function Without(mask: bv32, b: bv32): bv32 { mask & !b }

  /** The bits below p. */
  function Low(p: nat): bv32 {
    if p == 0 then 0 else With(Low(p - 1), Bit(p - 1))
  }

  lemma SetSame(mask: bv32, b: bv32)
    requires b != 0
    ensures Meets(With(mask, b), b)
  {
    OrAnd(mask, b);
  }

  lemma OrAnd(mask: bv32, b: bv32)
    ensures (mask | b) & b == b
  {
  }

  lemma ClearSame(mask: bv32, b: bv32)
    ensures !Meets(Without(mask, b), b)
  {
    AndAnd(mask, b);
  }

  lemma AndAnd(mask: bv32, b: bv32)
    ensures (mask & !b) & b == 0
  {
  }

  lemma SetOther(mask: bv32, b: bv32, c: bv32)
    requires !Meets(b, c)
    ensures Meets(With(mask, b), c) == Meets(mask, c)
  {
    hide With, And;
    OrElsewhere(mask, b, c);
  }

  lemma OrElsewhere(mask: bv32, b: bv32, c: bv32)
    requires And(b, c) == 0
    ensures And(With(mask, b), c) == And(mask, c)
  {
  }

  lemma ClearOther(mask: bv32, b: bv32, c: bv32)
    requires !Meets(b, c)
    ensures Meets(Without(mask, b), c) == Meets(mask, c)
  {
    hide Without, And;
    AndElsewhere(mask, b, c);
  }

  lemma AndElsewhere(mask: bv32, b: bv32, c: bv32)
    requires And(b, c) == 0
    ensures And(Without(mask, b), c) == And(mask, c)
  {
  }

  lemma Commutes(a: bv32, b: bv32)
    ensures Meets(a, b) == Meets(b, a)
  {
    assert a & b == b & a;
  }

  lemma Joined(mask: bv32, a: bv32, b: bv32)
    ensures Meets(mask, With(a, b)) == (Meets(mask, a) || Meets(mask, b))
  {
    assert mask & (a | b) == (mask & a) | (mask & b);
  }

  /** A single bit: twice it is again one (or falls out of the word), and it fills the gap above the bits below it. */
  predicate Single(b: bv32) { b & (b - 1) == 0 }

  lemma Double(b: bv32)
    requires Single(b)
    ensures Single(b << 1) && With(b - 1, b) == (b << 1) - 1 && !Meets(b, b - 1)
  {
  }

  lemma Halve(b: bv32)
    requires b << 1 != 0
    ensures b != 0
  {
  }

  lemma {:induction false} LowIsBelow(p: nat)
    ensures Single(Bit(p)) && Low(p) == Bit(p) - 1
  {
    if p > 0 {
      LowIsBelow(p - 1);
      Double(Bit(p - 1));
    }
  }

  lemma {:induction false} BitNonzero(p: nat)
    requires p < 32
    ensures Bit(p) != 0
    decreases 32 - p
  {
    if p == 31 {
      HighestBit();
    } else {
      BitNonzero(p + 1);
      Halve(Bit(p));
    }
  }

  lemma HighestBit()
    ensures Bit(31) == 0x8000_0000
  {
    assert Bit(4) == 0x10 by { assert Bit(2) == 4; }
    assert Bit(8) == 0x100 by { assert Bit(6) == 0x40; }
    assert Bit(12) == 0x1000 by { assert Bit(10) == 0x400; }
    assert Bit(16) == 0x1_0000 by { assert Bit(14) == 0x4000; }
    assert Bit(20) == 0x10_0000 by { assert Bit(18) == 0x4_0000; }
    assert Bit(24) == 0x100_0000 by { assert Bit(22) == 0x40_0000; }
    assert Bit(28) == 0x1000_0000 by { assert Bit(26) == 0x400_0000; }
    assert Bit(30) == 0x4000_0000;
  }

  /** Meeting some of the bits below n is meeting one of them. */
  lemma {:induction false} MeetsLow(mask: bv32, n: nat)
    ensures Meets(mask, Low(n)) <==> exists p :: 0 <= p < n && Has(mask, p)
  {
    if n == 0 {
      assert mask & 0 == 0;
    } else {
      MeetsLow(mask, n - 1);
      Joined(mask, Low(n - 1), Bit(n - 1));
      hide Meets, With, Bit;
      assert Has(mask, n - 1) == Meets(mask, Bit(n - 1));
    }
  }

  lemma Apart(q: nat, p: nat)
    requires q < p
    ensures !Meets(Bit(p), Bit(q)) && !Meets(Bit(q), Bit(p))
  {
    LowIsBelow(p);
    Double(Bit(p));
    MeetsLow(Bit(p), p);
    Commutes(Bit(p), Bit(q));
    hide Meets, Bit;
    assert !Has(Bit(p), q);
  }

  /** Setting and clearing BIT(p) changes membership of p and of nothing else. */
  lemma Setting(mask: bv32, p: nat, q: nat)
    requires p < 32 && q < 32
    ensures Has(With(mask, Bit(p)), q) <==> q == p || Has(mask, q)
    ensures Has(Without(mask, Bit(p)), q) <==> q != p && Has(mask, q)
  {
    hide Meets, Bit, With, Without;
    if p == q {
      BitNonzero(p);
      SetSame(mask, Bit(p));
      ClearSame(mask, Bit(p));
    } else {
      Apart(if p < q then p else q, if p < q then q else p);
      SetOther(mask, Bit(p), Bit(q));
      ClearOther(mask, Bit(p), Bit(q));
    }
  }

  lemma NonzeroHas(mask: bv32)
    ensures mask != 0 <==> exists p :: 0 <= p < 32 && Has(mask, p)
  {
    AllBits();
    MeetsLow(mask, 32);
    assert mask & 0xFFFF_FFFF == mask;
  }

  lemma AllBits()
    ensures Low(32) == 0xFFFF_FFFF
  {
    LowIsBelow(32);
    HighestBit();
    assert Bit(32) == Bit(31) << 1;
  }

  /** __builtin_ctz. */
  method CountTrailingZeros(mask: bv32) returns (n: nat)
    requires mask != 0
    ensures n < 32 && Has(mask, n) && forall p :: 0 <= p < n ==> !Has(mask, p)
  {
    NonzeroHas(mask);
    n := 0;
    while !Has(mask, n)
      invariant n < 32 && forall p :: 0 <= p < n ==> !Has(mask, p)
      decreases 32 - n
    {
      n := n + 1;
    }
  }
}
