/**
 System call marshalling as scripts/gen_syscalls.py generates it: the wrapper
 turns the arguments into machine words, at most six of which go in registers,
 and the handler puts the arguments together again.  The generator is modelled
 with the expressions it emits, and those with the values they have.
 */
module Syscalls {

  /** Whether need_split holds of a type: it takes two words. */
  datatype Kind = Single | Split

  /** The rvalue expressions of a wrapper's invocation: an argument, the halves of
      the n-th split parameter, or the address of the 64-bit return value. */
  datatype Expr = Arg(i: nat) | Lo(n: nat) | Hi(n: nat) | RetAddress

  /** What the handler passes on as an argument: a word, or the n-th split parameter. */
  datatype Parm = WordParm(word: nat) | SplitParm(n: nat)

  /** A split parameter of the handler: the argument it is, and its first word. */
  datatype SplitRec = SplitRec(arg: nat, word: nat)

  /** The number of words of the first k arguments, and of split ones among them. */
  function Words(kinds: seq<Kind>, k: nat): nat
    requires k <= |kinds|
  {
    if k == 0 then 0 else Words(kinds, k - 1) + (if kinds[k - 1].Split? then 2 else 1)
  }

  function Splits(kinds: seq<Kind>, k: nat): nat
    requires k <= |kinds|
  {
    if k == 0 then 0 else Splits(kinds, k - 1) + (if kinds[k - 1].Split? then 1 else 0)
  }

  function Total(kinds: seq<Kind>, ret64: bool): nat { Words(kinds, |kinds|) + (if ret64 then 1 else 0) }

  lemma {:induction false} Monotone(kinds: seq<Kind>, i: nat, k: nat)
    requires i < k <= |kinds|
    ensures Words(kinds, i) + (if kinds[i].Split? then 2 else 1) <= Words(kinds, k)
    ensures Splits(kinds, i) + (if kinds[i].Split? then 1 else 0) <= Splits(kinds, k)
  {
    if i + 1 < k {
      Monotone(kinds, i, k - 1);
    }
  }

  /** The expressions of the first k arguments are where their words belong. */
  ghost predicate Placed(kinds: seq<Kind>, k: nat, mrsh: seq<Expr>, split: seq<nat>)
    requires k <= |kinds|
  {
    && |mrsh| >= Words(kinds, k) && |split| == Splits(kinds, k)
    && forall i :: 0 <= i < k ==> PlacedAt(kinds, mrsh, split, i)
  }

  ghost predicate PlacedAt(kinds: seq<Kind>, mrsh: seq<Expr>, split: seq<nat>, i: nat)
    requires i < |kinds|
  {
    var w, n := Words(kinds, i), Splits(kinds, i);
    if kinds[i].Split? then w + 1 < |mrsh| && n < |split| && mrsh[w] == Lo(n) && mrsh[w + 1] == Hi(n) && split[n] == i
    else w < |mrsh| && mrsh[w] == Arg(i)
  }

  /** The loop of wrapper_defs, and the trailing return address. */
  method WrapperArgs(kinds: seq<Kind>, ret64: bool) returns (mrsh: seq<Expr>, split: seq<nat>)
    ensures |mrsh| == Total(kinds, ret64) && Placed(kinds, |kinds|, mrsh, split)
    ensures ret64 ==> mrsh[|mrsh| - 1] == RetAddress
  {
    mrsh, split := [], [];
    for k := 0 to |kinds|
      invariant Placed(kinds, k, mrsh, split) && |mrsh| == Words(kinds, k)
    {
      ghost var mrsh0, split0 := mrsh, split;
      if kinds[k].Split? {
        mrsh := mrsh + [Lo(|split|), Hi(|split|)];
        split := split + [k];
      } else {
        mrsh := mrsh + [Arg(k)];
      }
      forall i | 0 <= i < k + 1
        ensures PlacedAt(kinds, mrsh, split, i)
      {
        if i < k {
          assert PlacedAt(kinds, mrsh0, split0, i);
          Monotone(kinds, i, k);
        }
      }
    }
    if ret64 {
      ghost var mrsh0 := mrsh;
      mrsh := mrsh + [RetAddress];
      forall i | 0 <= i < |kinds|
        ensures PlacedAt(kinds, mrsh, split, i)
      {
        assert PlacedAt(kinds, mrsh0, split, i);
      }
    }
  }

  /** The handler looks for the words of argument i where the wrapper put them. */
  ghost predicate Fetched(kinds: seq<Kind>, k: nat, parms: seq<Parm>, splits: seq<SplitRec>)
    requires k <= |kinds|
  {
    && |parms| == k && |splits| == Splits(kinds, k)
    && forall i :: 0 <= i < k ==> FetchedAt(kinds, parms, splits, i)
  }

  ghost predicate FetchedAt(kinds: seq<Kind>, parms: seq<Parm>, splits: seq<SplitRec>, i: nat)
    requires i < |kinds| && i < |parms|
  {
    var w, n := Words(kinds, i), Splits(kinds, i);
    if kinds[i].Split? then parms[i] == SplitParm(n) && n < |splits| && splits[n] == SplitRec(i, w)
    else parms[i] == WordParm(w)
  }

  /** The loop of marshall_defs, and the count of words. */
  method MarshallParms(kinds: seq<Kind>, ret64: bool) returns (nmrsh: nat, parms: seq<Parm>, splits: seq<SplitRec>)
    ensures nmrsh == Total(kinds, ret64) && Fetched(kinds, |kinds|, parms, splits)
  {
    nmrsh, parms, splits := 0, [], [];
    for k := 0 to |kinds|
      invariant nmrsh == Words(kinds, k) && Fetched(kinds, k, parms, splits)
    {
      ghost var parms0, splits0 := parms, splits;
      if kinds[k].Split? {
        parms := parms + [SplitParm(|splits|)];
        splits := splits + [SplitRec(k, nmrsh)];
        nmrsh := nmrsh + 2;
      } else {
        parms := parms + [WordParm(nmrsh)];
        nmrsh := nmrsh + 1;
      }
      forall i | 0 <= i < k + 1
        ensures FetchedAt(kinds, parms, splits, i)
      {
        if i < k {
          assert FetchedAt(kinds, parms0, splits0, i);
          Monotone(kinds, i, k);
        }
      }
    }
    if ret64 {
      nmrsh := nmrsh + 1;
    }
  }

  // ---------------------------------------------------------------- what the generated code does

  const WORD := 0x1_0000_0000

  datatype Value = Word(w: nat) | Long(v: nat)

  predicate Fits(value: Value, kind: Kind) {
    match kind
    case Single => value.Word? && value.w < WORD
    case Split => value.Long? && value.v < WORD * WORD
  }

  ghost predicate FitAll(values: seq<Value>, kinds: seq<Kind>) {
    |values| == |kinds| && forall i :: 0 <= i < |kinds| ==> Fits(values[i], kinds[i])
  }

  /** The value of an expression in the wrapper, whose parameters hold the split arguments. */
  function Eval(e: Expr, values: seq<Value>, split: seq<nat>, retAddress: nat): nat {
    match e
    case Arg(i) => if i < |values| && values[i].Word? then values[i].w else 0
    case Lo(n) => if n < |split| && split[n] < |values| && values[split[n]].Long? then values[split[n]].v % WORD else 0
    case Hi(n) => if n < |split| && split[n] < |values| && values[split[n]].Long? then values[split[n]].v / WORD else 0
    case RetAddress => retAddress
  }

  function EvalAll(mrsh: seq<Expr>, values: seq<Value>, split: seq<nat>, retAddress: nat): (r: seq<nat>)
    ensures |r| == |mrsh|
    ensures forall k :: 0 <= k < |mrsh| ==> r[k] == Eval(mrsh[k], values, split, retAddress)
  {
    if mrsh == [] then []
    else [Eval(mrsh[0], values, split, retAddress)] + EvalAll(mrsh[1..], values, split, retAddress)
  }

  /** What the trap carries: the registers, and the words the sixth points to when there are more than six. */
  datatype Trap = Trap(regs: seq<nat>, more: seq<nat>)

  function Spill(words: seq<nat>, moreAddress: nat): (t: Trap)
    ensures |t.regs| <= 6
  {
    if |words| > 6 then Trap(words[..5] + [moreAddress], words[5..]) else Trap(words, [])
  }

  /** mrsh_rval. */
  function Rval(t: Trap, word: nat, total: nat): nat {
    if word < 5 || total <= 6 then (if word < |t.regs| then t.regs[word] else 0)
    else if word - 5 < |t.more| then t.more[word - 5] else 0
  }

  /** The spill past six words is undone by the way the handler names them. */
  lemma SpillRoundTrip(words: seq<nat>, moreAddress: nat, k: nat)
    requires k < |words|
    ensures Rval(Spill(words, moreAddress), k, |words|) == words[k]
  {
  }

  /** How many of the words behind the sixth register the handler has checked before it reads them. */
  function CheckedWords(total: nat): nat { if total > 6 then total - 6 else 0 }

  /** The words the handler takes from there. */
  predicate FromMore(word: nat, total: nat) { 5 <= word < total && total > 6 }

  /** The checked range covers all the words the handler reads exactly when there are none: otherwise
      it is one short of what the wrapper stored, and leaves out the last word and no other. */
  lemma CheckCovers(words: seq<nat>, moreAddress: nat)
    ensures var total := |words|;
            && ((forall w: nat :: FromMore(w, total) ==> w - 5 < CheckedWords(total)) <==> total <= 6)
            && (total > 6 ==> |Spill(words, moreAddress).more| == CheckedWords(total) + 1)
            && forall w: nat :: FromMore(w, total) ==> (w - 5 < CheckedWords(total) <==> w != total - 1)
  {
    var total := |words|;
    if total > 6 {
      assert FromMore(total - 1, total);
    }
  }

  function Decode(t: Trap, total: nat, parm: Parm, splits: seq<SplitRec>): Value {
    match parm
    case WordParm(w) => Word(Rval(t, w, total))
    case SplitParm(n) =>
      if n < |splits| then Long(Rval(t, splits[n].word, total) + Rval(t, splits[n].word + 1, total) * WORD) else Long(0)
  }

  lemma Join(v: nat)
    ensures v % WORD + v / WORD * WORD == v
  {
  }

  /** The handler gets exactly the values the wrapper was given, and the address for
      a 64-bit result, whatever the mix of one- and two-word types. */
  lemma RoundTrip(kinds: seq<Kind>, ret64: bool, values: seq<Value>, retAddress: nat, moreAddress: nat,
                  mrsh: seq<Expr>, split: seq<nat>, parms: seq<Parm>, splits: seq<SplitRec>, i: nat)
    requires FitAll(values, kinds) && |mrsh| == Total(kinds, ret64)
    requires Placed(kinds, |kinds|, mrsh, split) && (ret64 ==> mrsh[|mrsh| - 1] == RetAddress)
    requires Fetched(kinds, |kinds|, parms, splits)
    ensures var t := Spill(EvalAll(mrsh, values, split, retAddress), moreAddress);
            && (i < |kinds| ==> Decode(t, Total(kinds, ret64), parms[i], splits) == values[i])
            && (ret64 ==> Rval(t, Total(kinds, ret64) - 1, Total(kinds, ret64)) == retAddress)
  {
    var words := EvalAll(mrsh, values, split, retAddress);
    hide EvalAll, Spill, Rval, Words, Splits;
    if ret64 {
      SpillRoundTrip(words, moreAddress, |words| - 1);
    }
    if i < |kinds| {
      assert PlacedAt(kinds, mrsh, split, i) && FetchedAt(kinds, parms, splits, i);
      var w := Words(kinds, i);
      SpillRoundTrip(words, moreAddress, w);
      if kinds[i].Split? {
        SpillRoundTrip(words, moreAddress, w + 1);
        Join(values[i].v);
      }
    }
  }

  /** One system call from end to end: the arguments arrive as they were, and the
      result comes back as it was, through the register or through the return address. */
  method Call(kinds: seq<Kind>, values: seq<Value>, ret: Value, ret64: bool, retAddress: nat, moreAddress: nat)
    returns (arrived: seq<Value>, returned: Value)
    requires FitAll(values, kinds) && Fits(ret, if ret64 then Split else Single)
    ensures arrived == values && returned == ret
  {
    var mrsh, split := WrapperArgs(kinds, ret64);
    var nmrsh, parms, splits := MarshallParms(kinds, ret64);
    var trap := Spill(EvalAll(mrsh, values, split, retAddress), moreAddress);
    arrived := [];
    for i := 0 to |kinds|
      invariant arrived == values[..i]
    {
      RoundTrip(kinds, ret64, values, retAddress, moreAddress, mrsh, split, parms, splits, i);
      arrived := arrived + [Decode(trap, nmrsh, parms[i], splits)];
    }
    var memory: map<nat, nat> := map[];
    if ret64 {
      RoundTrip(kinds, ret64, values, retAddress, moreAddress, mrsh, split, parms, splits, |kinds|);
      memory := memory[Rval(trap, nmrsh - 1, nmrsh) := ret.v];
      returned := Long(memory[retAddress]);
    } else {
      returned := Word(ret.w % WORD);
    }
  }
}
