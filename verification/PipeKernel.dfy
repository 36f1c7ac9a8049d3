/**
 kernel/pipes.c: the ring, the working list and the copy loops, proved to do
 what module Pipes says.  The agreement rests on the invariant stated there:
 without it the working list chosen by pipe_xfer_prepare would be too short.
 */
module PipeKernel {
  import opened Memory
  import opened Pipes
  import opened WaitQueues

  /** pipe_xfer into the ring: copies what fits, touches nothing else. */
  method Xfer(dest: array<Byte>, at: nat, room: nat, src: seq<Byte>) returns (n: nat)
    requires at + room <= dest.Length
    modifies dest
    ensures n == Min(room, |src|)
    ensures dest[..] == old(dest[..])[..at] + src[..n] + old(dest[..])[at + n..]
  {
    n := Min(room, |src|);
    Copy(dest, at, src[..n]);
  }

  function Sum(amounts: seq<nat>): nat {
    if amounts == [] then 0 else amounts[0] + Sum(amounts[1..])
  }

  lemma {:induction false} SumAppend(a: seq<nat>, b: seq<nat>)
    ensures Sum(a + b) == Sum(a) + Sum(b)
  {
    if a == [] {
      assert a + b == b;
    } else {
      SumAppend(a[1..], b);
      assert (a + b)[1..] == a[1..] + b;
    }
  }

  lemma SumTake(a: seq<nat>, k: nat)
    requires k < |a|
    ensures Sum(a[..k + 1]) == Sum(a[..k]) + a[k] && Sum(a[..k]) <= Sum(a)
  {
    SumOne(a[k]);
    hide Sum;
    assert a[..k + 1] == a[..k] + [a[k]];
    SumAppend(a[..k], [a[k]]);
    assert a == a[..k] + a[k..];
    SumAppend(a[..k], a[k..]);
  }

  lemma SumOne(x: nat)
    ensures Sum([x]) == x && Sum([]) == 0
  {
    assert [x][1..] == [];
  }

  /** pipe_xfer_prepare: whether the request may go ahead, how many waiters from
      the head of the queue it satisfies in full, and whether one more is served
      in part.  amounts are the bytes the waiters still have to transfer. */
  method Prepare(amounts: seq<nat>, pipeSpace: nat, bytesToXfer: nat, minXfer: nat, noWait: bool)
    returns (ok: bool, count: nat, partial: bool)
    requires minXfer <= bytesToXfer
    ensures ok <==> !(noWait && Min(bytesToXfer, Sum(amounts) + pipeSpace) < minXfer)
    ensures count <= |amounts| && Sum(amounts[..count]) <= bytesToXfer
    ensures ok ==> (partial <==> count < |amounts|)
    ensures ok && partial ==> bytesToXfer < Sum(amounts[..count + 1])
  {
    SumOne(0);
    hide Sum;
    var numBytes := 0;
    count, partial := 0, false;
    if noWait {
      var i := 0;
      while i < |amounts|
        invariant 0 <= i <= |amounts| && numBytes == Sum(amounts[..i])
        invariant numBytes < bytesToXfer || i == 0
      {
        SumTake(amounts, i);
        numBytes := numBytes + amounts[i];
        i := i + 1;
        if numBytes >= bytesToXfer {
          break;
        }
      }
      assert amounts[..|amounts|] == amounts;
      if i < |amounts| {
        SumTake(amounts, i);
      }
      if numBytes + pipeSpace < minXfer {
        return false, 0, false;
      }
    }
    ok := true;
    numBytes := 0;
    while count < |amounts|
      invariant 0 <= count <= |amounts| && numBytes == Sum(amounts[..count]) <= bytesToXfer
    {
      SumTake(amounts, count);
      numBytes := numBytes + amounts[count];
      if numBytes > bytesToXfer {
        break;
      }
      count := count + 1;
    }
    partial := numBytes > bytesToXfer;
  }

  // ---------------------------------------------------------------- what the working list moves

  function Needs(rs: Readers): (r: seq<nat>)
    ensures |r| == |rs|
  {
    if rs == [] then [] else [rs[0].desc.need] + Needs(rs[1..])
  }

  function Offers(ws: Writers): (r: seq<nat>)
    ensures |r| == |ws|
  {
    if ws == [] then [] else [|ws[0].desc.data|] + Offers(ws[1..])
  }

  lemma {:induction false} NeedsSum(rs: Readers)
    ensures Sum(Needs(rs)) == Needed(rs)
  {
    if rs != [] {
      NeedsSum(rs[1..]);
    }
  }

  lemma {:induction false} OffersSum(ws: Writers)
    ensures Sum(Offers(ws)) == Offered(ws)
  {
    if ws != [] {
      OffersSum(ws[1..]);
    }
  }

  lemma {:induction false} NeedsTake(rs: Readers, k: nat)
    requires k <= |rs|
    ensures Needs(rs)[..k] == Needs(rs[..k])
  {
    if k > 0 {
      NeedsTake(rs[1..], k - 1);
      assert rs[..k][1..] == rs[1..][..k - 1];
    }
  }

  lemma {:induction false} OffersTake(ws: Writers, k: nat)
    requires k <= |ws|
    ensures Offers(ws)[..k] == Offers(ws[..k])
  {
    if k > 0 {
      OffersTake(ws[1..], k - 1);
      assert ws[..k][1..] == ws[1..][..k - 1];
    }
  }

  lemma {:induction false} NeedSplit(rs: Readers, k: nat)
    requires HaveNeed(rs) && k <= |rs|
    ensures HaveNeed(rs[..k]) && HaveNeed(rs[k..])
  {
    if k > 0 {
      NeedSplit(rs[1..], k - 1);
      assert rs[..k][1..] == rs[1..][..k - 1];
    }
  }

  lemma {:induction false} DataSplit(ws: Writers, k: nat)
    requires HaveData(ws) && k <= |ws|
    ensures HaveData(ws[..k]) && HaveData(ws[k..])
  {
    if k > 0 {
      DataSplit(ws[1..], k - 1);
      assert ws[..k][1..] == ws[1..][..k - 1];
    }
  }

  lemma {:induction false} DataJoin(xs: Writers, ys: Writers)
    requires HaveData(xs) && HaveData(ys)
    ensures HaveData(xs + ys)
  {
    if xs == [] {
      assert xs + ys == ys;
    } else {
      DataJoin(xs[1..], ys);
      assert (xs + ys)[1..] == xs[1..] + ys;
    }
  }

  lemma ThreadsCons<D>(done: seq<ThreadId>, q: seq<Waiter<D>>)
    ensures q == [] ==> done + Threads(q) == done
    ensures q != [] ==> done + Threads(q) == (done + [q[0].tid]) + Threads(q[1..])
  {
    if q != [] {
      Associative(done, [q[0].tid], Threads(q[1..]));
    }
  }

  /** Each of these readers has got all the bytes it asked for. */
  ghost predicate Satisfied(rs: Readers, pieces: seq<Piece>) {
    |rs| <= |pieces| && forall i :: 0 <= i < |rs| ==>
      pieces[i].req == rs[i].desc.req && |pieces[i].bytes| == rs[i].desc.need
  }

  lemma OneMoreSatisfied(rs: Readers, pieces: seq<Piece>, piece: Piece)
    requires |pieces| < |rs| && Satisfied(rs[..|pieces|], pieces)
    requires piece.req == rs[|pieces|].desc.req && |piece.bytes| == rs[|pieces|].desc.need
    ensures Satisfied(rs[..|pieces| + 1], pieces + [piece])
  {
    assert forall i :: 0 <= i < |pieces| ==> rs[..|pieces|][i] == rs[i];
  }

  /** The copies of z_pipe_put_internal to its working list: every reader on it is satisfied in full. */
  method CopyToWorkingList(xfer0: Readers, rest: Readers, data: seq<Byte>)
    returns (pieces: seq<Piece>, written: nat, readied: seq<ThreadId>)
    requires HaveNeed(xfer0) && Needed(xfer0) <= |data|
    ensures written == Needed(xfer0)
    ensures Feed(xfer0 + rest, data) == FeedAfter(pieces, rest, data[written..])
    ensures readied == Threads(xfer0) && Satisfied(xfer0, pieces)
  {
    hide Feed, FeedAfter, Threads, Satisfied;
    var xfer := xfer0;
    pieces, written, readied := [], 0, [];
    assert data[0..] == data;
    FeedNone(xfer + rest, data);
    assert [] + Threads(xfer) == Threads(xfer);
    NobodySatisfied(xfer0);
    while xfer != []
      invariant |pieces| <= |xfer0| && xfer == xfer0[|pieces|..] && Satisfied(xfer0[..|pieces|], pieces)
      invariant HaveNeed(xfer) && Needed(xfer) + written == Needed(xfer0)
      invariant readied + Threads(xfer) == Threads(xfer0)
      invariant Feed(xfer0 + rest, data) == FeedAfter(pieces, xfer + rest, data[written..])
      decreases |xfer|
    {
      var d := xfer[0].desc;
      var n := Min(d.need, |data| - written);
      FeedHead(pieces, xfer, rest, data, written);
      OneMoreSatisfied(xfer0, pieces, Piece(d.req, data[written..written + n]));
      pieces := pieces + [Piece(d.req, data[written..written + n])];
      written := written + n;
      ThreadsCons(readied, xfer);
      readied := readied + [xfer[0].tid];
      xfer := xfer[1..];
    }
    assert xfer + rest == rest;
    assert xfer0[..|pieces|] == xfer0;
    ThreadsCons(readied, xfer);
  }

  lemma NobodySatisfied(rs: Readers)
    ensures Satisfied(rs[..0], [])
  {
  }

  /** All copies of z_pipe_put_internal to waiting readers: the working list, then one more reader in part. */
  method CopyToReaders(xfer: Readers, rest0: Readers, data: seq<Byte>)
    returns (rest: Readers, pieces: seq<Piece>, written: nat, readied: seq<ThreadId>)
    requires HaveNeed(xfer)
    requires Needed(xfer) <= |data| && (rest0 != [] ==> |data| < Needed(xfer) + rest0[0].desc.need)
    ensures written <= |data|
    ensures Feed(xfer + rest0, data) == (rest, pieces, data[written..])
    ensures readied == Threads(xfer) && Satisfied(xfer, pieces) && Threads(rest) == Threads(rest0)
  {
    hide Feed, FeedAfter, Needed;
    pieces, written, readied := CopyToWorkingList(xfer, rest0, data);
    rest := rest0;
    FeedLast(pieces, rest, data[written..]);
    if rest != [] {
      var d := rest[0].desc;
      var n := Min(d.need, |data| - written);
      assert data[written + n..] == [] && data[written..written + n] == data[written..];
      if n > 0 {
        pieces := pieces + [Piece(d.req, data[written..written + n])];
        rest := [rest[0].(desc := Incoming(d.req, d.need - n))] + rest[1..];
      }
      written := written + n;
    }
  }

  function FeedAfter(done: seq<Piece>, rs: Readers, data: seq<Byte>): (Readers, seq<Piece>, seq<Byte>) {
    var (rest, ps, left) := Feed(rs, data);
    (rest, done + ps, left)
  }

  lemma FeedNone(rs: Readers, data: seq<Byte>)
    ensures FeedAfter([], rs, data) == Feed(rs, data)
  {
    var ps := Feed(rs, data).1;
    assert [] + ps == ps;
  }

  lemma FeedLast(done: seq<Piece>, rs: Readers, data: seq<Byte>)
    requires rs != [] ==> |data| < rs[0].desc.need
    ensures FeedAfter(done, rs, data)
         == if rs == [] then (rs, done, data)
            else if data == [] then (rs, done, [])
            else ([rs[0].(desc := Incoming(rs[0].desc.req, rs[0].desc.need - |data|))] + rs[1..],
                  done + [Piece(rs[0].desc.req, data)], [])
  {
    assert done + [] == done;
  }

  lemma FeedOne(done: seq<Piece>, rs: Readers, data: seq<Byte>)
    requires rs != [] && data != [] && rs[0].desc.need <= |data|
    ensures var d := rs[0].desc;
            FeedAfter(done, rs, data) == FeedAfter(done + [Piece(d.req, data[..d.need])], rs[1..], data[d.need..])
  {
    var d := rs[0].desc;
    var ps := Feed(rs[1..], data[d.need..]).1;
    assert done + ([Piece(d.req, data[..d.need])] + ps) == (done + [Piece(d.req, data[..d.need])]) + ps;
  }

  lemma FeedHead(done: seq<Piece>, xfer: Readers, rest: Readers, data: seq<Byte>, at: nat)
    requires xfer != [] && at <= |data| && 0 < xfer[0].desc.need <= |data| - at
    ensures var d := xfer[0].desc;
            FeedAfter(done, xfer + rest, data[at..])
            == FeedAfter(done + [Piece(d.req, data[at..at + d.need])], xfer[1..] + rest, data[at + d.need..])
  {
    hide FeedAfter;
    var n := xfer[0].desc.need;
    FeedOne(done, xfer + rest, data[at..]);
    assert (xfer + rest)[1..] == xfer[1..] + rest;
    assert data[at..][n..] == data[at + n..];
    assert data[at..][..n] == data[at..at + n];
  }

  function DrainAfter(done: seq<Piece>, ws: Writers, n: nat): (Writers, seq<Piece>) {
    var (rest, ps) := Drain(ws, n);
    (rest, done + ps)
  }

  lemma DrainNone(ws: Writers, n: nat)
    ensures DrainAfter([], ws, n) == Drain(ws, n)
  {
    var ps := Drain(ws, n).1;
    assert [] + ps == ps;
  }

  lemma DrainLast(done: seq<Piece>, ws: Writers, n: nat)
    requires ws == [] || n == 0
    ensures DrainAfter(done, ws, n) == (ws, done)
  {
    assert done + [] == done;
  }

  lemma DrainOne(done: seq<Piece>, ws: Writers, n: nat)
    requires ws != [] && n != 0
    ensures var d := ws[0].desc;
            DrainAfter(done, ws, n)
            == if |d.data| <= n then DrainAfter(done + [Piece(d.req, d.data)], ws[1..], n - |d.data|)
               else ([ws[0].(desc := Outgoing(d.req, d.data[n..]))] + ws[1..], done + [Piece(d.req, d.data[..n])])
  {
    var d := ws[0].desc;
    if |d.data| <= n {
      var ps := Drain(ws[1..], n - |d.data|).1;
      assert done + ([Piece(d.req, d.data)] + ps) == (done + [Piece(d.req, d.data)]) + ps;
    }
  }

  /** A working list whose head has nothing left to give stands for the list without it. */
  function Trim(ws: Writers): Writers {
    if ws != [] && ws[0].desc.data == [] then ws[1..] else ws
  }

  /** One copy from the head of the working list. */
  lemma DrainHead(done: seq<Piece>, xfer: Writers, rest: Writers, room: nat)
    requires xfer != [] && room > 0
    ensures var d := xfer[0].desc;
            var n := Min(room, |d.data|);
            var done' := done + [Piece(d.req, d.data[..n])];
            DrainAfter(done, xfer + rest, room)
            == if n < room then DrainAfter(done', xfer[1..] + rest, room - n)
               else DrainAfter(done', Trim(Taken(xfer, n) + rest), 0)
  {
    var d := xfer[0].desc;
    var n := Min(room, |d.data|);
    var done', tail := done + [Piece(d.req, d.data[..n])], xfer[1..] + rest;
    var head := xfer[0].(desc := Outgoing(d.req, d.data[n..]));
    DrainOne(done, xfer + rest, room);
    hide DrainAfter;
    assert (xfer + rest)[1..] == tail;
    assert n == |d.data| ==> d.data[..n] == d.data;
    assert Taken(xfer, n) + rest == [head] + tail;
    DrainLast(done', tail, 0);
    DrainLast(done', [head] + tail, 0);
  }

  /** n bytes were copied from the buffer of the first waiter. */
  function Taken(ws: Writers, n: nat): Writers
    requires ws != [] && n <= |ws[0].desc.data|
  {
    [ws[0].(desc := Outgoing(ws[0].desc.req, ws[0].desc.data[n..]))] + ws[1..]
  }

  lemma TakenFacts(ws: Writers, n: nat)
    requires ws != [] && n <= |ws[0].desc.data|
    ensures n + Offered(Taken(ws, n)) == Offered(ws) && Threads(Taken(ws, n)) == Threads(ws)
    ensures Taken(ws, n)[1..] == ws[1..]
  {
  }

  /** z_impl_k_pipe_get's copies from its working list straight to the reader, until it has room bytes. */
  method CopyFromWorkingList(xfer0: Writers, rest: Writers, room: nat)
    returns (xfer: Writers, bytes: seq<Byte>, pieces: seq<Piece>, readied: seq<ThreadId>)
    requires HaveData(xfer0) && HaveData(rest)
    ensures |bytes| <= room && bytes == Bytes(pieces) && |bytes| + Offered(xfer) == Offered(xfer0)
    ensures Drain(xfer0 + rest, room) == DrainAfter(pieces, Trim(xfer + rest), room - |bytes|)
    ensures |bytes| < room ==> xfer == []
    ensures xfer != [] ==> HaveData(xfer[1..])
    ensures readied + Threads(xfer) == Threads(xfer0)
  {
    hide Drain, DrainAfter, Bytes, Threads, Taken, Trim;
    xfer, bytes, pieces, readied := xfer0, [], [], [];
    DrainNone(xfer + rest, room);
    DrainNobody(0);
    assert [] + Threads(xfer) == Threads(xfer);
    while xfer != [] && |bytes| < room
      invariant |bytes| <= room && bytes == Bytes(pieces) && |bytes| + Offered(xfer) == Offered(xfer0)
      invariant HaveData(xfer)
      invariant readied + Threads(xfer) == Threads(xfer0)
      invariant Drain(xfer0 + rest, room) == DrainAfter(pieces, xfer + rest, room - |bytes|)
      decreases |xfer|
    {
      var d := xfer[0].desc;
      var n := Min(room - |bytes|, |d.data|);
      DrainHead(pieces, xfer, rest, room - |bytes|);
      BytesAppend1(pieces, Piece(d.req, d.data[..n]));
      TakenFacts(xfer, n);
      bytes, pieces := bytes + d.data[..n], pieces + [Piece(d.req, d.data[..n])];
      if |bytes| == room {
        xfer := Taken(xfer, n);
        return;
      }
      assert d.data[n..] == [];  // its request is satisfied: it may run
      ThreadsCons(readied, xfer);
      readied := readied + [xfer[0].tid];
      xfer := xfer[1..];
    }
    DataJoin(xfer, rest);
    TrimNone(xfer + rest);
  }

  lemma TrimNone(ws: Writers)
    requires HaveData(ws)
    ensures Trim(ws) == ws
  {
  }

  /** All of z_impl_k_pipe_get's direct copies: the working list, then one more writer in part. */
  method CopyFromWriters(xfer0: Writers, rest0: Writers, room: nat)
    returns (xfer: Writers, rest: Writers, bytes: seq<Byte>, pieces: seq<Piece>, readied: seq<ThreadId>)
    requires HaveData(xfer0) && HaveData(rest0)
    requires rest0 != [] ==> room < Offered(xfer0) + |rest0[0].desc.data|
    ensures Drain(xfer0 + rest0, room) == (Trim(xfer + rest), pieces) && bytes == Bytes(pieces)
    ensures |bytes| <= room && (|bytes| < room ==> xfer == [] && rest == [])
    ensures |bytes| + Offered(xfer) + HeadOffer(rest) == Offered(xfer0) + HeadOffer(rest0)
    ensures (xfer != [] ==> rest == rest0 && HaveData(xfer[1..])) && HaveData(rest) && (rest == [] <==> rest0 == [])
    ensures readied + Threads(xfer) == Threads(xfer0) && Threads(rest) == Threads(rest0)
  {
    hide Drain, DrainAfter, Bytes, Threads, Taken, Trim;
    xfer, bytes, pieces, readied := CopyFromWorkingList(xfer0, rest0, room);
    rest := rest0;
    if rest != [] && |bytes| < room {
      var n := Min(room - |bytes|, |rest[0].desc.data|);
      DrainFrom(pieces, rest, room - |bytes|);
      assert xfer + rest == rest;
      BytesAppend1(pieces, Piece(rest[0].desc.req, rest[0].desc.data[..n]));
      TakenFacts(rest, n);
      TrimNone(rest);
      bytes, pieces := bytes + rest[0].desc.data[..n], pieces + [Piece(rest[0].desc.req, rest[0].desc.data[..n])];
      rest := Taken(rest, n);
      assert xfer + rest == rest;
    } else {
      TrimNone([]);
      assert xfer == [] && rest == [] ==> xfer + rest == [];
      DrainLast(pieces, Trim(xfer + rest), room - |bytes|);
    }
  }

  /** Taking less from the first writer than it has. */
  lemma DrainFrom(done: seq<Piece>, ws: Writers, n: nat)
    requires HaveData(ws) && ws != [] && n < |ws[0].desc.data|
    ensures DrainAfter(done, ws, n)
         == (Trim(Taken(ws, n)), if n == 0 then done else done + [Piece(ws[0].desc.req, ws[0].desc.data[..n])])
    ensures HaveData(Taken(ws, n)) && |Taken(ws, n)[0].desc.data| == |ws[0].desc.data| - n
  {
    assert Taken(ws, n)[1..] == ws[1..];
    if n == 0 {
      DrainLast(done, ws, n);
      assert ws[0].desc.data[0..] == ws[0].desc.data;
      assert Taken(ws, n) == ws;
    } else {
      DrainOne(done, ws, n);
    }
  }

  /** One writer of the working list put into the ring; the first may have nothing left. */
  lemma RefillHead(done: seq<Piece>, xfer: Writers, rest: Writers, room: nat)
    requires xfer != [] && HaveData(xfer[1..]) && HaveData(rest) && |xfer[0].desc.data| <= room
    ensures var d := xfer[0].desc;
            DrainAfter(done, Trim(xfer + rest), room)
            == DrainAfter(if d.data == [] then done else done + [Piece(d.req, d.data)],
                          Trim(xfer[1..] + rest), room - |d.data|)
  {
    hide DrainAfter, HaveData;
    assert (xfer + rest)[1..] == xfer[1..] + rest;
    DataJoin(xfer[1..], rest);
    TrimNone(xfer[1..] + rest);
    if xfer[0].desc.data != [] {
      DrainOne(done, xfer + rest, room);
    }
  }

  function HeadOffer(ws: Writers): nat {
    if ws == [] then 0 else |ws[0].desc.data|
  }

  // ---------------------------------------------------------------- the ring

  /** index i of a ring of the given size, for i at most one lap beyond it */
  function Wrap(i: nat, size: nat): nat { if i < size then i else i - size }

  /** The used bytes of a ring buffer, oldest first. */
  function Unroll(buf: seq<Byte>, r: nat, used: nat): (s: seq<Byte>)
    requires used <= |buf| && (r < |buf| || |buf| == 0)
    ensures |s| == used
  {
    seq(used, j requires 0 <= j < used => buf[Wrap(r + j, |buf|)])
  }

  lemma PutRunUnrolls(buf: seq<Byte>, buf': seq<Byte>, r: nat, used: nat, src: seq<Byte>)
    requires |buf'| == |buf| && r < |buf| && used + |src| <= |buf|
    requires var w := Wrap(r + used, |buf|); w + |src| <= |buf| && buf' == buf[..w] + src + buf[w + |src|..]
    ensures Unroll(buf', r, used + |src|) == Unroll(buf, r, used) + src
  {
    var a, b := Unroll(buf', r, used + |src|), Unroll(buf, r, used) + src;
    forall j | 0 <= j < |a|
      ensures a[j] == b[j]
    {
      assert a[j] == buf'[Wrap(r + j, |buf|)];
    }
  }

  lemma GetRunUnrolls(buf: seq<Byte>, r: nat, used: nat, n: nat)
    requires r < |buf| && used <= |buf| && n <= used && r + n <= |buf|
    ensures Unroll(buf, r, used) == buf[r..r + n] + Unroll(buf, Wrap(r + n, |buf|), used - n)
  {
    var a, b := Unroll(buf, r, used), buf[r..r + n] + Unroll(buf, Wrap(r + n, |buf|), used - n);
    forall j | 0 <= j < |a|
      ensures a[j] == b[j]
    {
      assert a[j] == buf[Wrap(r + j, |buf|)];
      if n <= j {
        assert b[j] == buf[Wrap(Wrap(r + n, |buf|) + (j - n), |buf|)];
      }
    }
  }

  lemma WrapBound(r: nat, used: nat, size: nat)
    requires r < size && used <= size
    ensures Wrap(r + used, size) < size
  {
  }

  lemma WrapOn(r: nat, used: nat, n: nat, size: nat)
    requires r < size && used + n <= size && Wrap(r + used, size) + n <= size
    ensures Wrap(r + (used + n), size) == if Wrap(r + used, size) + n == size then 0 else Wrap(r + used, size) + n
  {
  }

  lemma NothingPut(buf: seq<Byte>, buf': seq<Byte>, src: seq<Byte>, copied: nat, contents: seq<Byte>)
    requires |buf| == |buf'| == 0 == copied
    ensures buf' == buf && contents + src[..copied] == contents
  {
  }

  /** The ring of a struct k_pipe. */
  class RingBuffer {
    const size: nat
    const buffer: array<Byte>
    var bytesUsed: nat
    var readIndex: nat
    var writeIndex: nat
    ghost var contents: seq<Byte>

    ghost predicate Valid() reads this, buffer {
      && buffer.Length == size && bytesUsed <= size
      && (if size == 0 then readIndex == writeIndex == 0
          else readIndex < size && writeIndex == Wrap(readIndex + bytesUsed, size))
      && contents == Unroll(buffer[..], readIndex, bytesUsed)
    }

    constructor (b: array<Byte>)
      ensures buffer == b && size == b.Length && contents == [] && Valid()
    {
      buffer, size := b, b.Length;
      bytesUsed, readIndex, writeIndex, contents := 0, 0, 0, [];
    }

    /** One run of pipe_buffer_put. */
    method PutRun(src: seq<Byte>) returns (copied: nat)
      requires Valid()
      modifies this, buffer
      ensures Valid() && copied == Min(Min(size - old(bytesUsed), size - old(writeIndex)), |src|)
      ensures writeIndex == (if old(writeIndex) + copied == size then 0 else old(writeIndex) + copied)
      ensures contents == old(contents) + src[..copied] && bytesUsed == old(bytesUsed) + copied
    {
      hide Unroll, Wrap;
      if size > 0 {
        WrapBound(readIndex, bytesUsed, size);
      }
      var runLength := Min(size - bytesUsed, size - writeIndex);
      copied := Xfer(buffer, writeIndex, runLength, src);
      if size > 0 {
        PutRunUnrolls(old(buffer[..]), buffer[..], readIndex, bytesUsed, src[..copied]);
        WrapOn(readIndex, bytesUsed, copied, size);
      }
      bytesUsed := bytesUsed + copied;
      writeIndex := writeIndex + copied;
      if writeIndex == size {
        writeIndex := 0;
      }
      contents := contents + src[..copied];
      if size == 0 {
        NothingPut(old(buffer[..]), buffer[..], src, copied, old(contents));
      }
    }

    /** pipe_buffer_put: two runs, one up to the end of the buffer and one from its start. */
    method Put(src: seq<Byte>) returns (n: nat)
      requires Valid()
      modifies this, buffer
      ensures Valid() && n == Min(|src|, size - |old(contents)|)
      ensures contents == old(contents) + src[..n]
    {
      n := 0;
      var i := 0;
      while i < 2
        invariant 0 <= i <= 2 && n <= |src| && Valid() && bytesUsed == old(bytesUsed) + n
        invariant contents == old(contents) + src[..n]
        invariant i == 1 ==> n == Min(|src|, size - old(bytesUsed)) || writeIndex == 0
        invariant i == 2 ==> n == Min(|src|, size - old(bytesUsed))
      {
        var copied := PutRun(src[n..]);
        assert src[..n + copied] == src[..n] + src[n..][..copied];
        n := n + copied;
        i := i + 1;
      }
    }

    /** One run of pipe_buffer_get. */
    method GetRun(room: nat) returns (bytes: seq<Byte>)
      requires Valid()
      modifies this
      ensures Valid() && |bytes| == Min(Min(old(bytesUsed), size - old(readIndex)), room)
      ensures readIndex == (if old(readIndex) + |bytes| == size then 0 else old(readIndex) + |bytes|)
      ensures old(contents) == bytes + contents && bytesUsed == old(bytesUsed) - |bytes|
    {
      var runLength := Min(bytesUsed, size - readIndex);
      var copied := Min(room, runLength);
      bytes := buffer[readIndex..readIndex + copied];
      if size > 0 {
        GetRunUnrolls(buffer[..], readIndex, bytesUsed, copied);
      }
      bytesUsed := bytesUsed - copied;
      readIndex := readIndex + copied;
      if readIndex == size {
        readIndex := 0;
      }
      contents := contents[copied..];
    }

    /** pipe_buffer_get. */
    method Get(room: nat) returns (bytes: seq<Byte>)
      requires Valid()
      modifies this
      ensures Valid() && |bytes| == Min(room, |old(contents)|)
      ensures old(contents) == bytes + contents
    {
      bytes := [];
      var i := 0;
      while i < 2
        invariant 0 <= i <= 2 && |bytes| <= room && Valid() && |bytes| + bytesUsed == old(bytesUsed)
        invariant old(contents) == bytes + contents
        invariant i == 1 ==> |bytes| == Min(room, old(bytesUsed)) || readIndex == 0
        invariant i == 2 ==> |bytes| == Min(room, old(bytesUsed))
      {
        var more := GetRun(room - |bytes|);
        Associative(bytes, more, contents);
        bytes := bytes + more;
        i := i + 1;
      }
    }
  }

  /** z_impl_k_pipe_get's puts into the ring from the writers left on its working list, all of which fit. */
  method RefillFromWorkingList(ring: RingBuffer, xfer0: Writers, rest: Writers)
    returns (pieces: seq<Piece>, readied: seq<ThreadId>)
    requires ring.Valid() && Offered(xfer0) <= ring.size - |ring.contents|
    requires (xfer0 != [] ==> HaveData(xfer0[1..])) && HaveData(rest)
    modifies ring, ring.buffer
    ensures ring.Valid() && ring.contents == old(ring.contents) + Bytes(pieces)
    ensures |Bytes(pieces)| == Offered(xfer0)
    ensures Drain(Trim(xfer0 + rest), ring.size - |old(ring.contents)|)
         == DrainAfter(pieces, rest, ring.size - |ring.contents|)
    ensures readied == Threads(xfer0)
  {
    hide Drain, DrainAfter, Bytes, Threads, Trim, RingBuffer.Valid, Refilled, Offered;
    var xfer := xfer0;
    pieces, readied := [], [];
    ghost var goal := Drain(Trim(xfer0 + rest), ring.size - |ring.contents|);
    RefillStarts(goal, ring.contents, ring.size, xfer, rest);
    NobodyReadied(xfer);
    while xfer != []
      invariant ring.Valid()
      invariant Refilled(goal, old(ring.contents), ring.size, ring.contents, Offered(xfer0), pieces, xfer, rest)
      invariant readied + Threads(xfer) == Threads(xfer0)
      decreases |xfer|
    {
      var d := xfer[0].desc;
      RefillOne(goal, old(ring.contents), ring.size, ring.contents, Offered(xfer0), pieces, xfer, rest);
      var n := ring.Put(d.data);
      assert d.data[..n] == d.data;  // its request is satisfied: it may run
      if n > 0 {
        pieces := pieces + [Piece(d.req, d.data)];
      }
      ThreadsCons(readied, xfer);
      readied := readied + [xfer[0].tid];
      xfer := xfer[1..];
    }
    RefillEnds(goal, old(ring.contents), ring.size, ring.contents, Offered(xfer0), pieces, rest);
    ThreadsCons(readied, xfer);
  }

  /** What the refill has done so far: total bytes are to come, of which pieces have been put behind contents0. */
  ghost predicate Refilled(
      goal: (Writers, seq<Piece>), contents0: seq<Byte>, size: nat, contents: seq<Byte>, total: nat, pieces: seq<Piece>,
          xfer: Writers, rest: Writers) {
    && contents == contents0 + Bytes(pieces) && |Bytes(pieces)| + Offered(xfer) == total && |contents0| + total <= size
    && (xfer != [] ==> HaveData(xfer[1..])) && HaveData(rest)
    && goal == DrainAfter(pieces, Trim(xfer + rest), size - |contents|)
  }

  lemma RefillStarts(goal: (Writers, seq<Piece>), contents: seq<Byte>, size: nat, xfer: Writers, rest: Writers)
    requires |contents| + Offered(xfer) <= size && (xfer != [] ==> HaveData(xfer[1..])) && HaveData(rest)
    requires goal == Drain(Trim(xfer + rest), size - |contents|)
    ensures Refilled(goal, contents, size, contents, Offered(xfer), [], xfer, rest)
  {
    hide Drain, DrainAfter, Trim, HaveData, Offered;
    DrainNone(Trim(xfer + rest), size - |contents|);
    assert contents + [] == contents;
  }

  lemma RefillOne(goal: (Writers, seq<Piece>), contents0: seq<Byte>, size: nat, contents: seq<Byte>, total: nat,
                  pieces: seq<Piece>, xfer: Writers, rest: Writers)
    requires Refilled(goal, contents0, size, contents, total, pieces, xfer, rest) && xfer != []
    ensures var d := xfer[0].desc;
            && |contents| + |d.data| <= size
            && Refilled(goal, contents0, size, contents + d.data, total,
                        if d.data == [] then pieces else pieces + [Piece(d.req, d.data)], xfer[1..], rest)
  {
    var d := xfer[0].desc;
    assert Offered(xfer) == |d.data| + Offered(xfer[1..]);
    assert |xfer| > 1 ==> HaveData(xfer[1..][1..]);
    hide DrainAfter, Trim, HaveData, Offered, Bytes;
    RefillHead(pieces, xfer, rest, size - |contents|);
    BytesAppend1(pieces, Piece(d.req, d.data));
    Associative(contents0, Bytes(pieces), d.data);
    assert contents + [] == contents;
  }

  lemma RefillEnds(goal: (Writers, seq<Piece>), contents0: seq<Byte>, size: nat, contents: seq<Byte>, total: nat,
                   pieces: seq<Piece>, rest: Writers)
    requires Refilled(goal, contents0, size, contents, total, pieces, [], rest)
    ensures contents == contents0 + Bytes(pieces) && |Bytes(pieces)| == total
    ensures goal == DrainAfter(pieces, rest, size - |contents|)
  {
    assert Offered([]) == 0;
    hide DrainAfter, Bytes;
    assert [] + rest == rest;
    TrimNone(rest);
  }

  /** All of z_impl_k_pipe_get's refilling: the working list, then one more writer in part. */
  method Refill(ring: RingBuffer, xfer: Writers, rest0: Writers)
    returns (rest: Writers, pieces: seq<Piece>, readied: seq<ThreadId>)
    requires ring.Valid() && Offered(xfer) <= ring.size - |ring.contents|
    requires rest0 != [] ==> ring.size - |ring.contents| < Offered(xfer) + |rest0[0].desc.data|
    requires (xfer != [] ==> HaveData(xfer[1..])) && HaveData(rest0)
    modifies ring, ring.buffer
    ensures ring.Valid() && ring.contents == old(ring.contents) + Bytes(pieces)
    ensures Drain(Trim(xfer + rest0), ring.size - |old(ring.contents)|) == (rest, pieces)
    ensures readied == Threads(xfer) && Threads(rest) == Threads(rest0)
  {
    hide Drain, DrainAfter, Bytes, Threads, Trim, Taken, RingBuffer.Valid;
    pieces, readied := RefillFromWorkingList(ring, xfer, rest0);
    rest := rest0;
    if rest != [] {
      var d := rest[0].desc;
      DrainFrom(pieces, rest, ring.size - |ring.contents|);
      BytesAppend1(pieces, Piece(d.req, d.data[..ring.size - |ring.contents|]));
      Associative(old(ring.contents), Bytes(pieces), d.data[..ring.size - |ring.contents|]);
      var n := ring.Put(d.data);
      TakenFacts(rest, n);
      rest := Taken(rest, n);
      TrimNone(rest);
      if n > 0 {
        pieces := pieces + [Piece(d.req, d.data[..n])];
      }
    } else {
      DrainLast(pieces, rest, ring.size - |ring.contents|);
    }
  }

  // ---------------------------------------------------------------- struct k_pipe

  class KPipe {
    const ring: RingBuffer
    var readers: Readers
    var writers: Writers
    var next: nat
    ghost var taken: seq<Piece>
    ghost var delivered: seq<Piece>
    ghost var offered: map<nat, seq<Byte>>
    ghost var wanted: map<nat, nat>

    ghost function View(): Pipe reads this, ring {
      Pipe(ring.size, ring.contents, writers, readers, next, taken, delivered, offered, wanted)
    }

    ghost predicate Valid() reads this, ring, ring.buffer {
      ring.Valid() && Queues(View())
    }

    /** k_pipe_init. */
    constructor (b: array<Byte>)
      ensures fresh(ring) && ring.buffer == b
      ensures Valid() && View() == Fresh(b.Length)
    {
      ring := new RingBuffer(b);
      readers, writers, next := [], [], 0;
      taken, delivered, offered, wanted := [], [], map[], map[];
    }

    /** The copying part of z_pipe_put_internal, the first count readers being its working list:
        direct bytes go to readers, the rest of written to the ring. */
    method MoveOut(data: seq<Byte>, count: nat)
      returns (written: nat, readied: seq<ThreadId>, ghost direct: nat, ghost pieces: seq<Piece>)
      requires Valid() && count <= |readers| && Needed(readers[..count]) <= |data|
      requires count < |readers| ==> |data| < Needed(readers[..count]) + readers[count].desc.need
      modifies this`readers, ring, ring.buffer
      ensures ring.Valid() && direct <= written <= |data|
      ensures Feed(old(readers), data) == (readers, pieces, data[direct..])
      ensures written == direct + Min(|data| - direct, ring.size - |old(ring.contents)|)
      ensures ring.contents == old(ring.contents) + data[direct..written]
      ensures old(Threads(readers)) == readied + Threads(readers)
    {
      hide Feed, HaveData, HaveNeed, Threads, RingBuffer.Valid, Needed;
      var xfer, rest := readers[..count], readers[count..];
      assert readers == xfer + rest;
      ThreadsAppend(xfer, rest);
      NeedSplit(readers, count);
      rest, pieces, written, readied := CopyToReaders(xfer, rest, data);
      direct := written;
      readers := rest;
      var n := ring.Put(data[written..]);
      assert data[written..][..n] == data[written..written + n];
      written := written + n;
    }

    method PutAll(data: seq<Byte>, count: nat) returns (written: nat, readied: seq<ThreadId>)
      requires Valid() && count <= |readers| && Needed(readers[..count]) <= |data|
      requires count < |readers| ==> |data| < Needed(readers[..count]) + readers[count].desc.need
      modifies this, ring, ring.buffer
      ensures ring.Valid() && written <= |data| && (View(), data[written..]) == PutBytes(old(View()), data)
      ensures old(Threads(readers)) == readied + Threads(readers)
    {
      hide Feed, HaveData, HaveNeed, Threads, RingBuffer.Valid, Needed, PutBytes;
      ghost var p := View();
      ghost var direct, pieces;
      written, readied, direct, pieces := MoveOut(data, count);
      PutBytesIs(p, data, readers, pieces, direct, written);
      taken, delivered, offered := taken + [Piece(next, data[..written])], delivered + pieces, offered[next := data];
      next := next + 1;
    }

    /** pipe_xfer_prepare on the readers. */
    method PreparePut(n: nat, minXfer: nat, noWait: bool) returns (ok: bool, count: nat)
      requires Valid() && minXfer <= n
      ensures ok <==> !(noWait && PutCapacity(View(), n) < minXfer)
      ensures ok ==> count <= |readers| && Needed(readers[..count]) <= n
      ensures ok && count < |readers| ==> n < Needed(readers[..count]) + readers[count].desc.need
    {
      var partial;
      ok, count, partial := Prepare(Needs(readers), ring.size - ring.bytesUsed, n, minXfer, noWait);
      SplitReaders(readers, count);
    }

    /** z_pipe_put_internal for a synchronous put. */
    method PipePut(tid: ThreadId, prio: int, data: seq<Byte>, minXfer: nat, noWait: bool)
      returns (res: Result, readied: seq<ThreadId>)
      requires Valid()
      modifies this, ring, ring.buffer
      ensures Valid() && (View(), res) == Put(old(View()), tid, prio, data, minXfer, noWait)
      ensures old(Threads(readers)) == readied + Threads(readers)
    {
      hide Queues, PutBytes, Threads, RingBuffer.Valid, Needed, PutCapacity;
      readied := [];
      NobodyReadied(readers);
      if minXfer > |data| {
        return Invalid, readied;
      }
      var ok, count := PreparePut(|data|, minXfer, noWait);
      if !ok {
        return Refused, readied;
      }
      PutKeepsQueues(View(), tid, prio, data, minXfer, noWait);
      var req, written := next, 0;
      written, readied := PutAll(data, count);
      if written == |data| || noWait {
        return Moved(written), readied;
      }
      writers := Pend(writers, Waiter(tid, prio, Outgoing(req, data[written..])));
      res := Blocked;
    }

    /** The copying part of z_impl_k_pipe_get, the first count writers being its working list. */
    method MoveIn(want: nat, count: nat)
      returns (bytes: seq<Byte>, readied: seq<ThreadId>,
               ghost head: seq<Byte>, ghost ring1: seq<Byte>, ghost ws1: Writers, ghost direct: seq<Piece>,
                   ghost refill: seq<Piece>)
      requires Valid() && count <= |writers| && Offered(writers[..count]) <= want
      requires count < |writers| ==> want < Offered(writers[..count]) + |writers[count].desc.data|
      modifies this`writers, ring, ring.buffer
      ensures ring.Valid()
      ensures old(ring.contents) == head + ring1 && |head| == Min(want, |old(ring.contents)|)
      ensures Drain(old(writers), want - |head|) == (ws1, direct)
      ensures Drain(ws1, ring.size - |ring1|) == (writers, refill)
      ensures ring.contents == ring1 + Bytes(refill) && bytes == head + Bytes(direct)
      ensures old(Threads(writers)) == readied + Threads(writers)
    {
      hide Drain, Bytes, HaveData, HaveNeed, Threads, RingBuffer.Valid, Trim, Offered;
      var xfer, rest := writers[..count], writers[count..];
      assert writers == xfer + rest;
      ThreadsAppend(xfer, rest);
      DataSplit(writers, count);
      Empty();
      bytes := ring.Get(want);
      head, ring1 := bytes, ring.contents;
      var more, readied1, readied2;
      xfer, rest, more, direct, readied1 := CopyFromWriters(xfer, rest, want - |bytes|);
      ws1 := Trim(xfer + rest);
      ghost var ts := Threads(xfer);
      rest, refill, readied2 := Refill(ring, xfer, rest);
      writers := rest;
      bytes, readied := bytes + more, readied1 + readied2;
    }

    method GetAll(want: nat, count: nat) returns (bytes: seq<Byte>, readied: seq<ThreadId>)
      requires Valid() && count <= |writers| && Offered(writers[..count]) <= want
      requires count < |writers| ==> want < Offered(writers[..count]) + |writers[count].desc.data|
      modifies this, ring, ring.buffer
      ensures ring.Valid() && (View(), bytes) == GetBytes(old(View()), want)
      ensures old(Threads(writers)) == readied + Threads(writers)
    {
      hide Drain, Bytes, HaveData, HaveNeed, Threads, RingBuffer.Valid, Offered, GetBytes;
      ghost var p := View();
      ghost var head, ring1, ws1, direct, refill;
      bytes, readied, head, ring1, ws1, direct, refill := MoveIn(want, count);
      GetBytesIs(p, want, head, ring1, ws1, direct, writers, refill);
      taken, delivered, wanted := taken + direct + refill, delivered + [Piece(next, bytes)], wanted[next := want];
      next := next + 1;
    }

    /** pipe_xfer_prepare on the writers. */
    method PrepareGet(n: nat, minXfer: nat, noWait: bool) returns (ok: bool, count: nat)
      requires Valid() && minXfer <= n
      ensures ok <==> !(noWait && GetCapacity(View(), n) < minXfer)
      ensures ok ==> count <= |writers| && Offered(writers[..count]) <= n
      ensures ok && count < |writers| ==> n < Offered(writers[..count]) + |writers[count].desc.data|
    {
      var partial;
      ok, count, partial := Prepare(Offers(writers), ring.bytesUsed, n, minXfer, noWait);
      SplitWriters(writers, count);
    }

    /** z_impl_k_pipe_get. */
    method PipeGet(tid: ThreadId, prio: int, want: nat, minXfer: nat, noWait: bool)
      returns (res: Result, bytes: seq<Byte>, readied: seq<ThreadId>)
      requires Valid()
      modifies this, ring, ring.buffer
      ensures Valid() && (View(), res) == Get(old(View()), tid, prio, want, minXfer, noWait)
      ensures (res.Moved? || res.Blocked?) ==> bytes == GetBytes(old(View()), want).1
      ensures old(Threads(writers)) == readied + Threads(writers)
    {
      hide Queues, GetBytes, Threads, RingBuffer.Valid, Offered;
      bytes, readied := [], [];
      NobodyReadied(writers);
      if minXfer > want {
        return Invalid, bytes, readied;
      }
      var ok, count := PrepareGet(want, minXfer, noWait);
      if !ok {
        return Refused, bytes, readied;
      }
      GetKeepsQueues(View(), tid, prio, want, minXfer, noWait);
      GetBytesFacts(View(), want);
      var req := next;
      bytes, readied := GetAll(want, count);
      if |bytes| == want || noWait {
        return Moved(|bytes|), bytes, readied;
      }
      readers := Pend(readers, Waiter(tid, prio, Incoming(req, want - |bytes|)));
      res := Blocked;
    }
  }

  lemma NobodyReadied<D>(q: seq<Waiter<D>>)
    ensures [] + Threads(q) == Threads(q)
  {
  }

  lemma Empty()
    ensures Offered([]) == 0
  {
  }

  lemma GetBytesIs(p: Pipe, want: nat, head: seq<Byte>, ring1: seq<Byte>, ws1: Writers, direct: seq<Piece>,
                   ws2: Writers, refill: seq<Piece>)
    requires p.ring == head + ring1 && |head| == Min(want, |p.ring|) && |p.ring| <= p.size
    requires Drain(p.writers, want - |head|) == (ws1, direct)
    requires Drain(ws1, p.size - |ring1|) == (ws2, refill)
    ensures GetBytes(p, want) == AfterGet(p, want, head, ring1, direct, ws2, refill)
  {
    hide Drain, AfterGet;
    assert p.ring[..|head|] == head && p.ring[|head|..] == ring1;
  }

  lemma PutBytesIs(p: Pipe, data: seq<Byte>, rest: Readers, pieces: seq<Piece>, direct: nat, written: nat)
    requires direct <= |data| && Feed(p.readers, data) == (rest, pieces, data[direct..])
    requires written == direct + Min(|data| - direct, Space(p))
    ensures PutBytes(p, data)
         == (AfterPut(p, data, rest, pieces, data[direct..written], data[..written]), data[written..])
  {
    hide Feed, AfterPut, PutRest;
    PutRestIs(p, data, rest, pieces, direct, written);
  }

  lemma PutRestIs(p: Pipe, data: seq<Byte>, rest: Readers, pieces: seq<Piece>, direct: nat, written: nat)
    requires direct <= |data| && written == direct + Min(|data| - direct, Space(p))
    ensures PutRest(p, data, rest, pieces, data[direct..])
         == (AfterPut(p, data, rest, pieces, data[direct..written], data[..written]), data[written..])
  {
    hide AfterPut;
    var n := written - direct;
    assert data[direct..][n..] == data[written..];
    assert data[direct..][..n] == data[direct..written];
  }

  lemma SplitReaders(rs: Readers, count: nat)
    requires count <= |rs|
    ensures rs[..count] + rs[count..] == rs
    ensures Sum(Needs(rs)) == Needed(rs)
    ensures Needed(rs[..count]) == Sum(Needs(rs)[..count])
    ensures count < |rs| ==> Sum(Needs(rs)[..count + 1]) == Needed(rs[..count]) + rs[count].desc.need
  {
    hide Sum, Needs, Needed;
    NeedsTake(rs, count);
    NeedsSum(rs[..count]);
    NeedsSum(rs);
    if count < |rs| {
      SumTake(Needs(rs), count);
      NeedsAt(rs, count);
    }
  }

  lemma {:induction false} NeedsAt(rs: Readers, k: nat)
    requires k < |rs|
    ensures Needs(rs)[k] == rs[k].desc.need
  {
    if k > 0 {
      NeedsAt(rs[1..], k - 1);
    }
  }

  lemma SplitWriters(ws: Writers, count: nat)
    requires count <= |ws|
    ensures ws[..count] + ws[count..] == ws
    ensures Sum(Offers(ws)) == Offered(ws)
    ensures Offered(ws[..count]) == Sum(Offers(ws)[..count])
    ensures count < |ws| ==> Sum(Offers(ws)[..count + 1]) == Offered(ws[..count]) + |ws[count].desc.data|
  {
    hide Sum, Offers, Offered;
    OffersTake(ws, count);
    OffersSum(ws[..count]);
    OffersSum(ws);
    if count < |ws| {
      SumTake(Offers(ws), count);
      OffersAt(ws, count);
    }
  }

  lemma {:induction false} OffersAt(ws: Writers, k: nat)
    requires k < |ws|
    ensures Offers(ws)[k] == |ws[k].desc.data|
  {
    if k > 0 {
      OffersAt(ws[1..], k - 1);
    }
  }
}
