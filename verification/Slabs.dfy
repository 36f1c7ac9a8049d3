/**
 Memory slabs (kernel/mem_slab.c): equal blocks whose free ones are chained
 through their own first words.  First the slab as a partition of its blocks,
 then the chain in memory.
 */
module Slabs {
  import opened Lists
  import opened Memory
  import opened WaitQueues
  import opened Wrappers

  /** The blocks by number; free in the order in which they will be given out. */
  datatype Slab = Slab(blocks: nat, free: seq<nat>, used: set<nat>, waiters: seq<Waiter<()>>)

  datatype Result =
    | Got
    | NoMem    // -ENOMEM
    | Blocked  // the caller is pended

  /** k_mem_slab_alloc: the state afterwards, the outcome, and the block if there is one. */
  function Alloc(s: Slab, tid: ThreadId, prio: int, noWait: bool): (Slab, Result, Option<nat>) {
    if s.free != [] then (s.(free := s.free[1..], used := s.used + {s.free[0]}), Got, Some(s.free[0]))
    else if noWait then (s, NoMem, None)
    else (s.(waiters := Pend(s.waiters, Waiter(tid, prio, ()))), Blocked, None)
  }

  /** k_mem_slab_free: the block goes to the first waiter, or back to the free ones. */
  function Free(s: Slab, block: nat): (Slab, Option<ThreadId>) {
    if s.waiters != [] then (s.(waiters := s.waiters[1..]), Some(s.waiters[0].tid))
    else (s.(free := [block] + s.free, used := s.used - {block}), None)
  }

  /** Each block is free, once, or used, and nobody waits while one is free. */
  ghost predicate Partition(s: Slab) {
    && (forall b: nat :: Count(s.free, b) == One(b < s.blocks && b !in s.used))
    && (forall b :: b in s.used ==> b < s.blocks)
    && (s.waiters != [] ==> s.free == [])
  }

  datatype Event =
    | EAlloc(tid: ThreadId, prio: int, noWait: bool)
    | EFree(block: nat)
    | ETimeout(tid: ThreadId)

  /** Only allocated blocks are freed. */
  predicate Legal(s: Slab, e: Event) { e.EFree? ==> e.block in s.used }

  function Step(s: Slab, e: Event): Slab {
    match e
    case EAlloc(tid, prio, noWait) => Alloc(s, tid, prio, noWait).0
    case EFree(block) => Free(s, block).0
    case ETimeout(tid) => s.(waiters := Unpend(s.waiters, tid))
  }

  lemma StepPartition(s: Slab, e: Event)
    requires Partition(s) && Legal(s, e)
    ensures Partition(Step(s, e))
  {
    var s' := Step(s, e);
    match e
    case EAlloc(_, _, _) =>
      hide Pend;
      if s.free != [] {
        CountAt(s.free, 0);
        forall b: nat
          ensures Count(s'.free, b) == One(b < s.blocks && b !in s'.used)
        {
          assert Count(s.free, b) == One(b < s.blocks && b !in s.used);
        }
      }
    case EFree(block) =>
      if s.waiters == [] {
        forall b: nat
          ensures Count(s'.free, b) == One(b < s.blocks && b !in s'.used)
        {
          assert s'.free[1..] == s.free;
          assert Count(s.free, b) == One(b < s.blocks && b !in s.used);
        }
      }
    case ETimeout(_) =>
      hide Unpend;
  }

  ghost predicate LegalRun(s: Slab, es: seq<Event>)
    decreases |es|
  {
    es == [] || (Legal(s, es[0]) && LegalRun(Step(s, es[0]), es[1..]))
  }

  function Run(s: Slab, es: seq<Event>): Slab
    decreases |es|
  {
    if es == [] then s else Run(Step(s, es[0]), es[1..])
  }

  lemma {:induction false} EveryRun(s: Slab, es: seq<Event>)
    requires Partition(s) && LegalRun(s, es)
    ensures Partition(Run(s, es))
    decreases |es|
  {
    if es != [] {
      StepPartition(s, es[0]);
      EveryRun(Step(s, es[0]), es[1..]);
    }
  }

  /** Free and used blocks make up the slab. */
  lemma Sizes(s: Slab)
    requires Partition(s)
    ensures |s.free| + |s.used| == s.blocks
  {
    FreeCount(s.free, s.used, s.blocks);
  }

  // ---------------------------------------------------------------- what the calls return

  /** The answer to an allocation. It gets a block exactly when not all are used: one of the slab's that
      nobody had and that is now used, the others being as they were. Otherwise it fails if it may not
      wait, and nothing changes, or waits. */
  lemma AllocAnswers(s: Slab, tid: ThreadId, prio: int, noWait: bool)
    requires Partition(s)
    ensures var (s', res, block) := Alloc(s, tid, prio, noWait);
            && res == (if |s.used| < s.blocks then Got else if noWait then NoMem else Blocked)
            && (block.Some? <==> res == Got)
            && (block.Some? ==> block.value < s.blocks && block.value !in s.used && s'.used == s.used + {block.value})
            && (block.None? ==> s'.used == s.used && s'.free == s.free)
            && s'.waiters == if res == Blocked then Pend(s.waiters, Waiter(tid, prio, ())) else s.waiters
  {
    Sizes(s);
    hide Pend;
    if s.free != [] {
      CountAt(s.free, 0);
    }
  }

  /** The answer to a free. If somebody waits, the first waiter is made ready with the block, which
      stays used; otherwise the block, and no other, is unused again and is the next to be given out. */
  lemma FreeAnswers(s: Slab, block: nat)
    requires Partition(s) && block in s.used
    ensures var (s', woken) := Free(s, block);
            && woken == (if s.waiters == [] then None else Some(s.waiters[0].tid))
            && s'.used == (if woken.Some? then s.used else s.used - {block})
            && s'.waiters == (if woken.Some? then s.waiters[1..] else [])
            && (woken.None? ==> forall tid, prio, noWait :: Alloc(s', tid, prio, noWait).2 == Some(block))
  {
  }

  /** The blocks that threads have, by what the calls of the run report: one that an allocation returns,
      until it is freed with nobody made ready to have it instead. */
  ghost function Owned(s: Slab, es: seq<Event>, owned: set<nat>): set<nat>
    decreases |es|
  {
    if es == [] then owned
    else
      Owned(Step(s, es[0]), es[1..],
            match es[0]
            case EAlloc(tid, prio, noWait) =>
              var block := Alloc(s, tid, prio, noWait).2;
              if block.Some? then owned + {block.value} else owned
            case EFree(block) => if Free(s, block).1.Some? then owned else owned - {block}
            case ETimeout(_) => owned)
  }

  /** Through every legal run the blocks that threads have are the used ones, so that no allocation
      returns a block that another thread has. */
  lemma {:induction false} NoBlockTwice(s: Slab, es: seq<Event>, tid: ThreadId, prio: int, noWait: bool)
    requires Partition(s) && LegalRun(s, es)
    ensures Owned(s, es, s.used) == Run(s, es).used
    ensures var block := Alloc(Run(s, es), tid, prio, noWait).2;
            block.Some? ==> block.value !in Owned(s, es, s.used) && block.value < s.blocks
    decreases |es|
  {
    if es == [] {
      AllocAnswers(s, tid, prio, noWait);
    } else {
      StepPartition(s, es[0]);
      match es[0] {
        case EAlloc(tid, prio, noWait) => AllocAnswers(s, tid, prio, noWait);
        case EFree(block) => FreeAnswers(s, block);
        case ETimeout(_) =>
      }
      assert Step(s, es[0]).blocks == s.blocks;
      hide Partition, Legal;
      NoBlockTwice(Step(s, es[0]), es[1..], tid, prio, noWait);
    }
  }

  // ---------------------------------------------------------------- the chain in memory

  type Octet = b: int | 0 <= b < 256

  const WORD := 4                  // sizeof(void *)
  const ADDRESSES := 0x1_0000_0000

  predicate Aligned(a: int) { a % WORD == 0 }

  lemma AlignedSum(a: int, b: int)
    requires Aligned(a) && Aligned(b)
    ensures Aligned(a + b)
  {
  }

  function Joined(a: int, b: int, c: int, d: int): int { a + 0x100 * b + 0x1_0000 * c + 0x100_0000 * d }

  /** The pointer stored in the four bytes at an offset, lowest byte first. */
  function Word(mem: seq<Octet>, at: nat): (v: int)
    requires at + WORD <= |mem|
    ensures 0 <= v < ADDRESSES
  {
    Joined(mem[at], mem[at + 1], mem[at + 2], mem[at + 3])
  }

  function Encoded(v: int): (bytes: seq<Octet>)
    requires 0 <= v < ADDRESSES
    ensures |bytes| == WORD && Word(bytes, 0) == v
  {
    var high := v / 0x100;
    var higher := high / 0x100;
    [v % 0x100, high % 0x100, higher % 0x100, higher / 0x100]
  }

  function Store(mem: seq<Octet>, at: nat, v: int): (r: seq<Octet>)
    requires at + WORD <= |mem| && 0 <= v < ADDRESSES
    ensures |r| == |mem| && Word(r, at) == v
    ensures forall k :: 0 <= k < |mem| && !(at <= k < at + WORD) ==> r[k] == mem[k]
  {
    mem[..at] + Encoded(v) + mem[at + WORD..]
  }

  /** An aligned access through a pointer to a pointer, in the region of memory that begins at base. */
  method LoadWord(region: array<Octet>, base: int, address: int) returns (v: int)
    requires base <= address && address - base + WORD <= region.Length && Aligned(address)
    ensures v == Word(region[..], address - base)
  {
    var at := address - base;
    v := Joined(region[at], region[at + 1], region[at + 2], region[at + 3]);
  }

  method StoreWord(region: array<Octet>, base: int, address: int, v: int)
    requires base <= address && address - base + WORD <= region.Length && Aligned(address) && 0 <= v < ADDRESSES
    modifies region
    ensures region[..] == Store(old(region[..]), address - base, v)
  {
    var at, bytes := address - base, Encoded(v);
    region[at], region[at + 1], region[at + 2], region[at + 3] := bytes[0], bytes[1], bytes[2], bytes[3];
  }

  /** list points to the first of the free blocks, each of them to the next, the last to nothing. */
  ghost predicate Chained(mem: seq<Octet>, base: int, size: nat, list: int, free: seq<nat>)
    decreases |free|
  {
    if free == [] then list == 0
    else
      && list == base + At(free[0], size) && At(free[0], size) + WORD <= |mem|
      && Chained(mem, base, size, Word(mem, At(free[0], size)), free[1..])
  }

  /** A chain that comes back to itself never ends. */
  lemma {:induction false} NeverEnds(mem: seq<Octet>, base: int, free: seq<nat>)
    requires base > 0 && |mem| >= WORD && Word(mem, 0) == base
    ensures !Chained(mem, base, 0, base, free)
    decreases |free|
  {
    if free != [] {
      NeverEnds(mem, base, free[1..]);
    }
  }

  /** Blocks of no size have one address: two of them cannot be chained. */
  lemma ZeroSizedBlocks(mem: seq<Octet>, base: int, list: int, free: seq<nat>)
    requires base > 0 && Chained(mem, base, 0, list, free)
    ensures |free| <= 1
  {
    if |free| > 1 {
      NeverEnds(mem, base, free);
    }
  }

  ghost predicate SameLink(mem: seq<Octet>, mem': seq<Octet>, at: nat) {
    at + WORD <= |mem| == |mem'| && forall k :: at <= k < at + WORD ==> mem'[k] == mem[k]
  }

  /** What is written outside the links of the free blocks does not break the chain. */
  lemma {:induction false} ChainFrame(mem: seq<Octet>, mem': seq<Octet>, base: int, size: nat, list: int,
                                      free: seq<nat>)
    requires Chained(mem, base, size, list, free) && forall b :: b in free ==> SameLink(mem, mem', At(b, size))
    ensures Chained(mem', base, size, list, free)
    decreases |free|
  {
    if free != [] {
      assert SameLink(mem, mem', At(free[0], size));
      ChainFrame(mem, mem', base, size, Word(mem, At(free[0], size)), free[1..]);
    }
  }

  /** Two blocks have no byte in common. */
  lemma BlocksApart(size: nat, b: nat, c: nat, i: nat, j: nat)
    requires b != c && i < size && j < size
    ensures At(b, size) + i != At(c, size) + j
  {
    hide At;
    if b < c {
      InBuffer(size, b, c);
    } else {
      InBuffer(size, c, b);
    }
  }

  lemma {:induction false} Multiple(size: nat, b: nat)
    requires Aligned(size)
    ensures Aligned(At(b, size))
  {
    if b > 0 {
      Multiple(size, b - 1);
      Product(size, b - 1);
      hide At;
    }
  }

  /** The size that k_mem_slab_init accepts makes room in each block for a link of its own. */
  lemma RoomForLink(size: nat, b: nat, blocks: nat)
    requires size > 0 && Aligned(size) && b < blocks
    ensures WORD <= size && At(b, size) + WORD <= At(b, size) + size <= At(blocks, size) && Aligned(At(b, size))
  {
    InBuffer(size, b, blocks);
    Multiple(size, b);
  }

  /** Writing inside one block leaves the links of the others alone. */
  lemma WriteApart(mem: seq<Octet>, mem': seq<Octet>, size: nat, c: nat, free: seq<nat>, blocks: nat)
    requires size > 0 && Aligned(size) && |mem'| == |mem| == At(blocks, size)
    requires forall b :: b in free ==> b < blocks && b != c
    requires forall k :: 0 <= k < |mem| && !(At(c, size) <= k < At(c, size) + size) ==> mem'[k] == mem[k]
    ensures forall b :: b in free ==> SameLink(mem, mem', At(b, size))
  {
    forall b | b in free
      ensures SameLink(mem, mem', At(b, size))
    {
      RoomForLink(size, b, blocks);
      forall k | At(b, size) <= k < At(b, size) + WORD
        ensures mem'[k] == mem[k]
      {
        if At(c, size) <= k < At(c, size) + size {
          BlocksApart(size, b, c, k - At(b, size), k - At(c, size));
        }
      }
    }
  }

  ghost predicate OutsideKept(mem: seq<Octet>, mem': seq<Octet>, at: nat, size: nat) {
    |mem'| == |mem| && forall k :: 0 <= k < |mem| && !(at <= k < at + size) ==> mem'[k] == mem[k]
  }

  /** Whatever is written inside a block that is not free, the chain stands. */
  lemma WriteKeepsChain(mem: seq<Octet>, mem': seq<Octet>, base: int, size: nat, list: int, free: seq<nat>, c: nat,
                        blocks: nat)
    requires size > 0 && Aligned(size) && |mem| == At(blocks, size) && OutsideKept(mem, mem', At(c, size), size)
    requires forall b :: b in free ==> b < blocks && b != c
    requires Chained(mem, base, size, list, free)
    ensures Chained(mem', base, size, list, free)
  {
    hide Chained, At;
    WriteApart(mem, mem', size, c, free, blocks);
    hide SameLink;
    ChainFrame(mem, mem', base, size, list, free);
  }

  lemma StoreOutside(mem: seq<Octet>, at: nat, v: int, size: nat)
    requires at + WORD <= |mem| && 0 <= v < ADDRESSES && WORD <= size
    ensures OutsideKept(mem, Store(mem, at, v), at, size)
  {
    hide Store, Word;
  }

  lemma ByteOutside(mem: seq<Octet>, at: nat, offset: nat, value: Octet, size: nat)
    requires offset < size && at + offset < |mem|
    ensures OutsideKept(mem, mem[at + offset := value], at, size)
  {
  }

  lemma NothingOutside(mem: seq<Octet>, at: nat, size: nat)
    ensures OutsideKept(mem, mem, at, size)
  {
  }

  lemma ChainEmpty(mem: seq<Octet>, base: int, size: nat)
    ensures Chained(mem, base, size, 0, [])
  {
  }

  lemma ChainGrows(mem: seq<Octet>, base: int, size: nat, list: int, free: seq<nat>, b: nat)
    requires At(b, size) + WORD <= |mem| && Word(mem, At(b, size)) == list && Chained(mem, base, size, list, free)
    ensures Chained(mem, base, size, base + At(b, size), [b] + free)
  {
    assert ([b] + free)[1..] == free;
  }

  lemma ChainShrinks(mem: seq<Octet>, base: int, size: nat, list: int, free: seq<nat>)
    requires Chained(mem, base, size, list, free) && free != []
    ensures list == base + At(free[0], size) && At(free[0], size) + WORD <= |mem|
    ensures Chained(mem, base, size, Word(mem, At(free[0], size)), free[1..])
  {
  }

  lemma ChainStart(mem: seq<Octet>, base: int, size: nat, list: int, free: seq<nat>)
    requires Chained(mem, base, size, list, free) && base > 0
    ensures list == 0 <==> free == []
    ensures base + |mem| <= ADDRESSES ==> 0 <= list < ADDRESSES
  {
  }

  /** struct k_mem_slab, with the bytes of memory its blocks occupy. */
  class KMemSlab {
    const numBlocks: nat
    const blockSize: nat
    const buffer: int
    const bytes: array<Octet>
    var freeList: int
    var numUsed: int
    var waiters: seq<Waiter<()>>
    ghost var free: seq<nat>
    ghost var used: set<nat>

    ghost function View(): Slab reads this { Slab(numBlocks, free, used, waiters) }

    function Address(b: nat): int { buffer + At(b, blockSize) }

    ghost predicate Layout() {
      && blockSize > 0 && Aligned(blockSize) && buffer > 0 && Aligned(buffer)
      && bytes.Length == At(numBlocks, blockSize) && buffer + bytes.Length <= ADDRESSES
    }

    ghost predicate Valid() reads this, bytes {
      && Layout() && Partition(View()) && numUsed == |used|
      && Chained(bytes[..], buffer, blockSize, freeList, free)
    }

    /** k_mem_slab_init, past the alignment check. */
    constructor (buffer: int, bytes: array<Octet>, blockSize: nat, numBlocks: nat)
      requires buffer > 0 && blockSize > 0 && Aligned(blockSize) && Aligned(buffer)
      requires bytes.Length == At(numBlocks, blockSize) && buffer + bytes.Length <= ADDRESSES
      modifies bytes
      ensures Valid() && this.numBlocks == numBlocks && this.blockSize == blockSize && this.buffer == buffer
      ensures this.bytes == bytes
      ensures used == {} && waiters == []
    {
      this.buffer, this.blockSize, this.numBlocks, this.bytes := buffer, blockSize, numBlocks, bytes;
      numUsed, used, waiters := 0, {}, [];
      var list, p := 0, buffer;
      ghost var chain: seq<nat> := [];
      var j := 0;
      Product(blockSize, 0);
      hide At, Word, Chained, Store, OutsideKept, Aligned, Encoded;
      ChainEmpty(bytes[..], buffer, blockSize);
      while j < numBlocks
        invariant 0 <= j <= numBlocks && p == buffer + At(j, blockSize) && 0 <= list < ADDRESSES
        invariant Chained(bytes[..], buffer, blockSize, list, chain)
        invariant forall b: nat :: Count(chain, b) == One(b < j)
      {
        RoomForLink(blockSize, j, numBlocks);
        ghost var before := bytes[..];
        AlignedSum(buffer, At(j, blockSize));
        StoreWord(bytes, buffer, p, list);
        BelowIsApart(chain, j, numBlocks);
        StoreOutside(before, At(j, blockSize), list, blockSize);
        WriteKeepsChain(before, bytes[..], buffer, blockSize, list, chain, j, numBlocks);
        ChainGrows(bytes[..], buffer, blockSize, list, chain, j);
        list := p;
        assert ([j] + chain)[1..] == chain;
        chain := [j] + chain;
        Product(blockSize, j);
        p := p + blockSize;
        j := j + 1;
      }
      freeList, free := list, chain;
    }

    /** k_mem_slab_alloc, up to the point where it returns or the caller blocks. */
    method AllocBlock(tid: ThreadId, prio: int, noWait: bool)
      returns (res: Result, address: int, ghost block: Option<nat>)
      requires Valid()
      modifies this
      ensures Valid() && (View(), res, block) == Alloc(old(View()), tid, prio, noWait)
      ensures address == if block.Some? then Address(block.value) else 0
    {
      StepPartition(View(), EAlloc(tid, prio, noWait));
      FreshUsed(View());
      hide Partition, At, Word, Chained, Pend, Aligned;
      ChainStart(bytes[..], buffer, blockSize, freeList, free);
      if freeList != 0 {
        RoomForLink(blockSize, free[0], numBlocks);
        ChainShrinks(bytes[..], buffer, blockSize, freeList, free);
        AlignedSum(buffer, At(free[0], blockSize));
        address, block := freeList, Some(free[0]);
        freeList := LoadWord(bytes, buffer, freeList);
        numUsed := numUsed + 1;
        used, free := used + {free[0]}, free[1..];
        return Got, address, block;
      } else if noWait {
        return NoMem, 0, None;
      }
      waiters := Pend(waiters, Waiter(tid, prio, ()));
      res, address, block := Blocked, 0, None;
    }

    /** k_mem_slab_free of a block that is allocated; the contents of the other allocated blocks stay as
        their owners left them. */
    method FreeBlock(address: int, ghost block: nat) returns (woken: Option<ThreadId>)
      requires Valid() && block in used && address == Address(block)
      modifies this, bytes
      ensures Valid() && (View(), woken) == Free(old(View()), block)
      ensures OutsideKept(old(bytes[..]), bytes[..], At(block, blockSize), blockSize)
    {
      StepPartition(View(), EFree(block));
      NotMember(View(), block);
      RoomForLink(blockSize, block, numBlocks);
      ChainStart(bytes[..], buffer, blockSize, freeList, free);
      hide Partition, At, Word, Chained, Store, Aligned, Encoded, OutsideKept;
      NothingOutside(bytes[..], At(block, blockSize), blockSize);
      AlignedSum(buffer, At(block, blockSize));
      if waiters != [] {
        woken := Some(waiters[0].tid);
        waiters := waiters[1..];
      } else {
        ghost var before := bytes[..];
        StoreWord(bytes, buffer, address, freeList);
        StoreOutside(before, At(block, blockSize), freeList, blockSize);
        WriteKeepsChain(before, bytes[..], buffer, blockSize, freeList, free, block, numBlocks);
        ChainGrows(bytes[..], buffer, blockSize, freeList, free, block);
        freeList := address;
        numUsed := numUsed - 1;
        used, free := used - {block}, [block] + free;
        woken := None;
      }
    }

    /** The owner of a block writes into it, anywhere and anything. */
    method UserWrite(ghost block: nat, offset: nat, value: Octet, address: int)
      requires Valid() && block in used && offset < blockSize && address == Address(block) + offset
      modifies bytes
      ensures Valid()
      ensures forall k :: 0 <= k < bytes.Length ==> bytes[k] == if k == address - buffer then value else old(bytes[k])
    {
      hide At, Chained, Aligned, OutsideKept;
      NotMember(View(), block);
      hide Partition;
      RoomForLink(blockSize, block, numBlocks);
      ghost var before := bytes[..];
      ByteOutside(before, At(block, blockSize), offset, value, blockSize);
      bytes[address - buffer] := value;
      assert bytes[..] == before[At(block, blockSize) + offset := value];
      WriteKeepsChain(before, bytes[..], buffer, blockSize, freeList, free, block, numBlocks);
    }
  }

  /** A used block is none of the free ones. */
  lemma NotMember(s: Slab, block: nat)
    requires Partition(s) && block in s.used
    ensures block < s.blocks && forall b :: b in s.free ==> b < s.blocks && b != block
  {
    forall b | b in s.free
      ensures b < s.blocks && b != block
    {
      Member(s.free, b);
    }
  }

  lemma BelowIsApart(chain: seq<nat>, j: nat, blocks: nat)
    requires j < blocks && forall b: nat :: Count(chain, b) == One(b < j)
    ensures forall b :: b in chain ==> b < blocks && b != j
  {
    forall b | b in chain
      ensures b < blocks && b != j
    {
      Member(chain, b);
    }
  }

  const EINVAL := 22

  /** k_mem_slab_init. */
  method InitSlab(buffer: int, bytes: array<Octet>, blockSize: nat, numBlocks: nat) returns (rc: int, slab: KMemSlab?)
    requires buffer > 0 && blockSize > 0 && bytes.Length == At(numBlocks, blockSize)
    requires buffer + bytes.Length <= ADDRESSES
    modifies bytes
    ensures rc == 0 <==> blockSize % WORD == 0 && buffer % WORD == 0
    ensures rc == 0 ==>
        slab != null && fresh(slab) && slab.bytes == bytes && slab.Valid() && slab.numBlocks == numBlocks &&
          slab.used == {} && slab.waiters == []
    ensures rc != 0 ==> rc == -EINVAL && bytes[..] == old(bytes[..])
  {
    if !Aligned(blockSize) || !Aligned(buffer) {
      return -EINVAL, null;
    }
    slab := new KMemSlab(buffer, bytes, blockSize, numBlocks);
    rc := 0;
  }

  /** Without the check the chain is not safe: with one-byte blocks the link of a free block runs into
      its neighbours, and a write by the owner of the next block redirects it. */
  lemma OneByteBlocks()
    ensures Chained([0x04, 0x10, 0, 0, 0, 0, 0, 0], 0x1000, 1, 0x1000, [0, 4])
    ensures !Chained([0x04, 0x10, 0, 0, 0, 0, 0, 0][At(1, 1) := 0x20], 0x1000, 1, 0x1000, [0, 4])
  {
    var mem: seq<Octet> := [0x04, 0x10, 0, 0, 0, 0, 0, 0];
    var mem': seq<Octet> := [0x04, 0x20, 0, 0, 0, 0, 0, 0];
    assert mem[At(1, 1) := 0x20] == mem';
    assert [0, 4][1..] == [4] && [4][1..] == [];
    TwoLinks(mem, 0x1000, 0, 4);
    TwoLinks(mem', 0x1000, 0, 4);
  }

  lemma TwoLinks(mem: seq<Octet>, base: int, a: nat, b: nat)
    requires a + WORD <= |mem| && b + WORD <= |mem|
    ensures Chained(mem, base, 1, base + a, [a, b]) <==> Word(mem, a) == base + b && Word(mem, b) == 0
  {
    hide Word;
    assert [a, b][1..] == [b] && [b][1..] == [];
    assert At(a, 1) == a && At(b, 1) == b;
    assert Chained(mem, base, 1, Word(mem, b), []) <==> Word(mem, b) == 0;
    assert Chained(mem, base, 1, Word(mem, a), [b])
       <==> Word(mem, a) == base + b && Chained(mem, base, 1, Word(mem, b), []);
  }

  /** The next block to be given out is not in use. */
  lemma FreshUsed(s: Slab)
    requires Partition(s)
    ensures s.free != [] ==> s.free[0] !in s.used && s.free[0] < s.blocks
  {
    if s.free != [] {
      CountAt(s.free, 0);
    }
  }
}
