/**
 Memory slabs (kernel/mem_slab.c): equal blocks whose free ones form a list threaded through
 the blocks themselves, while the holders of the others write in them what they like.
 */
module MemSlabs {
  import opened Arithmetic
  import opened Options
  import opened Sequences
  import opened WaitQueues

  /** What a waiting thread finds when it runs again. */
  datatype Wake = Got(block: int) | TimedOut

  /**
   `memory` gives the first word of each block. `list` is the free list and `held` says to
   whom each allocated block was given; both are bookkeeping.
   */
  datatype State = State(
    buffer: int, size: nat, blocks: nat, memory: map<int, Option<int>>, freeList: Option<int>, used: nat,
    waiters: seq<Waiter<()>>, woken: map<Thread, Wake>, list: seq<int>, held: map<int, Thread>)

  /** Address of block `k`. */
  function Addr(buffer: int, size: nat, k: int): int {
    buffer + k * size
  }

  ghost predicate IsBlock(s: State, a: int) {
    exists k :: 0 <= k < s.blocks && a == Addr(s.buffer, s.size, k)
  }

  function Head(l: seq<int>): Option<int> {
    if l == [] then None else Some(l[0])
  }

  /** The list that starts at `head` and follows the words in memory is `l`. */
  ghost predicate Chain(memory: map<int, Option<int>>, head: Option<int>, l: seq<int>) {
    && head == Head(l)
    && forall i {:trigger l[i]} :: 0 <= i < |l| ==> l[i] in memory && memory[l[i]] == Head(l[i + 1..])
  }

  // ----- steps -----

  function AllocStep(s: State, t: Thread, prio: int, wait: bool): State {
    if s.freeList.Some? && s.freeList.value in s.memory && s.list != [] then
      var b := s.freeList.value;
      s.(freeList := s.memory[b], used := s.used + 1, list := s.list[1..], held := s.held[b := t])
    else if !wait then s
    else s.(waiters := Pend(s.waiters, Waiter(t, prio, ())))
  }

  function FreeStep(s: State, b: int): State {
    if s.freeList == None && s.waiters != [] then
      var w := s.waiters[0];
      s.(waiters := s.waiters[1..], woken := s.woken[w.thread := Got(b)], held := s.held[b := w.thread])
    else
      s.(memory := s.memory[b := s.freeList], freeList := Some(b), used := if s.used > 0 then s.used - 1 else 0,
         list := [b] + s.list, held := s.held - {b})
  }

  /** A holder writes to its block. */
  function WriteStep(s: State, b: int, v: Option<int>): State {
    s.(memory := s.memory[b := v])
  }

  function TimeoutStep(s: State, k: nat): State
    requires k < |s.waiters|
  {
    s.(waiters := RemoveAt(s.waiters, k), woken := s.woken[s.waiters[k].thread := TimedOut])
  }

  // ----- what every run keeps -----

  ghost predicate NoRepeat(l: seq<int>) {
    forall i, j :: 0 <= i < j < |l| ==> l[i] != l[j]
  }

  ghost predicate Inv(s: State) {
    && Chain(s.memory, s.freeList, s.list)
    && NoRepeat(s.list)
    && (forall a :: a in s.list ==> a !in s.held)
    && (forall a :: IsBlock(s, a) <==> a in s.list || a in s.held)
    && |s.held| == s.used && |s.list| == s.blocks - s.used
    && ByPriority(s.waiters) && (s.waiters != [] ==> s.list == [])
  }

  lemma AllocKeeps(s: State, t: Thread, prio: int, wait: bool)
    requires Inv(s)
    ensures Inv(AllocStep(s, t, prio, wait))
  {
    hide Addr, IsBlock, Chain, NoRepeat;
    var s' := AllocStep(s, t, prio, wait);
    ChainHead(s.memory, s.freeList, s.list);
    forall a ensures IsBlock(s', a) <==> IsBlock(s, a) { SameBlocks(s, s', a); }
    if s.list == [] {
      PendKeepsOrder(s.waiters, Waiter(t, prio, ()));
    } else {
      ChainTail(s.memory, s.freeList, s.list);
      FirstAlone(s.list);
      OneMore(s.held, s.list[0], t);
    }
  }

  lemma OneMore(m: map<int, Thread>, b: int, t: Thread)
    requires b !in m
    ensures |m[b := t]| == |m| + 1
  {
    assert m[b := t].Keys == m.Keys + {b};
  }

  lemma FirstAlone(l: seq<int>)
    requires l != [] && NoRepeat(l)
    ensures NoRepeat(l[1..]) && l[0] !in l[1..]
    ensures forall a :: a in l <==> a == l[0] || a in l[1..]
  {
    assert l == [l[0]] + l[1..];
  }

  lemma FirstNew(l: seq<int>, b: int)
    requires NoRepeat(l) && b !in l
    ensures NoRepeat([b] + l)
    ensures forall a :: a in [b] + l <==> a == b || a in l
  {
    var m := [b] + l;
    forall i, j | 0 <= i < j < |m| ensures m[i] != m[j] {
      assert m[j] == l[j - 1];
    }
  }

  lemma ChainHead(memory: map<int, Option<int>>, head: Option<int>, l: seq<int>)
    requires Chain(memory, head, l)
    ensures head == Head(l)
  {
  }

  lemma ChainNone(memory: map<int, Option<int>>)
    ensures Chain(memory, None, [])
  {
  }

  lemma ChainTail(memory: map<int, Option<int>>, head: Option<int>, l: seq<int>)
    requires Chain(memory, head, l) && l != []
    ensures l[0] in memory && Chain(memory, memory[l[0]], l[1..])
  {
    forall i {:trigger l[1..][i]} | 0 <= i < |l[1..]| ensures l[1..][i] in memory && memory[l[1..][i]] == Head(l[1..][i + 1..]) {
      assert l[1..][i] == l[i + 1] && l[1..][i + 1..] == l[i + 2..];
    }
    assert l[0] in memory;
  }

  lemma ChainPush(memory: map<int, Option<int>>, head: Option<int>, l: seq<int>, b: int)
    requires Chain(memory, head, l) && b !in l
    ensures Chain(memory[b := head], Some(b), [b] + l)
  {
    var m := [b] + l;
    forall i {:trigger m[i]} | 0 <= i < |m| ensures m[i] in memory[b := head] && memory[b := head][m[i]] == Head(m[i + 1..]) {
      if i == 0 {
        assert m[1..] == l;
      } else {
        assert m[i] == l[i - 1] && m[i + 1..] == l[i..];
      }
    }
  }

  lemma SameBlocks(s: State, s': State, a: int)
    requires s'.buffer == s.buffer && s'.size == s.size && s'.blocks == s.blocks
    ensures IsBlock(s', a) <==> IsBlock(s, a)
  {
    hide Addr;
    if IsBlock(s, a) {
      var k :| 0 <= k < s.blocks && a == Addr(s.buffer, s.size, k);
      assert a == Addr(s'.buffer, s'.size, k);
    }
    if IsBlock(s', a) {
      var k :| 0 <= k < s'.blocks && a == Addr(s'.buffer, s'.size, k);
      assert a == Addr(s.buffer, s.size, k);
    }
  }

  lemma FreeKeeps(s: State, b: int)
    requires Inv(s) && b in s.held
    ensures Inv(FreeStep(s, b))
  {
    hide Addr, IsBlock, Chain, NoRepeat;
    var s' := FreeStep(s, b);
    ChainHead(s.memory, s.freeList, s.list);
    forall a ensures IsBlock(s', a) <==> IsBlock(s, a) { SameBlocks(s, s', a); }
    if s.freeList == None && s.waiters != [] {
      assert s'.held.Keys == s.held.Keys;
    } else {
      ChainPush(s.memory, s.freeList, s.list, b);
      assert s'.held.Keys == s.held.Keys - {b};
      FirstNew(s.list, b);
    }
  }

  lemma WriteKeeps(s: State, b: int, v: Option<int>)
    requires Inv(s) && b in s.held
    ensures Inv(WriteStep(s, b, v))
  {
    var s' := WriteStep(s, b, v);
    forall a ensures IsBlock(s', a) <==> IsBlock(s, a) { SameBlocks(s, s', a); }
  }

  lemma TimeoutKeeps(s: State, k: nat)
    requires Inv(s) && k < |s.waiters|
    ensures Inv(TimeoutStep(s, k))
  {
    var s' := TimeoutStep(s, k);
    forall a ensures IsBlock(s', a) <==> IsBlock(s, a) { SameBlocks(s, s', a); }
  }

  datatype Step =
    | DoAlloc(t: Thread, prio: int, wait: bool)
    | DoFree(b: int)
    | DoWrite(b: int, v: Option<int>)
    | DoTimeout(k: nat)

  function Do(s: State, step: Step): State {
    match step
    case DoAlloc(t, prio, wait) => AllocStep(s, t, prio, wait)
    case DoFree(b) => if b in s.held then FreeStep(s, b) else s
    case DoWrite(b, v) => if b in s.held then WriteStep(s, b, v) else s
    case DoTimeout(k) => if k < |s.waiters| then TimeoutStep(s, k) else s
  }

  function RunAll(s: State, steps: seq<Step>): State
    decreases |steps|
  {
    if steps == [] then s else RunAll(Do(s, steps[0]), steps[1..])
  }

  lemma {:induction false} RunKeeps(s: State, steps: seq<Step>)
    requires Inv(s)
    ensures Inv(RunAll(s, steps))
    decreases |steps|
  {
    hide Inv, AllocStep, FreeStep, WriteStep, TimeoutStep;
    if steps != [] {
      match steps[0] {
        case DoAlloc(t, prio, wait) => AllocKeeps(s, t, prio, wait);
        case DoFree(b) => if b in s.held { FreeKeeps(s, b); }
        case DoWrite(b, v) => if b in s.held { WriteKeeps(s, b, v); }
        case DoTimeout(k) => if k < |s.waiters| { TimeoutKeeps(s, k); }
      }
      RunKeeps(Do(s, steps[0]), steps[1..]);
    }
  }

  /** Conservation over every run of a slab: the free list is the chain that memory holds, has
      no repetition, and with the blocks that are out makes up all blocks, none of them both;
      threads wait only when it is empty. */
  lemma Conservation(s: State, steps: seq<Step>)
    requires s.size > 0 && s.list == From(s.buffer, s.size, s.blocks, 0) && Chain(s.memory, s.freeList, s.list)
    requires s.held == map[] && s.used == 0 && s.waiters == []
    ensures var s' := RunAll(s, steps);
      && Chain(s'.memory, s'.freeList, s'.list) && |s'.list| == s.blocks - s'.used && |s'.held| == s'.used
      && NoRepeat(s'.list)
      && (forall a :: IsBlock(s, a) <==> a in s'.list || a in s'.held) && (forall a :: a in s'.list ==> a !in s'.held)
      && (s'.waiters != [] ==> s'.freeList == None)
  {
    hide Addr, From;
    FreshInv(s);
    RunKeeps(s, steps);
    RunShape(s, steps);
    forall a ensures IsBlock(s, a) <==> IsBlock(RunAll(s, steps), a) { SameBlocks(s, RunAll(s, steps), a); }
  }

  lemma {:induction false} RunShape(s: State, steps: seq<Step>)
    ensures var s' := RunAll(s, steps); s'.buffer == s.buffer && s'.size == s.size && s'.blocks == s.blocks
    decreases |steps|
  {
    if steps != [] {
      RunShape(Do(s, steps[0]), steps[1..]);
    }
  }

  /** Nothing is lost or handed out twice: whoever gets a block, at once or by waiting, gets
      one that nobody holds, or the one just given back. */
  lemma GrantsAreExclusive(s: State, step: Step, b: int, t: Thread)
    requires Inv(s) && b in Do(s, step).held && Do(s, step).held[b] == t
    requires b !in s.held || s.held[b] != t
    ensures IsBlock(s, b)
    ensures step.DoAlloc? ==> b !in s.held && t == step.t
    ensures !step.DoAlloc? ==> step == DoFree(b) && Do(s, step).woken == s.woken[t := Got(b)]
  {
    hide Addr;
    assert s.list != [] ==> s.list[0] in s.list;
  }

  /** Over every run: whoever waits before a step waits afterwards, or its wait ran out and it
      is told so, or it is a most urgent waiter and has been given the block that was freed. */
  lemma WaitersServed(s: State, steps: seq<Step>, step: Step, i: nat)
    requires Inv(s)
    ensures var r := RunAll(s, steps); var r' := Do(r, step);
      i < |r.waiters| && r.waiters[i] !in r'.waiters ==>
        var w := r.waiters[i];
        && w.thread in r'.woken
        && if step == DoTimeout(i) then r'.woken[w.thread] == TimedOut && r'.held == r.held
           else
             && step.DoFree? && step.b in r.held && r'.woken[w.thread] == Got(step.b) && r'.held == r.held[step.b := w.thread]
             && forall j :: 0 <= j < |r.waiters| ==> w.prio <= r.waiters[j].prio
  {
    hide RunAll, Chain, NoRepeat, IsBlock;
    RunKeeps(s, steps);
    var r := RunAll(s, steps);
    var r' := Do(r, step);
    if step.DoAlloc? { PendHolds(r.waiters, Waiter(step.t, step.prio, ())); }
    if step.DoFree? && i < |r.waiters| {
      assert i > 0 && r'.waiters == r.waiters[1..] ==> r'.waiters[i - 1] == r.waiters[i];
    }
    if step.DoTimeout? && step.k < |r.waiters| && i < |r.waiters| && i != step.k {
      assert r'.waiters[if i < step.k then i else i - 1] == r.waiters[i];
    }
  }

  // ----- the source's operations -----

  /** The free list when blocks `k` and up have been put on it. */
  function From(buffer: int, size: nat, n: nat, k: nat): seq<int>
    requires k <= n
  {
    seq(n - k, i => Addr(buffer, size, k + i))
  }

  const MAX_UINT32: nat := 0xFFFF_FFFF

  /** The block the list is begun at: one less than their number, which is unsigned and has 32
      bits. Without any block that is the largest such number, or the block before the first
      where sizes have 32 bits too. */
  function LastBlock(blocks: nat, word: nat): int {
    if blocks > 0 then blocks - 1 else if word == 4 then -1 else MAX_UINT32
  }

  lemma LastIs(blocks: nat, word: nat)
    ensures LastBlock(blocks, word) + 1 >= 0
    ensures LastBlock(blocks, word) + 1 == blocks <==> blocks > 0 || word == 4
  {
  }

  lemma FromLength(buffer: int, size: nat, n: nat, k: nat)
    requires k <= n
    ensures |From(buffer, size, n, k)| == n - k && From(buffer, size, n, n) == []
  {
  }

  /** A slab without blocks cannot have a free list that is not empty. */
  lemma TooMany(s: State)
    requires s.blocks == 0 && |s.list| > 0 && s.used == 0
    ensures !Inv(s)
  {
  }

  lemma FromPush(buffer: int, size: nat, n: nat, k: nat)
    requires 0 < k <= n
    ensures From(buffer, size, n, k - 1) == [Addr(buffer, size, k - 1)] + From(buffer, size, n, k)
  {
    hide Addr;
  }

  lemma AddrOrder(buffer: int, size: nat, j: int, k: int)
    requires size > 0
    ensures Addr(buffer, size, k - 1) == Addr(buffer, size, k) - size && Addr(buffer, size, 0) == buffer
    ensures j < k ==> Addr(buffer, size, j) < Addr(buffer, size, k)
  {
    assert Addr(buffer, size, k) - Addr(buffer, size, j) == (k - j) * size;
    MulAtLeast(k - j, size);
  }

  /** A block that is not on the list yet. */
  lemma FromLacks(buffer: int, size: nat, n: nat, k: nat)
    requires 0 < k <= n && size > 0
    ensures Addr(buffer, size, k - 1) !in From(buffer, size, n, k)
  {
    hide Addr;
    var l := From(buffer, size, n, k);
    forall i | 0 <= i < |l| ensures l[i] != Addr(buffer, size, k - 1) {
      AddrOrder(buffer, size, k - 1, k + i);
    }
  }

  lemma FreshInv(s: State)
    requires s.size > 0 && s.list == From(s.buffer, s.size, s.blocks, 0) && Chain(s.memory, s.freeList, s.list)
    requires s.held == map[] && s.used == 0 && s.waiters == []
    ensures Inv(s)
  {
    hide Addr, Chain;
    forall i, j | 0 <= i < j < |s.list| ensures s.list[i] != s.list[j] {
      AddrOrder(s.buffer, s.size, i, j);
    }
    forall a ensures IsBlock(s, a) <==> a in s.list {
      if IsBlock(s, a) {
        var k :| 0 <= k < s.blocks && a == Addr(s.buffer, s.size, k);
        assert a == s.list[k];
      }
    }
  }

  datatype Result = Block(address: int) | ENoMem | Blocked

  class MemSlab {
    const buffer: int
    const size: nat
    const blocks: nat
    const word: nat  // size of a pointer, in bytes
    var memory: map<int, Option<int>>
    var freeList: Option<int>
    var numUsed: nat
    var waitQ: seq<Waiter<()>>
    var woken: map<Thread, Wake>
    ghost var list: seq<int>
    ghost var held: map<int, Thread>

    ghost function Abs(): State
      reads this
    {
      State(buffer, size, blocks, memory, freeList, numUsed, waitQ, woken, list, held)
    }

    ghost predicate Valid()
      reads this
    {
      Inv(Abs())
    }

    constructor (buffer: int, size: nat, blocks: nat, word: nat, memory: map<int, Option<int>>)
      requires word == 4 || word == 8
      ensures this.buffer == buffer && this.size == size && this.blocks == blocks && this.memory == memory
      ensures this.word == word
      ensures numUsed == 0 && waitQ == [] && held == map[]
    {
      this.buffer, this.size, this.blocks, this.word, this.memory := buffer, size, blocks, word, memory;
      freeList, numUsed, waitQ, woken, list, held := None, 0, [], map[], [], map[];
    }

    /** `create_free_list`, on a slab that is being set up. Without any block, and with 64-bit
        sizes, the list is built far beyond the buffer. */
    method CreateFreeList() returns (ok: bool)
      requires size > 0 && (word == 4 || word == 8) && numUsed == 0 && waitQ == [] && held == map[]
      modifies this`memory, this`freeList, this`list
      ensures ok == (size % word == 0 && buffer % word == 0)
      ensures ok ==> list == From(buffer, size, LastBlock(blocks, word) + 1, 0) && Chain(memory, freeList, list)
      ensures ok ==> forall a :: a in old(memory) && a !in list ==> a in memory && memory[a] == old(memory)[a]
      ensures ok ==> (Valid() <==> blocks > 0 || word == 4)
      ensures !ok ==> memory == old(memory) && freeList == old(freeList)
    {
      hide Addr, Inv, IsBlock, Chain, From, LastBlock;
      ChainNone(memory);
      LastIs(blocks, word);
      if size % word != 0 || buffer % word != 0 {
        return false;
      }
      freeList, list := None, [];
      var last := LastBlock(blocks, word);
      AddrIs(buffer, size, last);
      AddrOrder(buffer, size, 0, 0);
      var p := buffer + size * last;
      ghost var k := last + 1;
      FromLength(buffer, size, k, k);
      while p >= buffer
        invariant 0 <= k <= last + 1 && p == Addr(buffer, size, k - 1)
        invariant list == From(buffer, size, last + 1, k) && Chain(memory, freeList, list)
        invariant forall a :: a in old(memory) && a !in list ==> a in memory && memory[a] == old(memory)[a]
        decreases k
      {
        AddrOrder(buffer, size, k - 1, 0);
        FromPush(buffer, size, last + 1, k);
        FromLacks(buffer, size, last + 1, k);
        ChainPush(memory, freeList, list, p);
        memory := memory[p := freeList];
        freeList := Some(p);
        list := [p] + list;
        AddrOrder(buffer, size, 0, k - 1);
        p := p - size;
        k := k - 1;
      }
      AddrOrder(buffer, size, 0, k - 1);
      FromLength(buffer, size, last + 1, 0);
      if blocks > 0 || word == 4 {
        FreshInv(Abs());
      } else {
        TooMany(Abs());
      }
      return true;
    }

    /** `k_mem_slab_alloc`. */
    method Alloc(t: Thread, prio: int, wait: bool) returns (result: Result)
      requires Valid()
      modifies this
      ensures Valid() && Abs() == AllocStep(old(Abs()), t, prio, wait)
      ensures result == if old(list) != [] then Block(old(list)[0]) else if wait then Blocked else ENoMem
      ensures result.Block? ==> IsBlock(Abs(), result.address) && result.address !in old(held) && held == old(held)[result.address := t]
      ensures result.Block? ==> waitQ == old(waitQ) && old(list) == [result.address] + list
      ensures result == Blocked ==> waitQ == Pend(old(waitQ), Waiter(t, prio, ())) && Abs() == old(Abs()).(waiters := waitQ)
      ensures result == ENoMem ==> Abs() == old(Abs())
    {
      hide Addr;
      AllocKeeps(Abs(), t, prio, wait);
      if freeList.Some? {
        var b := freeList.value;
        assert b == list[0];
        freeList := memory[b];
        numUsed := numUsed + 1;
        list, held := list[1..], held[b := t];
        result := Block(b);
        assert Abs() == AllocStep(old(Abs()), t, prio, wait);
      } else if !wait {
        result := ENoMem;
      } else {
        waitQ := Pend(waitQ, Waiter(t, prio, ()));
        result := Blocked;
      }
    }

    /** `k_mem_slab_free`. */
    method Free(b: int)
      requires Valid() && b in held
      modifies this
      ensures Valid() && Abs() == FreeStep(old(Abs()), b)
      ensures old(waitQ) != [] ==>
        && waitQ == old(waitQ)[1..] && woken == old(woken)[old(waitQ)[0].thread := Got(b)]
        && held == old(held)[b := old(waitQ)[0].thread] && list == old(list)
      ensures old(waitQ) == [] ==> waitQ == [] && woken == old(woken) && held == old(held) - {b} && list == [b] + old(list)
    {
      hide Inv;
      WaitersFirst(Abs());
      FreeKeeps(Abs(), b);
      SomeUsed(Abs(), b);
      if freeList == None && waitQ != [] {
        var w := waitQ[0];
        waitQ := waitQ[1..];
        woken := woken[w.thread := Got(b)];
        held := held[b := w.thread];
        return;
      }
      memory := memory[b := freeList];
      freeList := Some(b);
      numUsed := numUsed - 1;
      list, held := [b] + list, held - {b};
    }

    /** The wait of a pended thread times out. */
    method Timeout(k: nat)
      requires Valid() && k < |waitQ|
      modifies this`waitQ, this`woken
      ensures Valid() && Abs() == TimeoutStep(old(Abs()), k)
      ensures waitQ == RemoveAt(old(waitQ), k) && woken == old(woken)[old(waitQ)[k].thread := TimedOut]
    {
      hide Inv;
      TimeoutKeeps(Abs(), k);
      woken := woken[waitQ[k].thread := TimedOut];
      waitQ := RemoveAt(waitQ, k);
    }

    /** `slab_ptr_is_good`. */
    method PtrIsGood(a: int) returns (good: bool)
      requires size > 0
      ensures good <==> IsBlock(Abs(), a)
    {
      var offset := a - buffer;
      GoodOffset(Abs(), a);
      good := offset >= 0 && offset < size * blocks && offset % size == 0;
    }
  }

  lemma AddrIs(buffer: int, size: nat, k: int)
    ensures Addr(buffer, size, k) == buffer + size * k
  {
  }

  lemma WaitersFirst(s: State)
    requires Inv(s)
    ensures s.waiters != [] ==> s.freeList == None
  {
  }

  lemma SomeUsed(s: State, b: int)
    requires Inv(s) && b in s.held
    ensures s.used > 0
  {
    assert b in s.held.Keys;
  }

  lemma GoodOffset(s: State, a: int)
    requires s.size > 0
    ensures IsBlock(s, a) <==> a - s.buffer >= 0 && a - s.buffer < s.size * s.blocks && (a - s.buffer) % s.size == 0
  {
    var o := a - s.buffer;
    if IsBlock(s, a) {
      var k :| 0 <= k < s.blocks && a == Addr(s.buffer, s.size, k);
      Quotient(o, k, 0, s.size);
      AddrOrder(s.buffer, s.size, k, s.blocks);
    }
    if o >= 0 && o < s.size * s.blocks && o % s.size == 0 {
      var k := o / s.size;
      Whole(o, s.size);
      assert a == Addr(s.buffer, s.size, k);
      AddrOrder(s.buffer, s.size, s.blocks, k);
    }
  }

  lemma Whole(o: nat, size: nat)
    requires size > 0 && o % size == 0
    ensures o == o / size * size
  {
  }
}
