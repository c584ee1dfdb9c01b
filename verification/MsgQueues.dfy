/**
 Message queues (kernel/msg_q.c): a ring buffer of equal-sized messages and one wait
 queue that holds readers or writers.
 */
module MsgQueues {
  import opened Arithmetic
  import opened Memory
  import opened Sequences
  import opened WaitQueues

  type Msg = Bytes

  datatype Role = Reader | Writer(msg: Msg)

  /** What a thread that waited finds when it runs again. */
  datatype Wake = Got(msg: Msg) | Sent | NoMsg | TimedOut

  /** What became of a message that left the queue. */
  datatype Gone = Delivered(thread: Thread, msg: Msg) | Purged(msg: Msg)

  /**
   The abstract queue: at most `cap` messages, oldest first. `accepted` lists every message
   for which a put succeeded, in that order; `gone` every one that has left again.
   */
  datatype State = State(
    cap: nat, items: seq<Msg>, waiters: seq<Waiter<Role>>, woken: map<Thread, Wake>,
    accepted: seq<Msg>, gone: seq<Gone>)

  function Empty(cap: nat): State {
    State(cap, [], [], map[], [], [])
  }

  function Msgs(gone: seq<Gone>): seq<Msg> {
    seq(|gone|, i requires 0 <= i < |gone| => gone[i].msg)
  }

  function AllPurged(items: seq<Msg>): seq<Gone> {
    seq(|items|, i requires 0 <= i < |items| => Purged(items[i]))
  }

  // ----- steps -----

  function PutStep(s: State, t: Thread, prio: int, m: Msg, wait: bool): State {
    if |s.items| < s.cap then
      if s.waiters != [] then
        var w := s.waiters[0];
        s.(waiters := s.waiters[1..], woken := s.woken[w.thread := Got(m)],
           accepted := s.accepted + [m], gone := s.gone + [Delivered(w.thread, m)])
      else
        s.(items := s.items + [m], accepted := s.accepted + [m])
    else if !wait then s
    else s.(waiters := Pend(s.waiters, Waiter(t, prio, Writer(m))))
  }

  function GetStep(s: State, t: Thread, prio: int, wait: bool): State {
    if s.items != [] then
      var s1 := s.(items := s.items[1..], gone := s.gone + [Delivered(t, s.items[0])]);
      if s.waiters != [] && s.waiters[0].info.Writer? then
        var w := s.waiters[0];
        s1.(items := s1.items + [w.info.msg], waiters := s.waiters[1..], woken := s.woken[w.thread := Sent],
            accepted := s.accepted + [w.info.msg])
      else s1
    else if !wait then s
    else s.(waiters := Pend(s.waiters, Waiter(t, prio, Reader)))
  }

  function TimeoutStep(s: State, k: nat): State
    requires k < |s.waiters|
  {
    s.(waiters := RemoveAt(s.waiters, k), woken := s.woken[s.waiters[k].thread := TimedOut])
  }

  /** Every waiter in `q` told that there is no message for it. */
  function NoMsgs(woken: map<Thread, Wake>, q: seq<Waiter<Role>>): map<Thread, Wake>
    decreases |q|
  {
    if q == [] then woken else NoMsgs(woken[q[0].thread := NoMsg], q[1..])
  }

  function PurgeStep(s: State): State {
    s.(items := [], waiters := [], woken := NoMsgs(s.woken, s.waiters), gone := s.gone + AllPurged(s.items))
  }

  // ----- what every run keeps -----

  /** Whoever waits, waits for the same thing, and for good reason. */
  ghost predicate Uniform(s: State) {
    || s.waiters == []
    || (s.items == [] && forall i :: 0 <= i < |s.waiters| ==> s.waiters[i].info.Reader?)
    || (|s.items| == s.cap && forall i :: 0 <= i < |s.waiters| ==> s.waiters[i].info.Writer?)
  }

  /** A reader that was handed a message was handed a delivered one. */
  ghost predicate WokenOk(s: State) {
    forall t :: t in s.woken && s.woken[t].Got? ==> Delivered(t, s.woken[t].msg) in s.gone
  }

  ghost predicate Inv(s: State) {
    && |s.items| <= s.cap
    && ByPriority(s.waiters)
    && s.accepted == Msgs(s.gone) + s.items && WokenOk(s)
    && (s.cap > 0 ==> Uniform(s))
  }

  lemma PutKeeps(s: State, t: Thread, prio: int, m: Msg, wait: bool)
    requires Inv(s)
    ensures Inv(PutStep(s, t, prio, m, wait))
  {
    var s' := PutStep(s, t, prio, m, wait);
    PendKeepsOrder(s.waiters, Waiter(t, prio, Writer(m)));
    if |s.items| < s.cap && s.waiters != [] {
      assert s.items == [] && s'.accepted == Msgs(s'.gone) + [];
    }
  }

  lemma OneGone(gone: seq<Gone>, g: Gone)
    ensures Msgs(gone + [g]) == Msgs(gone) + [g.msg]
  {
  }

  lemma GetKeeps(s: State, t: Thread, prio: int, wait: bool)
    requires Inv(s)
    ensures Inv(GetStep(s, t, prio, wait))
  {
    hide Msgs;
    PendKeepsOrder(s.waiters, Waiter(t, prio, Reader));
    if s.items != [] {
      assert s.items == [s.items[0]] + s.items[1..];
      OneGone(s.gone, Delivered(t, s.items[0]));
      assert s.accepted == (Msgs(s.gone) + [s.items[0]]) + s.items[1..];
    }
  }

  lemma TimeoutKeeps(s: State, k: nat)
    requires Inv(s) && k < |s.waiters|
    ensures Inv(TimeoutStep(s, k))
  {
  }

  lemma PurgeKeeps(s: State)
    requires Inv(s)
    ensures Inv(PurgeStep(s))
  {
    assert Msgs(s.gone + AllPurged(s.items)) == Msgs(s.gone) + s.items;
    NoneGot(s.woken, s.waiters);
  }

  lemma {:induction false} NoneGot(woken: map<Thread, Wake>, q: seq<Waiter<Role>>)
    ensures forall t :: t in NoMsgs(woken, q) && NoMsgs(woken, q)[t].Got? ==> t in woken && woken[t] == NoMsgs(woken, q)[t]
    decreases |q|
  {
    if q != [] {
      NoneGot(woken[q[0].thread := NoMsg], q[1..]);
    }
  }

  datatype Step =
    | DoPut(t: Thread, prio: int, m: Msg, wait: bool)
    | DoGet(t: Thread, prio: int, wait: bool)
    | DoTimeout(k: nat)
    | DoPurge

  function Do(s: State, step: Step): State {
    match step
    case DoPut(t, prio, m, wait) => PutStep(s, t, prio, m, wait)
    case DoGet(t, prio, wait) => GetStep(s, t, prio, wait)
    case DoTimeout(k) => if k < |s.waiters| then TimeoutStep(s, k) else s
    case DoPurge => PurgeStep(s)
  }

  function RunAll(s: State, steps: seq<Step>): State
    decreases |steps|
  {
    if steps == [] then s else RunAll(Do(s, steps[0]), steps[1..])
  }

  lemma {:induction false} RunKeeps(s: State, steps: seq<Step>)
    requires Inv(s)
    ensures Inv(RunAll(s, steps)) && RunAll(s, steps).cap == s.cap
    decreases |steps|
  {
    hide Inv;
    if steps != [] {
      match steps[0] {
        case DoPut(t, prio, m, wait) => PutKeeps(s, t, prio, m, wait);
        case DoGet(t, prio, wait) => GetKeeps(s, t, prio, wait);
        case DoTimeout(k) => if k < |s.waiters| { TimeoutKeeps(s, k); }
        case DoPurge => PurgeKeeps(s);
      }
      RunKeeps(Do(s, steps[0]), steps[1..]);
    }
  }

  /** Messages leave in the order in which they were accepted, whether they went through the
      buffer, straight from a put to a waiting reader, or from a waiting writer; and what a
      waiting reader was handed is one of those delivered to it. */
  lemma DeliveredInOrder(cap: nat, steps: seq<Step>)
    ensures var s := RunAll(Empty(cap), steps);
      |s.items| <= cap && s.accepted == Msgs(s.gone) + s.items && WokenOk(s)
  {
    EmptyOk(cap);
    RunKeeps(Empty(cap), steps);
  }

  /** A get that finds a message hands over the oldest accepted one that is still there. */
  lemma GetTakesOldest(s: State, t: Thread, prio: int, wait: bool)
    requires Inv(s) && s.items != []
    ensures |s.gone| < |s.accepted|
    ensures GetStep(s, t, prio, wait).gone == s.gone + [Delivered(t, s.accepted[|s.gone|])]
  {
    assert s.accepted[|s.gone|] == (Msgs(s.gone) + s.items)[|s.gone|];
  }

  /** Readers wait only while the queue is empty and writers only while it is full, on every
      run, exactly if the queue has room for a message: with none, a reader and a writer
      wait side by side. */
  lemma UniformIff(cap: nat)
    ensures (forall steps :: Uniform(RunAll(Empty(cap), steps))) <==> cap > 0
  {
    hide RunAll, Inv, Uniform;
    if cap > 0 {
      forall steps ensures Uniform(RunAll(Empty(cap), steps)) {
        EmptyOk(cap);
        RunKeeps(Empty(cap), steps);
        UniformIs(RunAll(Empty(cap), steps));
      }
    } else {
      NoRoomMixes();
    }
  }

  lemma UniformIs(s: State)
    requires Inv(s) && s.cap > 0
    ensures Uniform(s)
  {
  }

  lemma NoRoomMixes()
    ensures !Uniform(RunAll(Empty(0), [DoGet(1, 0, true), DoPut(2, 0, [], true)]))
  {
    var steps := [DoGet(1, 0, true), DoPut(2, 0, [], true)];
    assert steps[1..] == [DoPut(2, 0, [], true)];
    var s1 := GetStep(Empty(0), 1, 0, true);
    assert s1.waiters == [Waiter(1, 0, Reader)];
    var s2 := PutStep(s1, 2, 0, [], true);
    assert Rank(s1.waiters, 0) == 1;
    assert s2.waiters == [Waiter(1, 0, Reader), Waiter(2, 0, Writer([]))];
    assert RunAll(s1, steps[1..]) == s2;
    assert s2.waiters[0].info.Reader? && s2.waiters[1].info.Writer?;
  }

  // ----- nobody waits in vain -----

  /** Why a waiter leaves the queue, and what it is told: a reader gets the message that was
      put, a writer's message is accepted, a wait runs out, or the queue is purged. */
  ghost predicate Left(s: State, s': State, step: Step, w: Waiter<Role>) {
    w.thread in s'.woken &&
    match step
    case DoPut(_, _, m, _) => w.info.Reader? && s'.woken[w.thread] == Got(m) && s'.gone == s.gone + [Delivered(w.thread, m)]
    case DoGet(_, _, _) => w.info.Writer? && s'.woken[w.thread] == Sent && s'.accepted == s.accepted + [w.info.msg]
    case DoTimeout(k) => s'.woken[w.thread] == TimedOut && k < |s.waiters| && s.waiters[k] == w && s'.accepted == s.accepted
    case DoPurge => s'.woken[w.thread] == NoMsg && s'.accepted == s.accepted
  }

  lemma {:induction false} AllTold(woken: map<Thread, Wake>, q: seq<Waiter<Role>>, i: nat)
    requires i < |q|
    ensures q[i].thread in NoMsgs(woken, q) && NoMsgs(woken, q)[q[i].thread] == NoMsg
    decreases |q|
  {
    if i > 0 {
      AllTold(woken[q[0].thread := NoMsg], q[1..], i - 1);
    } else {
      StaysTold(woken[q[0].thread := NoMsg], q[1..], q[0].thread);
    }
  }

  lemma {:induction false} StaysTold(woken: map<Thread, Wake>, q: seq<Waiter<Role>>, t: Thread)
    requires t in woken && woken[t] == NoMsg
    ensures t in NoMsgs(woken, q) && NoMsgs(woken, q)[t] == NoMsg
    decreases |q|
  {
    if q != [] { StaysTold(woken[q[0].thread := NoMsg], q[1..], t); }
  }

  lemma {:induction false} OthersNotTold(woken: map<Thread, Wake>, q: seq<Waiter<Role>>, t: Thread)
    requires forall i :: 0 <= i < |q| ==> q[i].thread != t
    ensures (t in NoMsgs(woken, q) <==> t in woken) && (t in woken ==> NoMsgs(woken, q)[t] == woken[t])
    decreases |q|
  {
    if q != [] { OthersNotTold(woken[q[0].thread := NoMsg], q[1..], t); }
  }

  /** The `i`-th waiter is still there or has been told why not, and a thread that did not
      wait has been told nothing. */
  ghost predicate Tells(s: State, s': State, step: Step, i: nat, t: Thread) {
    && (i < |s.waiters| ==> s.waiters[i] in s'.waiters || Left(s, s', step, s.waiters[i]))
    && ((forall j :: 0 <= j < |s.waiters| ==> s.waiters[j].thread != t) ==>
          (t in s'.woken <==> t in s.woken) && (t in s.woken ==> s'.woken[t] == s.woken[t]))
  }

  lemma PutTells(s: State, step: Step, i: nat, t: Thread)
    requires Inv(s) && step.DoPut?
    ensures Tells(s, Do(s, step), step, i, t)
  {
    hide Msgs, WokenOk, ByPriority;
    var s' := Do(s, step);
    PendHolds(s.waiters, Waiter(step.t, step.prio, Writer(step.m)));
    if i > 0 && i < |s.waiters| && |s.items| < s.cap { assert s'.waiters[i - 1] == s.waiters[i]; }
  }

  lemma GetTells(s: State, step: Step, i: nat, t: Thread)
    requires Inv(s) && step.DoGet?
    ensures Tells(s, Do(s, step), step, i, t)
  {
    hide Msgs, WokenOk, ByPriority;
    var s' := Do(s, step);
    PendHolds(s.waiters, Waiter(step.t, step.prio, Reader));
    if i > 0 && i < |s.waiters| && s.items != [] && s.waiters[0].info.Writer? { assert s'.waiters[i - 1] == s.waiters[i]; }
  }

  lemma LeaveTells(s: State, step: Step, i: nat, t: Thread)
    requires step.DoTimeout? || step.DoPurge?
    ensures Tells(s, Do(s, step), step, i, t)
  {
    var s' := Do(s, step);
    if step.DoPurge? {
      if i < |s.waiters| { AllTold(s.woken, s.waiters, i); }
      if forall j :: 0 <= j < |s.waiters| ==> s.waiters[j].thread != t { OthersNotTold(s.woken, s.waiters, t); }
    } else if step.k < |s.waiters| && i < |s.waiters| && i != step.k {
      assert s'.waiters[if i < step.k then i else i - 1] == s.waiters[i];
    }
  }

  /** Over every run: whoever waits before a step waits afterwards or has been told why not,
      and nobody else is told anything. */
  lemma LeaversAreTold(cap: nat, steps: seq<Step>, step: Step, i: nat, t: Thread)
    ensures var s := RunAll(Empty(cap), steps); Tells(s, Do(s, step), step, i, t)
  {
    hide RunAll, Tells, Do, Inv;
    EmptyOk(cap);
    RunKeeps(Empty(cap), steps);
    var s := RunAll(Empty(cap), steps);
    match step
    case DoPut(_, _, _, _) => PutTells(s, step, i, t);
    case DoGet(_, _, _) => GetTells(s, step, i, t);
    case _ => LeaveTells(s, step, i, t);
  }

  lemma EmptyOk(cap: nat)
    ensures Inv(Empty(cap))
  {
    assert Empty(cap).accepted == Msgs(Empty(cap).gone) + Empty(cap).items;
  }

  // ----- the ring of slots -----

  function Times(k: nat, size: nat): nat {
    k * size
  }

  /** Slot `k` of a buffer of `n` messages of `size` bytes each. */
  function Slot(b: Bytes, n: nat, size: nat, k: nat): Msg
    requires |b| == Times(n, size) && k < n
  {
    Within(k, n, size);
    b[Times(k, size)..Times(k, size) + size]
  }

  lemma Within(k: nat, n: nat, size: nat)
    requires k < n
    ensures Times(k, size) + size == Times(k + 1, size) <= Times(n, size)
  {
    var more := n - (k + 1);
    assert Times(n, size) == Times(k + 1, size) + more * size;
    if more > 0 && size > 0 { MulAtLeast(more, size); }
  }

  lemma Apart(k: nat, j: nat, size: nat)
    requires size > 0
    ensures k < j ==> Times(k, size) + size <= Times(j, size)
    ensures Times(k, size) == Times(j, size) ==> k == j
  {
    if k < j {
      Within(k, j, size);
    } else if j < k {
      Within(j, k, size);
    }
  }

  /** The buffer after a message has been copied to slot `k`. */
  function Store(b: Bytes, n: nat, size: nat, k: nat, m: Msg): (b': Bytes)
    requires |b| == Times(n, size) && k < n && |m| == size
    ensures |b'| == |b|
  {
    Within(k, n, size);
    b[..Times(k, size)] + m + b[Times(k, size) + size..]
  }

  lemma StoreSlot(b: Bytes, n: nat, size: nat, k: nat, m: Msg, j: nat)
    requires |b| == Times(n, size) && k < n && |m| == size && j < n && size > 0
    ensures Slot(Store(b, n, size, k, m), n, size, j) == if j == k then m else Slot(b, n, size, j)
  {
    Within(k, n, size);
    Within(j, n, size);
    Apart(k, j, size);
    Apart(j, k, size);
  }

  /** The buffer holds the messages, in order, from slot `r` on and around the end. */
  ghost predicate Holds(b: Bytes, n: nat, size: nat, r: nat, items: seq<Msg>) {
    && |b| == Times(n, size) && (n > 0 ==> r < n) && |items| <= n
    && (forall i :: 0 <= i < |items| ==> Slot(b, n, size, Wrap(r + i, n)) == items[i])
  }

  lemma HoldsNone(b: Bytes, n: nat, size: nat)
    requires |b| == Times(n, size)
    ensures Holds(b, n, size, 0, []) && Times(0, size) == 0 == Times(Wrap(0, n), size)
  {
  }

  lemma HoldsPush(b: Bytes, n: nat, size: nat, r: nat, items: seq<Msg>, m: Msg)
    requires Holds(b, n, size, r, items) && |items| < n && size > 0 && |m| == size
    ensures Holds(Store(b, n, size, Wrap(r + |items|, n), m), n, size, r, items + [m])
  {
    hide Slot, Store, Times;
    var b' := Store(b, n, size, Wrap(r + |items|, n), m);
    forall i | 0 <= i <= |items| ensures Slot(b', n, size, Wrap(r + i, n)) == (items + [m])[i] {
      StoreSlot(b, n, size, Wrap(r + |items|, n), m, Wrap(r + i, n));
    }
  }

  lemma HoldsPop(b: Bytes, n: nat, size: nat, r: nat, items: seq<Msg>)
    requires Holds(b, n, size, r, items) && items != []
    ensures Holds(b, n, size, Wrap(r + 1, n), items[1..])
    ensures Slot(b, n, size, r) == items[0]
    ensures Wrap(Wrap(r + 1, n) + (|items| - 1), n) == Wrap(r + |items|, n)
  {
    hide Slot, Times;
    forall i | 0 <= i < |items[1..]| ensures Slot(b, n, size, Wrap(Wrap(r + 1, n) + i, n)) == items[1..][i] {
      assert Wrap(Wrap(r + 1, n) + i, n) == Wrap(r + (i + 1), n);
    }
    assert Wrap(r + 0, n) == r;
  }

  // ----- the source's operations -----

  datatype Code = Ok | ENoMsg | Blocked

  class MessageQueue {
    const msgSize: nat
    const maxMsgs: nat
    const buffer: array<Byte>
    var readPtr: nat
    var writePtr: nat
    var usedMsgs: nat
    var waitQ: seq<Waiter<Role>>
    var woken: map<Thread, Wake>
    ghost var spec: State
    ghost var first: nat  // the slot `readPtr` points at

    ghost predicate Valid()
      reads this, buffer
    {
      && msgSize > 0 && spec.cap == maxMsgs && Inv(spec)
      && spec.waiters == waitQ && spec.woken == woken && |spec.items| == usedMsgs
      && readPtr == Times(first, msgSize) && writePtr == Times(Wrap(first + usedMsgs, maxMsgs), msgSize)
      && Holds(buffer[..], maxMsgs, msgSize, first, spec.items)
      && (forall i :: 0 <= i < |waitQ| && waitQ[i].info.Writer? ==> |waitQ[i].info.msg| == msgSize)
    }

    constructor (msgSize: nat, maxMsgs: nat)
      requires msgSize > 0
      ensures Valid() && spec == Empty(maxMsgs) && this.msgSize == msgSize && fresh(buffer)
    {
      this.msgSize, this.maxMsgs := msgSize, maxMsgs;
      buffer := new Byte[Times(maxMsgs, msgSize)];
      readPtr, writePtr, usedMsgs := 0, 0, 0;
      waitQ, woken := [], map[];
      spec, first := Empty(maxMsgs), 0;
      new;
      EmptyOk(maxMsgs);
      HoldsNone(buffer[..], maxMsgs, msgSize);
    }

    /** A pointer moved on by one message, back to the start at the end of the buffer. */
    method Advance(ptr: nat, ghost k: nat) returns (ptr': nat)
      requires msgSize > 0 && k < maxMsgs && ptr == Times(k, msgSize) && buffer.Length == Times(maxMsgs, msgSize)
      ensures ptr' == Times(Wrap(k + 1, maxMsgs), msgSize)
    {
      Within(k, maxMsgs, msgSize);
      Apart(k + 1, maxMsgs, msgSize);
      ptr' := ptr + msgSize;
      if ptr' == buffer.Length {
        ptr' := 0;
      }
    }

    /** Copying a message to where `writePtr` points, and moving it on. */
    method Append(m: Msg, ghost r: nat, ghost items: seq<Msg>)
      requires msgSize > 0 && |m| == msgSize && |items| < maxMsgs && |items| == usedMsgs
      requires writePtr == Times(Wrap(r + usedMsgs, maxMsgs), msgSize)
      requires Holds(buffer[..], maxMsgs, msgSize, r, items)
      modifies this`writePtr, this`usedMsgs, buffer
      ensures usedMsgs == old(usedMsgs) + 1 && Holds(buffer[..], maxMsgs, msgSize, r, items + [m])
      ensures writePtr == Times(Wrap(r + usedMsgs, maxMsgs), msgSize)
    {
      hide Slot, Times;
      ghost var k := Wrap(r + usedMsgs, maxMsgs);
      Within(k, maxMsgs, msgSize);
      HoldsPush(buffer[..], maxMsgs, msgSize, r, items, m);
      forall i | 0 <= i < msgSize {
        buffer[writePtr + i] := m[i];
      }
      assert buffer[..] == Store(old(buffer[..]), maxMsgs, msgSize, k, m);
      writePtr := Advance(writePtr, k);
      usedMsgs := usedMsgs + 1;
    }

    /** `k_msgq_put`. */
    method Put(t: Thread, prio: int, m: Msg, wait: bool) returns (code: Code)
      requires Valid() && |m| == msgSize
      modifies this, buffer
      ensures Valid() && spec == PutStep(old(spec), t, prio, m, wait)
      ensures code == if |old(spec).items| < maxMsgs then Ok else if wait then Blocked else ENoMsg
      ensures spec.accepted == old(spec).accepted + (if code == Ok then [m] else [])
      ensures code == Blocked ==> waitQ == Pend(old(waitQ), Waiter(t, prio, Writer(m))) && spec == old(spec).(waiters := waitQ)
      ensures code == ENoMsg ==> spec == old(spec)
      ensures code == Ok ==> waitQ == (if old(waitQ) == [] then [] else old(waitQ)[1..])
    {
      hide Holds, Times, Inv;
      PutKeeps(spec, t, prio, m, wait);
      ItemsFit(spec);
      if usedMsgs < maxMsgs {
        if waitQ != [] {
          woken := woken[waitQ[0].thread := Got(m)];
          waitQ := waitQ[1..];
        } else {
          Append(m, first, spec.items);
        }
        code := Ok;
      } else if !wait {
        code := ENoMsg;
      } else {
        waitQ := Pend(waitQ, Waiter(t, prio, Writer(m)));
        code := Blocked;
      }
      spec := PutStep(spec, t, prio, m, wait);
    }

    /** `k_msgq_get`. */
    method Get(t: Thread, prio: int, wait: bool) returns (code: Code, data: Msg)
      requires Valid()
      modifies this, buffer
      ensures Valid() && spec == GetStep(old(spec), t, prio, wait)
      ensures code == if old(spec).items != [] then Ok else if wait then Blocked else ENoMsg
      ensures code == Ok ==> data == old(spec).items[0] && spec.gone == old(spec).gone + [Delivered(t, data)]
      ensures code == Ok ==> waitQ == (if old(waitQ) == [] then [] else old(waitQ)[1..])
      ensures code == Blocked ==> waitQ == Pend(old(waitQ), Waiter(t, prio, Reader)) && spec == old(spec).(waiters := waitQ)
      ensures code == ENoMsg ==> spec == old(spec)
    {
      hide Holds, Times, Inv;
      GetKeeps(spec, t, prio, wait);
      ItemsFit(spec);
      data := [];
      if usedMsgs > 0 {
        HoldsPop(buffer[..], maxMsgs, msgSize, first, spec.items);
        FirstFits(buffer[..], maxMsgs, msgSize, first, spec.items);
        data := buffer[readPtr..readPtr + msgSize];
        readPtr := Advance(readPtr, first);
        usedMsgs := usedMsgs - 1;
        first := Wrap(first + 1, maxMsgs);
        if waitQ != [] {
          WaitersWrite(spec);
          Append(waitQ[0].info.msg, first, spec.items[1..]);
          woken := woken[waitQ[0].thread := Sent];
          waitQ := waitQ[1..];
        }
        code := Ok;
      } else if !wait {
        code := ENoMsg;
      } else {
        waitQ := Pend(waitQ, Waiter(t, prio, Reader));
        code := Blocked;
      }
      spec := GetStep(spec, t, prio, wait);
    }

    /** `k_msgq_peek_at`; `k_msgq_peek` is the case of index 0. */
    method PeekAt(idx: nat) returns (code: Code, data: Msg)
      requires Valid()
      ensures code == if idx < |spec.items| then Ok else ENoMsg
      ensures code == Ok ==> data == spec.items[idx]
    {
      data := [];
      if usedMsgs > idx {
        Reaches(first, idx, maxMsgs, msgSize);
        Within(Wrap(first + idx, maxMsgs), maxMsgs, msgSize);
        var bytesToEnd := buffer.Length - readPtr;
        var byteOffset := idx * msgSize;
        var start := readPtr;
        if bytesToEnd <= byteOffset {
          byteOffset := byteOffset - bytesToEnd;
          start := 0;
        }
        data := buffer[start + byteOffset..start + byteOffset + msgSize];
        code := Ok;
      } else {
        code := ENoMsg;
      }
    }

    /** `k_msgq_purge`. */
    method Purge()
      requires Valid()
      modifies this
      ensures Valid() && spec == PurgeStep(old(spec)) && spec.items == [] && waitQ == []
    {
      hide Times, Inv;
      PurgeKeeps(spec);
      while waitQ != []
        modifies this`waitQ, this`woken
        invariant NoMsgs(woken, waitQ) == NoMsgs(old(woken), old(waitQ))
        decreases |waitQ|
      {
        woken := woken[waitQ[0].thread := NoMsg];
        waitQ := waitQ[1..];
      }
      first := Wrap(first + usedMsgs, maxMsgs);
      usedMsgs := 0;
      readPtr := writePtr;
      spec := PurgeStep(spec);
    }

    /** The wait of a pended thread times out. */
    method Timeout(k: nat)
      requires Valid() && k < |waitQ|
      modifies this
      ensures Valid() && spec == TimeoutStep(old(spec), k)
      ensures waitQ == RemoveAt(old(waitQ), k) && woken == old(woken)[old(waitQ)[k].thread := TimedOut]
    {
      hide Inv, Holds, Times;
      TimeoutKeeps(spec, k);
      woken := woken[waitQ[k].thread := TimedOut];
      waitQ := RemoveAt(waitQ, k);
      spec := TimeoutStep(spec, k);
    }
  }

  lemma ItemsFit(s: State)
    requires Inv(s)
    ensures |s.items| <= s.cap
  {
  }

  lemma WaitersWrite(s: State)
    requires Inv(s) && s.items != [] && s.waiters != []
    ensures s.waiters[0].info.Writer?
  {
  }

  lemma FirstFits(b: Bytes, n: nat, size: nat, r: nat, items: seq<Msg>)
    requires Holds(b, n, size, r, items) && items != []
    ensures r < n && Times(r, size) + size <= |b| == Times(n, size)
    ensures b[Times(r, size)..Times(r, size) + size] == Slot(b, n, size, r)
  {
    Within(r, n, size);
  }

  /** Byte offsets find the slot `idx` places on, before or beyond the end of the buffer. */
  lemma Reaches(r: nat, idx: nat, n: nat, size: nat)
    requires r < n && idx < n && size > 0
    ensures Times(n, size) - Times(r, size) <= idx * size <==> r + idx >= n
    ensures r + idx < n ==> Times(r, size) + idx * size == Times(Wrap(r + idx, n), size)
    ensures r + idx >= n ==> idx * size - (Times(n, size) - Times(r, size)) == Times(Wrap(r + idx, n), size)
  {
    assert Times(r, size) + idx * size == Times(r + idx, size);
    if r + idx >= n {
      assert Times(r + idx - n, size) == Times(r + idx, size) - Times(n, size);
    } else {
      Apart(r + idx, n, size);
    }
  }
}
