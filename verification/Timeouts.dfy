/**
 The kernel's timeout list (kernel/timeout.c).

 The source keeps a list in which each node holds the number of ticks after its
 predecessor. Here that delta list is proved to represent a queue of absolute
 expiry ticks, and `sys_clock_announce` is proved against a reference run of that
 queue whose callbacks are arbitrary.
 */
module Timeouts {
  import opened Sequences

  /** Address of a `struct _timeout`. */
  type Id = nat

  /** A node of `timeout_list`. `serial` numbers insertions; it is bookkeeping of the
      model that tells one use of a timeout object from the next. */
  datatype Node = Node(id: Id, serial: nat, dticks: nat)

  /** A pending timeout seen from outside: the tick at which it expires. */
  datatype Entry = Entry(id: Id, serial: nat, expiry: nat)

  /** What code that runs with the lock released may do to the list. `hw` is what
      `sys_clock_elapsed()` returns at that moment. */
  datatype Op = Start(id: Id, ticks: int, hw: nat) | Abort(id: Id)

  /** What a callback does, as a function of everything that has fired so far. */
  type Callback = seq<Entry> -> seq<Op>

  const K_TICKS_FOREVER: int := -1

  /** The absolute tick encoded in a timeout value; negative when it is relative. */
  function TickAbs(ticks: int): int {
    K_TICKS_FOREVER - 1 - ticks
  }

  /** The tick at which a timeout started now is due: an absolute one, encoded as a number
      below `K_TICKS_FOREVER`, at its tick or the next one, whichever is later; a relative one
      a full tick after what was asked for, counted from the hardware clock unless an
      announcement has ticks to go. */
  ghost predicate DueAt(now: nat, remaining: nat, ticks: int, hw: nat, due: nat) {
    if ticks < K_TICKS_FOREVER then due >= -2 - ticks && due > now && (due == -2 - ticks || due == now + 1)
    else due == now + (if remaining > 0 then 0 else hw) + ticks + 1
  }

  /** Ticks after `now` at which a new timeout is due. */
  function Delay(now: nat, remaining: nat, ticks: int, hw: nat): (d: nat)
    requires ticks != K_TICKS_FOREVER
    ensures 1 <= d && DueAt(now, remaining, ticks, hw, now + d)
  {
    if TickAbs(ticks) >= 0 then
      if TickAbs(ticks) - now > 1 then TickAbs(ticks) - now else 1
    else
      ticks + 1 + (if remaining == 0 then hw else 0)
  }

  /** The delta list `l`, read from tick `now`, stands for the queue `q`. */
  ghost predicate Represents(now: nat, l: seq<Node>, q: seq<Entry>) {
    && |l| == |q|
    && (forall i {:trigger l[i]} :: 0 <= i < |l| ==> l[i].id == q[i].id && l[i].serial == q[i].serial)
    && (forall i {:trigger l[i]} :: 0 <= i < |l| ==> q[i].expiry == (if i == 0 then now else q[i - 1].expiry) + l[i].dticks)
  }

  /** The list without its `k`-th node, whose ticks go to the next one. */
  function RemoveDelta(l: seq<Node>, k: nat): seq<Node>
    requires k < |l|
  {
    if k + 1 < |l| then l[..k] + [l[k + 1].(dticks := l[k + 1].dticks + l[k].dticks)] + l[k + 2..] else l[..k]
  }

  /** The list with a node put at position `k`, its ticks taken from the next one. */
  function InsertDelta(l: seq<Node>, k: nat, n: Node): seq<Node>
    requires k <= |l| && (k < |l| ==> n.dticks <= l[k].dticks)
  {
    if k < |l| then l[..k] + [n, l[k].(dticks := l[k].dticks - n.dticks)] + l[k + 1..] else l + [n]
  }

  lemma RemoveRepresents(now: nat, l: seq<Node>, q: seq<Entry>, k: nat)
    requires Represents(now, l, q) && k < |l|
    ensures Represents(now, RemoveDelta(l, k), RemoveAt(q, k))
  {
    var l', q' := RemoveDelta(l, k), RemoveAt(q, k);
    forall i | 0 <= i < |l'|
      ensures l'[i].id == q'[i].id && l'[i].serial == q'[i].serial
      ensures q'[i].expiry == (if i == 0 then now else q'[i - 1].expiry) + l'[i].dticks
    {
      if i < k { assert l'[i] == l[i]; }
      else if i == k { assert l[k].dticks >= 0 && l'[i].dticks == l[k].dticks + l[k + 1].dticks; }
      else { assert l'[i] == l[i + 1]; }
    }
  }

  lemma InsertRepresents(now: nat, l: seq<Node>, q: seq<Entry>, k: nat, n: Node, e: Entry)
    requires Represents(now, l, q) && k <= |l| && (k < |l| ==> n.dticks <= l[k].dticks)
    requires e == Entry(n.id, n.serial, (if k == 0 then now else q[k - 1].expiry) + n.dticks)
    ensures Represents(now, InsertDelta(l, k, n), q[..k] + [e] + q[k..])
  {
    var l', q' := InsertDelta(l, k, n), q[..k] + [e] + q[k..];
    forall i | 0 <= i < |l'|
      ensures l'[i].id == q'[i].id && l'[i].serial == q'[i].serial
      ensures q'[i].expiry == (if i == 0 then now else q'[i - 1].expiry) + l'[i].dticks
    {
      if i < k { assert l'[i] == l[i]; }
      else if i == k { assert l'[i] == n; }
      else if i == k + 1 { assert l'[i].dticks == l[k].dticks - n.dticks; }
      else { assert l'[i] == l[i - 1]; }
    }
  }

  /** Moving the clock forward by less than the first node's ticks. */
  lemma LeaveRepresents(now: nat, l: seq<Node>, q: seq<Entry>, n: nat)
    requires Represents(now, l, q) && (l != [] ==> n <= l[0].dticks)
    ensures Represents(now + n, if l == [] then l else l[0 := l[0].(dticks := l[0].dticks - n)], q)
  {
  }

  lemma HeadDue(now: nat, l: seq<Node>, q: seq<Entry>)
    requires Represents(now, l, q)
    ensures |l| == |q| && (l != [] ==> q[0].expiry == now + l[0].dticks)
  {
  }

  /** Number of leading entries that expire no later than `tick`. */
  function Slot(q: seq<Entry>, tick: int): (p: nat)
    ensures p <= |q|
    ensures forall i :: 0 <= i < p ==> q[i].expiry <= tick
    ensures p < |q| ==> q[p].expiry > tick
  {
    if q == [] || q[0].expiry > tick then 0 else 1 + Slot(q[1..], tick)
  }

  lemma SlotIs(q: seq<Entry>, tick: int, p: nat)
    requires p <= |q| && (forall i :: 0 <= i < p ==> q[i].expiry <= tick) && (p < |q| ==> q[p].expiry > tick)
    ensures Slot(q, tick) == p
  {
    var p' := Slot(q, tick);
    assert !(p' < p) && !(p < p');
  }

  /** Insertion after every entry that expires no later. */
  function Insert(q: seq<Entry>, e: Entry): seq<Entry> {
    var p := Slot(q, e.expiry);
    q[..p] + [e] + q[p..]
  }

  // ----- the reference queue -----

  /** The queue as its users see it. `pool` collects every entry that was ever in the
      queue, `aborted` those taken out by an abort, `fired` those that fired, in that order. */
  datatype Sched = Sched(
    now: nat, queue: seq<Entry>, serial: nat, pool: set<Entry>, aborted: set<Entry>, fired: seq<Entry>)

  ghost predicate Before(a: Entry, b: Entry) {
    a.expiry < b.expiry || (a.expiry == b.expiry && a.serial < b.serial)
  }

  /** Expiry order, first in first out among equal ticks. */
  ghost predicate Sorted(q: seq<Entry>) {
    forall i, j :: 0 <= i < j < |q| ==> Before(q[i], q[j])
  }

  ghost predicate DistinctIds(q: seq<Entry>) {
    forall i, j :: 0 <= i < j < |q| ==> q[i].id != q[j].id
  }

  ghost predicate Ordered(s: Sched) {
    && Sorted(s.queue)
    && DistinctIds(s.queue)
    && (forall i :: 0 <= i < |s.queue| ==> s.now <= s.queue[i].expiry && s.queue[i].serial < s.serial)
  }

  function Linked(q: seq<Entry>, id: Id): bool {
    exists i :: 0 <= i < |q| && q[i].id == id
  }

  function Index(q: seq<Entry>, id: Id): (k: nat)
    requires Linked(q, id)
    ensures k < |q| && q[k].id == id
  {
    if q[0].id == id then 0 else 1 + Index(q[1..], id)
  }

  lemma IndexIs(q: seq<Entry>, k: nat)
    requires k < |q| && DistinctIds(q)
    ensures Linked(q, q[k].id) && Index(q, q[k].id) == k
  {
    assert q[k].id == q[k].id;
    var j := Index(q, q[k].id);
    assert !(j < k) && !(k < j);
  }

  function StartEntry(s: Sched, remaining: nat, id: Id, ticks: int, hw: nat): Entry
    requires ticks != K_TICKS_FOREVER
  {
    Entry(id, s.serial, s.now + Delay(s.now, remaining, ticks, hw))
  }

  /** One step of a callback. Adding a timeout that is already pending is a caller
      error in the source and leaves the queue alone here. */
  function Apply(s: Sched, remaining: nat, op: Op): Sched {
    match op
    case Start(id, ticks, hw) =>
      if ticks == K_TICKS_FOREVER || Linked(s.queue, id) then s
      else
        var e := StartEntry(s, remaining, id, ticks, hw);
        s.(queue := Insert(s.queue, e), serial := s.serial + 1, pool := s.pool + {e})
    case Abort(id) =>
      if !Linked(s.queue, id) then s
      else
        var k := Index(s.queue, id);
        s.(queue := RemoveAt(s.queue, k), aborted := s.aborted + {s.queue[k]})
  }

  function ApplyAll(s: Sched, remaining: nat, ops: seq<Op>): Sched
    decreases |ops|
  {
    if ops == [] then s else ApplyAll(Apply(s, remaining, ops[0]), remaining, ops[1..])
  }

  lemma InsertSorted(q: seq<Entry>, e: Entry)
    requires Sorted(q) && forall i :: 0 <= i < |q| ==> q[i].serial < e.serial
    ensures Sorted(Insert(q, e))
  {
    var p, r := Slot(q, e.expiry), Insert(q, e);
    forall i, j | 0 <= i < j < |r| ensures Before(r[i], r[j]) {
      if i == p { assert r[j] == q[j - 1] && (p < j - 1 ==> Before(q[p], q[j - 1])); }
    }
  }

  lemma InsertDistinct(q: seq<Entry>, e: Entry)
    requires DistinctIds(q) && !Linked(q, e.id)
    ensures DistinctIds(Insert(q, e))
  {
  }

  lemma InsertOrdered(s: Sched, e: Entry)
    requires Ordered(s) && !Linked(s.queue, e.id) && e.serial == s.serial && e.expiry > s.now
    ensures Ordered(s.(queue := Insert(s.queue, e), serial := s.serial + 1))
    ensures Slot(Insert(s.queue, e), s.now) == Slot(s.queue, s.now)
  {
    hide Sorted, DistinctIds, Insert, Slot;
    var q, r := s.queue, Insert(s.queue, e);
    InsertSorted(q, e);
    InsertDistinct(q, e);
    InsertSlot(q, e, s.now);
    InsertHolds(q, e);
    forall i | 0 <= i < |r| ensures s.now <= r[i].expiry && r[i].serial < s.serial + 1 {
      assert r[i] in r;
    }
  }

  /** Nothing is due earlier because of a later entry. */
  lemma InsertSlot(q: seq<Entry>, e: Entry, now: nat)
    requires e.expiry > now
    ensures Slot(Insert(q, e), now) == Slot(q, now)
  {
    SlotIs(Insert(q, e), now, Slot(q, now));
  }

  lemma RemoveSorted(q: seq<Entry>, k: nat)
    requires Sorted(q) && DistinctIds(q) && k < |q|
    ensures Sorted(RemoveAt(q, k)) && DistinctIds(RemoveAt(q, k))
  {
  }

  lemma RemoveSlot(q: seq<Entry>, k: nat, now: nat)
    requires Sorted(q) && k < |q|
    ensures Slot(RemoveAt(q, k), now) <= Slot(q, now)
  {
    var r, p := RemoveAt(q, k), Slot(q, now);
    if k < p {
      SlotIs(r, now, p - 1);
    } else {
      assert k == p && p < |r| ==> Before(q[p], q[p + 1]);
      SlotIs(r, now, p);
    }
  }

  lemma RemoveOrdered(s: Sched, k: nat)
    requires Ordered(s) && k < |s.queue|
    ensures Ordered(s.(queue := RemoveAt(s.queue, k)))
    ensures Slot(RemoveAt(s.queue, k), s.now) <= Slot(s.queue, s.now)
  {
    hide Sorted, DistinctIds, Slot;
    RemoveSorted(s.queue, k);
    RemoveSlot(s.queue, k, s.now);
  }

  /** Whatever a callback step does, the queue stays ordered and nothing it adds is due
      at the current tick. */
  lemma ApplyKeeps(s: Sched, remaining: nat, op: Op)
    requires Ordered(s)
    ensures var s' := Apply(s, remaining, op);
      Ordered(s') && s'.now == s.now && Slot(s'.queue, s.now) <= Slot(s.queue, s.now)
  {
    match op
    case Start(id, ticks, hw) =>
      if ticks != K_TICKS_FOREVER && !Linked(s.queue, id) {
        InsertOrdered(s, StartEntry(s, remaining, id, ticks, hw));
      }
    case Abort(id) =>
      if Linked(s.queue, id) {
        RemoveOrdered(s, Index(s.queue, id));
      }
  }

  lemma {:induction false} ApplyAllKeeps(s: Sched, remaining: nat, ops: seq<Op>)
    requires Ordered(s)
    ensures var s' := ApplyAll(s, remaining, ops);
      Ordered(s') && s'.now == s.now && Slot(s'.queue, s.now) <= Slot(s.queue, s.now)
    decreases |ops|
  {
    if ops != [] {
      ApplyKeeps(s, remaining, ops[0]);
      ApplyAllKeeps(Apply(s, remaining, ops[0]), remaining, ops[1..]);
    }
  }

  /** The first entry has come due: its expiry is the time, and it counts as fired. */
  function Pop(s: Sched): Sched
    requires s.queue != []
  {
    s.(now := s.queue[0].expiry, queue := s.queue[1..], fired := s.fired + [s.queue[0]])
  }

  /** Fires the first entry: the state right after its callback has returned. */
  function Fire(s: Sched, horizon: nat, cb: Callback): Sched
    requires s.queue != [] && s.now <= horizon
  {
    ApplyAll(Pop(s), horizon - s.now, cb(Pop(s).fired))
  }

  lemma PopOrdered(s: Sched)
    requires Ordered(s) && s.queue != []
    ensures Ordered(Pop(s)) && s.now <= s.queue[0].expiry
    ensures s.queue[0].expiry == s.now ==> Slot(s.queue[1..], s.now) < Slot(s.queue, s.now)
  {
    forall i | 0 < i < |s.queue| ensures s.queue[0].expiry <= s.queue[i].expiry {
      assert Before(s.queue[0], s.queue[i]);
    }
  }

  lemma FireKeeps(s: Sched, horizon: nat, cb: Callback)
    requires Ordered(s) && s.queue != [] && s.queue[0].expiry <= horizon
    ensures var s' := Fire(s, horizon, cb);
      && Ordered(s') && s'.now == s.queue[0].expiry
      && (s'.now == s.now ==> Slot(s'.queue, s'.now) < Slot(s.queue, s.now))
  {
    hide Ordered, Slot;
    PopOrdered(s);
    ApplyAllKeeps(Pop(s), horizon - s.now, cb(Pop(s).fired));
  }

  lemma RestLater(s: Sched, horizon: nat)
    requires Ordered(s) && (s.queue == [] || s.queue[0].expiry > horizon)
    ensures forall i :: 0 <= i < |s.queue| ==> s.queue[i].expiry > horizon
    ensures Ordered(s.(now := horizon))
  {
    forall i | 0 < i < |s.queue| ensures s.queue[i].expiry > horizon {
      assert Before(s.queue[0], s.queue[i]);
    }
  }

  /** Reference meaning of an announcement up to `horizon`: fire the first entry at its
      own expiry tick until none is due. Terminates for every callback. */
  ghost function Run(s: Sched, horizon: nat, cb: Callback): Sched
    requires Ordered(s) && s.now <= horizon
    decreases horizon - s.now, Slot(s.queue, s.now)
  {
    if s.queue == [] || s.queue[0].expiry > horizon then s.(now := horizon)
    else
      FireKeeps(s, horizon, cb);
      Run(Fire(s, horizon, cb), horizon, cb)
  }

  // ----- what every announcement guarantees -----

  /** Every entry ever queued is pending, fired or aborted, and only one of them. */
  ghost predicate Ledger(s: Sched) {
    && (forall e :: e in s.pool <==> e in s.queue || e in s.fired || e in s.aborted)
    && (forall e :: e in s.queue ==> e !in s.fired && e !in s.aborted)
    && (forall e :: e in s.fired ==> e !in s.aborted)
    && (forall e :: e in s.pool ==> e.serial < s.serial)
  }

  /** What has fired is in expiry order with ties first in first out, and everything
      still pending comes after it. */
  ghost predicate FiredInOrder(s: Sched) {
    && Sorted(s.fired)
    && (forall e, f :: e in s.fired && f in s.queue ==> Before(e, f))
    && (forall e :: e in s.fired ==> e.expiry <= s.now)
  }

  ghost predicate Inv(s: Sched) {
    Ordered(s) && Ledger(s) && FiredInOrder(s)
  }

  /** Nothing is due, as is the case outside announcements. */
  ghost predicate Settled(s: Sched) {
    forall e :: e in s.queue ==> e.expiry > s.now
  }

  lemma InsertHolds(q: seq<Entry>, e: Entry)
    ensures forall x :: x in Insert(q, e) <==> x == e || x in q
  {
    var p := Slot(q, e.expiry);
    assert q == q[..p] + q[p..];
  }

  lemma InsertLedger(s: Sched, e: Entry)
    requires Ledger(s) && FiredInOrder(s) && e.serial == s.serial && e.expiry > s.now
    ensures var s' := s.(queue := Insert(s.queue, e), serial := s.serial + 1, pool := s.pool + {e});
      Ledger(s') && FiredInOrder(s') && (Settled(s) ==> Settled(s'))
  {
    hide Sorted, Insert;
    InsertHolds(s.queue, e);
  }

  lemma RemoveOnly(q: seq<Entry>, k: nat)
    requires k < |q| && DistinctIds(q)
    ensures forall e :: e in RemoveAt(q, k) <==> e in q && e.id != q[k].id
    ensures forall e :: e in q && e.id == q[k].id ==> e == q[k]
  {
    var r := RemoveAt(q, k);
    assert forall i :: 0 <= i < |r| ==> r[i] == q[if i < k then i else i + 1];
    forall e | e in q && e.id != q[k].id ensures e in r {
      var j :| 0 <= j < |q| && q[j] == e;
      assert r[if j < k then j else j - 1] == e;
    }
  }

  lemma RemoveLedger(s: Sched, k: nat)
    requires Ordered(s) && k < |s.queue| && Ledger(s) && FiredInOrder(s)
    ensures var s' := s.(queue := RemoveAt(s.queue, k), aborted := s.aborted + {s.queue[k]});
      Ledger(s') && FiredInOrder(s') && (Settled(s) ==> Settled(s'))
  {
    hide Sorted, RemoveAt;
    RemoveOnly(s.queue, k);
    assert s.queue[k] in s.queue;
  }

  /** The past only grows. */
  ghost predicate Extends(s: Sched, s': Sched) {
    s.pool <= s'.pool && s.aborted <= s'.aborted && s.fired <= s'.fired
  }

  lemma ApplyLedger(s: Sched, remaining: nat, op: Op)
    requires Inv(s)
    ensures var s' := Apply(s, remaining, op);
      Inv(s') && Extends(s, s') && s'.fired == s.fired && (Settled(s) ==> Settled(s'))
  {
    ApplyKeeps(s, remaining, op);
    match op
    case Start(id, ticks, hw) =>
      if ticks != K_TICKS_FOREVER && !Linked(s.queue, id) {
        InsertLedger(s, StartEntry(s, remaining, id, ticks, hw));
      }
    case Abort(id) =>
      if Linked(s.queue, id) {
        RemoveLedger(s, Index(s.queue, id));
      }
  }

  lemma {:induction false} ApplyAllLedger(s: Sched, remaining: nat, ops: seq<Op>)
    requires Inv(s)
    ensures var s' := ApplyAll(s, remaining, ops); Inv(s') && Extends(s, s') && s'.fired == s.fired
    decreases |ops|
  {
    hide Inv, Apply, Settled;
    if ops != [] {
      ApplyLedger(s, remaining, ops[0]);
      ApplyAllLedger(Apply(s, remaining, ops[0]), remaining, ops[1..]);
    }
  }

  /** Taking the first entry off the queue and calling it fired. */
  lemma PopLedger(s: Sched)
    requires Inv(s) && s.queue != []
    ensures Inv(Pop(s))
  {
    hide DistinctIds;
    var e := s.queue[0];
    var s' := Pop(s);
    assert s.queue == [e] + s'.queue;
    forall f | f in s'.queue ensures Before(e, f) && f != e && f in s.queue {
      var i :| 0 <= i < |s'.queue| && s'.queue[i] == f;
      assert f == s.queue[i + 1];
    }
    assert forall x :: x in s'.fired <==> x in s.fired || x == e;
    assert e in s.queue;
    TailDistinct(s.queue);
  }

  lemma TailDistinct(q: seq<Entry>)
    requires q != [] && DistinctIds(q)
    ensures DistinctIds(q[1..])
  {
  }

  lemma FireLedger(s: Sched, horizon: nat, cb: Callback)
    requires Inv(s) && s.queue != [] && s.queue[0].expiry <= horizon
    ensures var s' := Fire(s, horizon, cb);
      Inv(s') && Extends(s, s') && s'.fired == s.fired + [s.queue[0]]
  {
    hide Ledger, FiredInOrder;
    PopLedger(s);
    ApplyAllLedger(Pop(s), horizon - s.now, cb(Pop(s).fired));
  }

  lemma {:induction false} RunLedger(s: Sched, horizon: nat, cb: Callback)
    requires Inv(s) && s.now <= horizon
    ensures var s' := Run(s, horizon, cb);
      Inv(s') && Settled(s') && Extends(s, s') && s'.now == horizon
    decreases horizon - s.now, Slot(s.queue, s.now)
  {
    if s.queue == [] || s.queue[0].expiry > horizon {
      RestLater(s, horizon);
    } else {
      FireKeeps(s, horizon, cb);
      FireLedger(s, horizon, cb);
      RunLedger(Fire(s, horizon, cb), horizon, cb);
    }
  }

  /** The announcement theorem, for any state an announcement can start from and any
      callbacks: a timeout that was ever started, before or meanwhile, has fired exactly
      when it was not aborted and its expiry lies within the announced ticks, and is
      pending exactly when it was not aborted and lies beyond; firing is in expiry order
      with ties first in first out, and goes on from what had fired before. */
  lemma AnnounceExact(s: Sched, horizon: nat, cb: Callback)
    requires Inv(s) && s.now <= horizon
    ensures var s' := Run(s, horizon, cb);
      && Extends(s, s') && s'.now == horizon && Sorted(s'.fired) && Sorted(s'.queue)
      && (forall e :: e in s'.fired <==> e in s'.pool && e !in s'.aborted && e.expiry <= horizon)
      && (forall e :: e in s'.queue <==> e in s'.pool && e !in s'.aborted && e.expiry > horizon)
  {
    RunLedger(s, horizon, cb);
  }

  /** Starting a timeout adds it, due as it should be, and touches no other. */
  ghost predicate StartsOnly(s: Sched, s': Sched, remaining: nat, id: Id, ticks: int, hw: nat) {
    exists e: Entry ::
      && e !in s.queue && e.id == id && DueAt(s.now, remaining, ticks, hw, e.expiry) && e.serial == s.serial
      && forall f :: f in s'.queue <==> f == e || f in s.queue
  }

  lemma StartExact(s: Sched, remaining: nat, id: Id, ticks: int, hw: nat)
    requires Inv(s) && !Linked(s.queue, id) && ticks != K_TICKS_FOREVER
    ensures var s' := Apply(s, remaining, Start(id, ticks, hw)); var e := StartEntry(s, remaining, id, ticks, hw);
      && DueAt(s.now, remaining, ticks, hw, e.expiry) && (forall f :: f in s'.queue <==> f == e || f in s.queue)
      && StartsOnly(s, s', remaining, id, ticks, hw) && s'.fired == s.fired && s'.now == s.now
  {
    var s', e := Apply(s, remaining, Start(id, ticks, hw)), StartEntry(s, remaining, id, ticks, hw);
    InsertHolds(s.queue, e);
    assert e !in s.queue;
  }

  /** Aborting a timeout takes it out, whenever it is there, and touches no other. */
  lemma AbortExact(s: Sched, remaining: nat, id: Id)
    requires Inv(s)
    ensures var s' := Apply(s, remaining, Abort(id));
      && (forall e :: e in s'.queue <==> e in s.queue && e.id != id) && s'.fired == s.fired && s'.now == s.now
  {
    hide Sorted, Ledger, FiredInOrder, DistinctIds, RemoveAt, Index;
    if Linked(s.queue, id) {
      RemoveOnly(s.queue, Index(s.queue, id));
    }
  }

  /** Nothing ever brings back an entry that was pending when its timeout was aborted. */
  lemma AbortIsFinal(s: Sched, remaining: nat, e: Entry, later: Sched)
    requires Inv(s) && e in s.queue && Inv(later) && Extends(Apply(s, remaining, Abort(e.id)), later)
    ensures e !in later.fired && e !in later.queue
  {
    var s' := Apply(s, remaining, Abort(e.id));
    ApplyLedger(s, remaining, Abort(e.id));
    AbortExact(s, remaining, e.id);
    assert e in s.pool && e in s'.pool && e !in s'.queue && e !in s'.fired;
    assert e in s'.aborted && e in later.aborted;
  }

  // ----- the whole life of the list -----

  /** What the kernel calls: a start or an abort from outside callbacks, or an announcement. */
  datatype Call = Outside(op: Op) | Ticks(ticks: nat, cb: Callback)

  function Fresh(): Sched {
    Sched(0, [], 0, {}, {}, [])
  }

  ghost function Do(s: Sched, call: Call): Sched {
    match call
    case Outside(op) => Apply(s, 0, op)
    case Ticks(ticks, cb) => if Ordered(s) then Run(s, s.now + ticks, cb) else s
  }

  lemma CallKeeps(s: Sched, call: Call)
    requires Inv(s) && Settled(s)
    ensures var s' := Do(s, call); Inv(s') && Settled(s') && Extends(s, s') && s.now <= s'.now
  {
    hide Ledger, FiredInOrder, Settled;
    match call
    case Outside(op) =>
      ApplyKeeps(s, 0, op);
      ApplyLedger(s, 0, op);
    case Ticks(ticks, cb) =>
      RunLedger(s, s.now + ticks, cb);
  }

  ghost function Life(s: Sched, calls: seq<Call>): Sched
    decreases |calls|
  {
    if calls == [] then s else Life(Do(s, calls[0]), calls[1..])
  }

  lemma {:induction false} LifeKeeps(s: Sched, calls: seq<Call>)
    requires Inv(s) && Settled(s)
    ensures var s' := Life(s, calls); Inv(s') && Settled(s') && Extends(s, s') && s.now <= s'.now
    decreases |calls|
  {
    hide Inv, Settled, Do;
    if calls != [] {
      CallKeeps(s, calls[0]);
      LifeKeeps(Do(s, calls[0]), calls[1..]);
    }
  }

  /** Over every sequence of starts, aborts and announcements with any callbacks: each
      timeout ever started is exactly one of pending, fired and aborted; one that was not
      aborted has fired exactly if its expiry has been reached; and all firings there ever
      were are in expiry order, ties first in first out. */
  lemma WholeLife(calls: seq<Call>)
    ensures var s := Life(Fresh(), calls);
      && Sorted(s.fired) && Sorted(s.queue)
      && (forall e :: e in s.pool ==>
            && (e in s.queue || e in s.fired || e in s.aborted)
            && !(e in s.queue && e in s.fired) && !(e in s.queue && e in s.aborted) && !(e in s.fired && e in s.aborted))
      && (forall e :: e in s.queue || e in s.fired || e in s.aborted ==> e in s.pool)
      && (forall e :: e in s.pool && e !in s.aborted ==> (e in s.fired <==> e.expiry <= s.now))
  {
    LifeKeeps(Fresh(), calls);
  }

  /** Over every life: a timeout that is pending when it is aborted does not fire afterwards,
      whatever is called and whatever callbacks do. */
  lemma AbortedNeverFires(before: seq<Call>, e: Entry, after: seq<Call>)
    ensures var s := Life(Fresh(), before);
      e in s.queue ==> var s' := Life(Do(s, Outside(Abort(e.id))), after); e !in s'.fired && e !in s'.queue
  {
    hide Inv, Settled, Life, Do, Apply;
    FreshInv();
    LifeKeeps(Fresh(), before);
    var s := Life(Fresh(), before);
    if e in s.queue {
      var s1 := Do(s, Outside(Abort(e.id)));
      OutsideIs(s, Abort(e.id));
      CallKeeps(s, Outside(Abort(e.id)));
      LifeKeeps(s1, after);
      AbortIsFinal(s, 0, e, Life(s1, after));
    }
  }

  lemma OutsideIs(s: Sched, op: Op)
    ensures Do(s, Outside(op)) == Apply(s, 0, op)
  {
  }

  lemma FreshInv()
    ensures Inv(Fresh()) && Settled(Fresh())
  {
  }

  /** Nor does one that a callback aborts during an announcement. */
  lemma AbortedInCallback(s: Sched, horizon: nat, cb: Callback, k: nat, e: Entry)
    requires Inv(s) && s.queue != [] && s.queue[0].expiry <= horizon
    ensures var ops := cb(Pop(s).fired);
      k < |ops| && ops[k] == Abort(e.id) && e in ApplyAll(Pop(s), horizon - s.now, ops[..k]).queue ==>
        FireEnds(s, horizon, cb) && e !in Run(Fire(s, horizon, cb), horizon, cb).fired
  {
    hide Inv, Ordered, Apply, Settled;
    var ops, rem := cb(Pop(s).fired), horizon - s.now;
    FireLedger(s, horizon, cb);
    OrderedFirst(s);
    OrderedFirst(Fire(s, horizon, cb));
    FireKeeps(s, horizon, cb);
    if k < |ops| && ops[k] == Abort(e.id) && e in ApplyAll(Pop(s), rem, ops[..k]).queue {
      PopLedger(s);
      ApplyAllLedger(Pop(s), rem, ops[..k]);
      var s1 := ApplyAll(Pop(s), rem, ops[..k]);
      var s2 := Apply(s1, rem, ops[k]);
      ApplyLedger(s1, rem, ops[k]);
      ApplyAllLedger(s2, rem, ops[k + 1..]);
      ApplySplit(Pop(s), rem, ops, k);
      RunLedger(Fire(s, horizon, cb), horizon, cb);
      AbortIsFinal(s1, rem, e, Run(Fire(s, horizon, cb), horizon, cb));
    }
  }

  ghost predicate FireEnds(s: Sched, horizon: nat, cb: Callback)
    requires s.queue != [] && s.now <= horizon
  {
    Ordered(Fire(s, horizon, cb)) && Fire(s, horizon, cb).now <= horizon
  }

  lemma {:induction false} ApplySplit(s: Sched, remaining: nat, ops: seq<Op>, k: nat)
    requires k < |ops|
    ensures ApplyAll(s, remaining, ops) == ApplyAll(Apply(ApplyAll(s, remaining, ops[..k]), remaining, ops[k]), remaining, ops[k + 1..])
    decreases |ops|
  {
    hide Apply;
    if k > 0 {
      assert ops[..k][0] == ops[0] && ops[..k][1..] == ops[1..][..k - 1] && ops[1..][k - 1] == ops[k] && ops[1..][k..] == ops[k + 1..];
      ApplySplit(Apply(s, remaining, ops[0]), remaining, ops[1..], k - 1);
    }
  }

  // ----- callbacks that start timeouts -----

  /** When the callback of the first entry starts a timeout, `ticks` after the tick it fires
      at and so due one tick later, that is due then. */
  ghost predicate OnTime(s: Sched, horizon: nat, id: Id, ticks: nat, hw: nat)
    requires s.queue != [] && s.now <= horizon
  {
    Entry(id, s.serial, s.queue[0].expiry + ticks + 1) in Fire(s, horizon, _ => [Start(id, ticks, hw)]).queue
  }

  lemma CallbackStarts(s: Sched, horizon: nat, id: Id, ticks: nat, hw: nat)
    requires Inv(s) && s.queue != [] && s.now <= horizon && !Linked(s.queue[1..], id)
    ensures OnTime(s, horizon, id, ticks, hw) <==> (s.now == horizon ==> hw == 0)
  {
    hide Inv, Ordered;
    var ops := [Start(id, ticks, hw)];
    assert ops[1..] == [];
    PopLedger(s);
    var s', e := Fire(s, horizon, _ => ops), StartEntry(Pop(s), horizon - s.now, id, ticks, hw);
    assert s' == ApplyAll(Apply(Pop(s), horizon - s.now, ops[0]), horizon - s.now, []);
    StartExact(Pop(s), horizon - s.now, id, ticks, hw);
    forall f | f in s.queue[1..] ensures f.serial < s.serial {
      SerialsOld(Pop(s), f);
    }
  }

  lemma SerialsOld(s: Sched, e: Entry)
    requires Inv(s) && e in s.queue
    ensures e.serial < s.serial
  {
  }

  /** It is so exactly if ticks remained to be announced before the entry fired. When the clock
      had reached the last announced tick already, as it has for all but the first of the
      entries due then, the hardware clock is added as it is outside announcements. */
  lemma OnTimeIff(s: Sched, horizon: nat, id: Id, ticks: nat)
    requires Inv(s) && s.queue != [] && s.now <= horizon && !Linked(s.queue[1..], id)
    ensures (forall hw: nat :: OnTime(s, horizon, id, ticks, hw)) <==> s.now < horizon
  {
    hide Inv, OnTime;
    forall hw: nat ensures OnTime(s, horizon, id, ticks, hw) <==> (s.now == horizon ==> hw == 0) {
      CallbackStarts(s, horizon, id, ticks, hw);
    }
    assert s.now == horizon ==> !OnTime(s, horizon, id, ticks, 1);
  }

  function SecondStarts(fired: seq<Entry>): seq<Op> {
    if |fired| == 2 then [Start(3, 5, 7)] else []
  }

  function TwoPending(): Sched {
    var a, b := Entry(1, 0, 1), Entry(2, 1, 1);
    Sched(0, [a, b], 2, {a, b}, {}, [])
  }

  lemma TwoStarted()
    ensures Do(Do(Fresh(), Outside(Start(1, 0, 0))), Outside(Start(2, 0, 0))) == TwoPending()
  {
    var a := Entry(1, 0, 1);
    var s1 := Do(Fresh(), Outside(Start(1, 0, 0)));
    assert s1 == Sched(0, [a], 1, {a}, {}, []);
    assert Slot([a], 1) == 1;
  }

  lemma RunFires(s: Sched, horizon: nat, cb: Callback)
    requires Ordered(s) && s.now <= horizon && s.queue != [] && s.queue[0].expiry <= horizon
    ensures var s' := Fire(s, horizon, cb); Ordered(s') && s'.now <= horizon && Run(s, horizon, cb) == Run(s', horizon, cb)
  {
    hide Ordered, Fire;
    FireKeeps(s, horizon, cb);
  }

  lemma FirstFires()
    ensures Ordered(TwoPending()) && Fire(TwoPending(), 1, SecondStarts) ==
      TwoPending().(now := 1, queue := [Entry(2, 1, 1)], fired := [Entry(1, 0, 1)])
  {
    var s := TwoPending();
    assert SecondStarts(Pop(s).fired) == [];
  }

  lemma SecondFires(s: Sched)
    requires s.now == 1 && s.serial == 2 && |s.fired| == 1 && s.queue == [Entry(2, 1, 1)]
    ensures var s' := Fire(s, 1, SecondStarts); s'.queue == [Entry(3, 2, 14)] && s'.now == 1
  {
    var ops := SecondStarts(Pop(s).fired);
    assert ops == [Start(3, 5, 7)] && ops[1..] == [];
    assert Pop(s).queue == [];
    assert ApplyAll(Pop(s), 0, ops) == ApplyAll(Apply(Pop(s), 0, ops[0]), 0, []);
  }

  lemma ThreeCalls(s: Sched, a: Call, b: Call, c: Call)
    ensures Life(s, [a, b, c]) == Do(Do(Do(s, a), b), c)
  {
    hide Do;
    assert [a, b, c][1..] == [b, c] && [b, c][1..] == [c];
    assert Life(Do(Do(s, a), b), [c]) == Life(Do(Do(Do(s, a), b), c), []);
  }

  /** Two timeouts due at tick 1, the second of which starts a third for 5 ticks later while
      the hardware clock is 7 ticks on: that one is due at tick 14, not 7. */
  lemma LastTieIsLate()
    ensures Life(Fresh(), [Outside(Start(1, 0, 0)), Outside(Start(2, 0, 0)), Ticks(1, SecondStarts)]).queue == [Entry(3, 2, 14)]
  {
    hide Ordered, Fire, Apply;
    var s := TwoPending();
    ThreeCalls(Fresh(), Outside(Start(1, 0, 0)), Outside(Start(2, 0, 0)), Ticks(1, SecondStarts));
    TwoStarted();
    FirstFires();
    RunFires(s, 1, SecondStarts);
    var s1 := Fire(s, 1, SecondStarts);
    RunFires(s1, 1, SecondStarts);
    SecondFires(s1);
  }

  // ----- the source's data structure -----

  class TimeoutList {
    var list: seq<Node>
    var currTick: nat
    var announceRemaining: nat
    var serial: nat
    ghost var queue: seq<Entry>
    ghost var pool: set<Entry>
    ghost var aborted: set<Entry>
    var fired: seq<Entry>

    ghost function Abs(): Sched
      reads this
    {
      Sched(currTick, queue, serial, pool, aborted, fired)
    }

    ghost predicate Valid()
      reads this
    {
      Represents(currTick, list, queue) && Inv(Abs())
    }

    constructor ()
      ensures Valid() && Abs() == Fresh() && Settled(Abs()) && announceRemaining == 0
    {
      list, currTick, announceRemaining := [], 0, 0;
      serial, queue, pool, aborted, fired := 0, [], {}, {}, [];
    }

    /** Position of a timeout in the list, or -1 when it is not linked. */
    method Find(id: Id) returns (k: int)
      requires Valid()
      ensures k < 0 ==> !Linked(queue, id)
      ensures k >= 0 ==> Linked(queue, id) && k == Index(queue, id) && k < |list|
    {
      hide Sorted, Index;
      k := 0;
      while k < |list|
        invariant 0 <= k <= |list|
        invariant forall i :: 0 <= i < k ==> queue[i].id != id
      {
        if list[k].id == id {
          IndexIs(queue, k);
          return;
        }
        k := k + 1;
      }
      k := -1;
    }

    method RemoveTimeout(k: nat)
      requires Represents(currTick, list, queue) && k < |list|
      modifies this`list, this`queue
      ensures Represents(currTick, list, queue) && queue == RemoveAt(old(queue), k)
    {
      hide Represents;
      HeadDue(currTick, list, queue);
      RemoveRepresents(currTick, list, queue, k);
      if k + 1 < |list| {
        list := list[..k] + [list[k + 1].(dticks := list[k + 1].dticks + list[k].dticks)] + list[k + 2..];
      } else {
        list := list[..k];
      }
      queue := RemoveAt(queue, k);
    }

    /** Walks past every timeout that expires within `ticks`; `d` is what is left. */
    method Walk(ticks: nat) returns (i: nat, d: nat)
      requires Represents(currTick, list, queue)
      ensures i == Slot(queue, currTick + ticks) && i <= |list| && (i < |list| ==> d < list[i].dticks)
      ensures d + (if i == 0 then currTick else queue[i - 1].expiry) == currTick + ticks
    {
      hide Slot;
      i, d := 0, ticks;
      while i < |list| && list[i].dticks <= d
        invariant 0 <= i <= |list|
        invariant d + (if i == 0 then currTick else queue[i - 1].expiry) == currTick + ticks
        invariant forall j :: 0 <= j < i ==> queue[j].expiry <= currTick + ticks
      {
        d := d - list[i].dticks;
        i := i + 1;
      }
      SlotIs(queue, currTick + ticks, i);
    }

    /** Puts a timeout due `ticks` from now into the list. */
    method InsertTimeout(id: Id, ticks: nat)
      requires Represents(currTick, list, queue)
      modifies this`list, this`queue
      ensures Represents(currTick, list, queue)
      ensures queue == Insert(old(queue), Entry(id, serial, currTick + ticks))
    {
      hide Represents, Slot;
      var i, d := Walk(ticks);
      ghost var e := Entry(id, serial, currTick + ticks);
      InsertRepresents(currTick, list, queue, i, Node(id, serial, d), e);
      if i < |list| {
        list := list[..i] + [Node(id, serial, d), list[i].(dticks := list[i].dticks - d)] + list[i + 1..];
      } else {
        list := list + [Node(id, serial, d)];
      }
      queue := Insert(queue, e);
    }

    method AddTimeout(id: Id, ticks: int, hw: nat)
      requires Valid() && !Linked(queue, id)
      modifies this`list, this`queue, this`serial, this`pool
      ensures Valid() && (old(Settled(Abs())) ==> Settled(Abs()))
      ensures Abs() == Apply(old(Abs()), announceRemaining, Start(id, ticks, hw))
      ensures ticks == K_TICKS_FOREVER ==> Abs() == old(Abs())
      ensures ticks != K_TICKS_FOREVER ==> StartsOnly(old(Abs()), Abs(), announceRemaining, id, ticks, hw)
    {
      hide Inv, Settled, Represents, Linked, Index, Slot, StartsOnly;
      if ticks == K_TICKS_FOREVER { return; }
      StartExact(Abs(), announceRemaining, id, ticks, hw);
      ApplyLedger(Abs(), announceRemaining, Start(id, ticks, hw));
      var d: nat;
      if TickAbs(ticks) >= 0 {
        var left := TickAbs(ticks) - currTick;
        d := if left > 1 then left else 1;
      } else {
        d := ticks + 1 + (if announceRemaining == 0 then hw else 0);
      }
      InsertTimeout(id, d);
      pool := pool + {Entry(id, serial, currTick + d)};
      serial := serial + 1;
    }

    method AbortTimeout(id: Id) returns (ok: bool)
      requires Valid()
      modifies this`list, this`queue, this`aborted
      ensures Valid() && (old(Settled(Abs())) ==> Settled(Abs())) && ok == Linked(old(queue), id)
      ensures Abs() == Apply(old(Abs()), announceRemaining, Abort(id))
      ensures forall e :: e in queue <==> e in old(queue) && e.id != id
    {
      hide Inv, Settled, Represents, Linked, Index, Slot;
      AbortExact(Abs(), announceRemaining, id);
      ApplyLedger(Abs(), announceRemaining, Abort(id));
      var k := Find(id);
      ok := k >= 0;
      if ok {
        aborted := aborted + {queue[k]};
        RemoveTimeout(k);
      }
    }

    /** The tick at which a timeout expires, found by summing the list up to it; the
        current tick when it is not pending. */
    method Expires(id: Id) returns (tick: nat)
      requires Valid()
      ensures tick == if Linked(queue, id) then queue[Index(queue, id)].expiry else currTick
    {
      hide Inv, Linked, Index;
      tick := currTick;
      var k := Find(id);
      var i := 0;
      while i <= k
        invariant 0 <= i <= |list| && (k >= 0 ==> i <= k + 1) && (k < 0 ==> i == 0)
        invariant tick == if i == 0 then currTick else queue[i - 1].expiry
      {
        tick := tick + list[i].dticks;
        i := i + 1;
      }
    }

    /** A callback, run with the lock released. */
    method Perform(ops: seq<Op>)
      requires Valid()
      modifies this`list, this`queue, this`serial, this`pool, this`aborted
      ensures Valid() && Abs() == ApplyAll(old(Abs()), announceRemaining, ops)
    {
      hide Inv, Represents, Linked, Index, Slot;
      var i := 0;
      while i < |ops|
        invariant 0 <= i <= |ops| && Valid()
        invariant ApplyAll(old(Abs()), announceRemaining, ops) == ApplyAll(Abs(), announceRemaining, ops[i..])
      {
        assert ops[i..][0] == ops[i] && ops[i..][1..] == ops[i + 1..];
        match ops[i] {
          case Start(id, ticks, hw) =>
            var k := Find(id);
            if k < 0 { AddTimeout(id, ticks, hw); }
          case Abort(id) =>
            var _ := AbortTimeout(id);
        }
        i := i + 1;
      }
    }

    /** One round of the announcement loop. */
    method FireFirst(ghost horizon: nat, cb: Callback)
      requires Valid() && list != [] && list[0].dticks <= announceRemaining
      requires currTick + announceRemaining == horizon
      modifies this
      ensures Valid() && currTick + announceRemaining == horizon
      ensures old(queue) != [] && old(queue)[0].expiry <= horizon
      ensures Abs() == Fire(old(Abs()), horizon, cb)
    {
      hide Inv, Represents, Slot, ApplyAll;
      HeadDue(currTick, list, queue);
      ghost var s := Abs();
      OrderedFirst(s);
      PopLedger(s);
      var dt := list[0].dticks;
      PopFirst();
      Perform(cb(fired));
      announceRemaining := announceRemaining - dt;
    }

    /** Takes the first timeout off the list, `currTick` having moved to its expiry. */
    method PopFirst()
      requires Valid() && list != []
      modifies this`list, this`queue, this`currTick, this`fired
      ensures Represents(currTick, list, queue) && old(queue) != [] && Abs() == Pop(old(Abs()))
    {
      hide Inv;
      var t := list[0];
      currTick := currTick + t.dticks;
      list := list[0 := t.(dticks := 0)];
      RemoveTimeout(0);
      fired := fired + [Entry(t.id, t.serial, currTick)];
    }

    /** `sys_clock_announce`. What fires is noted in `fired`, each with the value of
        `currTick` its callback saw. */
    method Announce(ticks: nat, cb: Callback)
      requires Valid() && announceRemaining == 0
      modifies this
      ensures Valid() && announceRemaining == 0 && Settled(Abs())
      ensures Abs() == Run(old(Abs()), old(currTick) + ticks, cb)
    {
      hide Inv, Ordered, Represents, Slot, Fire, Settled;
      ghost var horizon := currTick + ticks;
      OrderedFirst(Abs());
      RunLedger(Abs(), horizon, cb);
      announceRemaining := ticks;
      while list != [] && list[0].dticks <= announceRemaining
        invariant Valid() && Ordered(Abs()) && currTick + announceRemaining == horizon
        invariant Run(old(Abs()), horizon, cb) == Run(Abs(), horizon, cb)
        decreases announceRemaining, Slot(queue, currTick)
      {
        HeadDue(currTick, list, queue);
        FireKeeps(Abs(), horizon, cb);
        FireFirst(horizon, cb);
      }
      HeadDue(currTick, list, queue);
      LeaveRepresents(currTick, list, queue, announceRemaining);
      if list != [] {
        list := list[0 := list[0].(dticks := list[0].dticks - announceRemaining)];
      }
      currTick := currTick + announceRemaining;
      announceRemaining := 0;
    }
  }

  lemma OrderedFirst(s: Sched)
    requires Inv(s)
    ensures Ordered(s) && (s.queue != [] ==> s.now <= s.queue[0].expiry)
  {
  }
}
