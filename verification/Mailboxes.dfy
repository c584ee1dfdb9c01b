/**
 Mailboxes (kernel/mailbox.c): senders and receivers meet when each is what the other asks
 for; a sender is released when its receiver has disposed of the message. Asynchronous
 sends go through a pool of descriptors that all mailboxes share.
 */
module Mailboxes {
  import opened Arithmetic
  import opened Memory
  import opened Options
  import opened Sequences
  import opened WaitQueues

  type Mbox = nat
  type Desc = nat

  /** `K_ANY`, or a thread. */
  datatype Who = Any | Id(thread: Thread)

  /** The thread a send keeps waiting: the sending thread, or the dummy of a pool descriptor. */
  datatype Sender = Real(thread: Thread) | Dummy(index: nat)

  /** `struct k_mbox_msg`. `serial` numbers the sends. */
  datatype Msg = Msg(
    serial: nat, size: nat, info: nat, data: Option<Bytes>, source: Who, target: Who,
    syncing: Option<Sender>, sem: Option<nat>)

  /** Where a sender is. A descriptor is `Held` from its allocation to its send. */
  datatype Place = Idle | Held | Queued(box: Mbox, entry: Waiter<Sender>) | Matched(desc: Desc)

  /** Where a receive descriptor is. */
  datatype Spot = Loose | Waiting(box: Mbox, entry: Waiter<Desc>)

  datatype Box = Box(tx: seq<Waiter<Sender>>, rx: seq<Waiter<Desc>>)

  datatype Code = Ok | TimedOut

  /**
   `txs` and `rxs` are the descriptors senders and receivers point at. `places`, `spots`,
   `next` and `matched` (which receive descriptor each send was matched to) are bookkeeping.
   */
  datatype State = State(
    pool: nat, free: seq<nat>, boxes: map<Mbox, Box>, txs: map<Sender, Msg>, rxs: map<Desc, Msg>,
    woken: map<Thread, Code>, given: seq<nat>,
    places: map<Sender, Place>, spots: map<Desc, Spot>, next: nat, matched: map<nat, Desc>)

  function PlaceOf(s: State, x: Sender): Place {
    if x in s.places then s.places[x] else Idle
  }

  function SpotOf(s: State, d: Desc): Spot {
    if d in s.spots then s.spots[d] else Loose
  }

  // ----- matching -----

  predicate Compatible(tx: Msg, rx: Msg) {
    (tx.target == Any || tx.target == rx.target) && (rx.source == Any || rx.source == tx.source)
  }

  /** The message is for this receiver or for anyone, and from whom the receiver asks for. */
  ghost predicate Meant(sent: Msg, asked: Msg) {
    sent.target in {Any, asked.target} && asked.source in {Any, sent.source}
  }

  lemma CompatibleIs(tx: Msg, rx: Msg)
    ensures Compatible(tx, rx) <==> Meant(tx, rx)
  {
  }

  /** What a match makes of the sender's descriptor, and of the receiver's. */
  function MatchTx(tx: Msg, rx: Msg): Msg {
    tx.(target := rx.target, info := rx.info)
  }

  function MatchRx(tx: Msg, rx: Msg): Msg {
    rx.(source := tx.source, info := tx.info, size := Min(rx.size, tx.size), data := tx.data, syncing := tx.syncing)
  }

  predicate RxFits(s: State, m: Msg, w: Waiter<Desc>) {
    w.info in s.rxs && Compatible(m, s.rxs[w.info])
  }

  predicate TxFits(s: State, m: Msg, w: Waiter<Sender>) {
    w.info in s.txs && Compatible(s.txs[w.info], m)
  }

  /** The first waiting receiver that can take the message; the length of the queue if none. */
  function FirstRx(s: State, q: seq<Waiter<Desc>>, m: Msg): (k: nat)
    ensures k <= |q| && (k < |q| ==> RxFits(s, m, q[k]))
    ensures forall i :: 0 <= i < k ==> !RxFits(s, m, q[i])
  {
    if q == [] || RxFits(s, m, q[0]) then 0 else 1 + FirstRx(s, q[1..], m)
  }

  function FirstTx(s: State, q: seq<Waiter<Sender>>, m: Msg): (k: nat)
    ensures k <= |q| && (k < |q| ==> TxFits(s, m, q[k]))
    ensures forall i :: 0 <= i < k ==> !TxFits(s, m, q[i])
  {
    if q == [] || TxFits(s, m, q[0]) then 0 else 1 + FirstTx(s, q[1..], m)
  }

  // ----- steps -----

  /** `mbox_async_alloc`. */
  function AllocStep(s: State): State
    requires s.free != []
  {
    var i := s.free[|s.free| - 1];
    s.(free := s.free[..|s.free| - 1], places := s.places[Dummy(i) := Held])
  }

  function Outgoing(s: State, x: Sender, t: Thread, m: Msg): Msg {
    m.(serial := s.next, source := Id(t), syncing := Some(x))
  }

  ghost predicate CanPut(s: State, b: Mbox, x: Sender, t: Thread, wait: bool) {
    && b in s.boxes
    && (x.Real? ==> x.thread == t && PlaceOf(s, x) == Idle)
    && (x.Dummy? ==> wait && PlaceOf(s, x) == Held)
  }

  /** The `k`-th waiting receiver takes the message. */
  function HandStep(s: State, b: Mbox, x: Sender, m: Msg, k: nat): State
    requires b in s.boxes && k < |s.boxes[b].rx| && s.boxes[b].rx[k].info in s.rxs
  {
    var q := s.boxes[b].rx;
    var d := q[k].info;
    s.(boxes := s.boxes[b := s.boxes[b].(rx := RemoveAt(q, k))],
       txs := s.txs[x := MatchTx(m, s.rxs[d])], rxs := s.rxs[d := MatchRx(m, s.rxs[d])],
       woken := s.woken[q[k].thread := Ok],
       places := s.places[x := Matched(d)], spots := s.spots[d := Loose],
       next := s.next + 1, matched := s.matched[s.next := d])
  }

  function PutStep(s: State, b: Mbox, x: Sender, t: Thread, prio: int, m: Msg, wait: bool): State
    requires b in s.boxes
  {
    var m0 := Outgoing(s, x, t, m);
    var k := FirstRx(s, s.boxes[b].rx, m0);
    if k < |s.boxes[b].rx| then HandStep(s, b, x, m0, k)
    else if !wait then s.(txs := s.txs[x := m0], next := s.next + 1)
    else
      var w := Waiter(t, prio, x);
      s.(boxes := s.boxes[b := s.boxes[b].(tx := Pend(s.boxes[b].tx, w))], txs := s.txs[x := m0],
         places := s.places[x := Queued(b, w)], next := s.next + 1)
  }

  function Incoming(t: Thread, m: Msg): Msg {
    m.(target := Id(t), syncing := None)
  }

  /** A receive descriptor may be used again once its message has been disposed of. */
  ghost predicate CanGet(s: State, b: Mbox, d: Desc) {
    b in s.boxes && SpotOf(s, d) == Loose && (d in s.rxs ==> s.rxs[d].syncing == None)
  }

  /** The message of the `k`-th waiting sender is taken. */
  function TakeStep(s: State, b: Mbox, d: Desc, m: Msg, k: nat): State
    requires b in s.boxes && k < |s.boxes[b].tx| && s.boxes[b].tx[k].info in s.txs
  {
    var q := s.boxes[b].tx;
    var x := q[k].info;
    s.(boxes := s.boxes[b := s.boxes[b].(tx := RemoveAt(q, k))],
       txs := s.txs[x := MatchTx(s.txs[x], m)], rxs := s.rxs[d := MatchRx(s.txs[x], m)],
       places := s.places[x := Matched(d)], matched := s.matched[s.txs[x].serial := d])
  }

  function GetStep(s: State, b: Mbox, d: Desc, t: Thread, prio: int, m: Msg, wait: bool): State
    requires b in s.boxes
  {
    var m0 := Incoming(t, m);
    var k := FirstTx(s, s.boxes[b].tx, m0);
    if k < |s.boxes[b].tx| then TakeStep(s, b, d, m0, k)
    else if !wait then s.(rxs := s.rxs[d := m0])
    else
      var w := Waiter(t, prio, d);
      s.(boxes := s.boxes[b := s.boxes[b].(rx := Pend(s.boxes[b].rx, w))], rxs := s.rxs[d := m0],
         spots := s.spots[d := Waiting(b, w)])
  }

  /** A message is disposed of after it has been received. */
  ghost predicate CanDispose(s: State, d: Desc) {
    d in s.rxs && SpotOf(s, d) == Loose
  }

  /** Data that nobody wants counts as size 0. */
  function DiscardStep(s: State, d: Desc): State
    requires d in s.rxs
  {
    s.(rxs := s.rxs[d := s.rxs[d].(size := 0)])
  }

  /** `mbox_message_dispose`. */
  function DisposeStep(s: State, d: Desc): State
    requires d in s.rxs
  {
    var r := s.rxs[d];
    if r.syncing == None || r.syncing.value !in s.txs then s
    else
      var x := r.syncing.value;
      var s1 := s.(rxs := s.rxs[d := r.(syncing := None)], txs := s.txs[x := s.txs[x].(size := r.size)],
                   places := s.places[x := Idle]);
      match x
      case Real(t) => s1.(woken := s.woken[t := Ok])
      case Dummy(i) =>
        s1.(free := s.free + [i], given := s.given + if s.txs[x].sem.Some? then [s.txs[x].sem.value] else [])
  }

  /** The wait of a synchronous sender runs out; dummies wait for ever. */
  function TxTimeoutStep(s: State, b: Mbox, k: nat): State
    requires b in s.boxes && k < |s.boxes[b].tx|
  {
    var q := s.boxes[b].tx;
    s.(boxes := s.boxes[b := s.boxes[b].(tx := RemoveAt(q, k))], places := s.places[q[k].info := Idle],
       woken := s.woken[q[k].thread := TimedOut])
  }

  function RxTimeoutStep(s: State, b: Mbox, k: nat): State
    requires b in s.boxes && k < |s.boxes[b].rx|
  {
    var q := s.boxes[b].rx;
    s.(boxes := s.boxes[b := s.boxes[b].(rx := RemoveAt(q, k))], spots := s.spots[q[k].info := Loose],
       woken := s.woken[q[k].thread := TimedOut])
  }

  // ----- what every run keeps -----

  ghost predicate BoxOk(s: State, b: Mbox)
    requires b in s.boxes
  {
    && ListOk(s.boxes[b].tx) && ListOk(s.boxes[b].rx)
    && (forall w :: w in s.boxes[b].tx ==> PlaceOf(s, w.info) == Queued(b, w))
    && (forall w :: w in s.boxes[b].rx ==> SpotOf(s, w.info) == Waiting(b, w))
  }

  /** No sender and receiver that would match wait at the same mailbox. */
  ghost predicate NoMatch(s: State, b: Mbox)
    requires b in s.boxes
  {
    forall v, w :: v in s.boxes[b].tx && w in s.boxes[b].rx ==>
      v.info in s.txs && w.info in s.rxs && !Compatible(s.txs[v.info], s.rxs[w.info])
  }

  ghost predicate SenderOk(s: State, x: Sender) {
    match PlaceOf(s, x)
    case Idle => x.Dummy? && x.index < s.pool ==> x.index in s.free
    case Held => x.Dummy? && x.index < s.pool && x.index !in s.free
    case Queued(b, w) =>
      && b in s.boxes && w in s.boxes[b].tx && w.info == x
      && x in s.txs && s.txs[x].serial < s.next && s.txs[x].serial !in s.matched && s.txs[x].syncing == Some(x)
      && (x.Dummy? ==> x.index < s.pool && x.index !in s.free)
    case Matched(d) =>
      && x in s.txs && d in s.rxs && s.rxs[d].syncing == Some(x)
      && (x.Dummy? ==> x.index < s.pool && x.index !in s.free)
  }

  ghost predicate DescOk(s: State, d: Desc) {
    && (d in s.rxs && s.rxs[d].syncing.Some? ==> PlaceOf(s, s.rxs[d].syncing.value) == Matched(d))
    && (SpotOf(s, d).Waiting? ==>
          var (b, w) := (SpotOf(s, d).box, SpotOf(s, d).entry);
          b in s.boxes && w in s.boxes[b].rx && w.info == d && d in s.rxs && s.rxs[d].syncing == None)
  }

  ghost predicate FreeOk(s: State) {
    && (forall i, j :: 0 <= i < j < |s.free| ==> s.free[i] != s.free[j])
    && (forall i :: i in s.free ==> i < s.pool && PlaceOf(s, Dummy(i)) == Idle)
  }

  /** Two sends under way are different sends. */
  ghost predicate Distinct(s: State) {
    forall x, y :: PlaceOf(s, x).Queued? && PlaceOf(s, y).Queued? && x in s.txs && y in s.txs && x != y ==>
      s.txs[x].serial != s.txs[y].serial
  }

  ghost predicate Inv(s: State) {
    && (forall b :: b in s.boxes ==> BoxOk(s, b) && NoMatch(s, b))
    && (forall x :: SenderOk(s, x))
    && (forall d :: DescOk(s, d))
    && FreeOk(s) && Distinct(s)
    && (forall n :: n in s.matched ==> n < s.next)
  }

  function Initial(pool: nat, ids: set<Mbox>): State {
    State(pool, seq(pool, i => i), map b | b in ids :: Box([], []), map[], map[], map[], [], map[], map[], 0, map[])
  }

  lemma InitialOk(pool: nat, ids: set<Mbox>)
    ensures Inv(Initial(pool, ids))
  {
    var s := Initial(pool, ids);
    forall x: Sender ensures SenderOk(s, x) {
      if x.Dummy? && x.index < pool {
        assert s.free[x.index] == x.index;
      }
    }
  }

  // Every step touches at most one sender, one receive descriptor and one mailbox.

  ghost predicate SameSender(s: State, s': State, y: Sender) {
    && PlaceOf(s', y) == PlaceOf(s, y) && (y in s'.txs <==> y in s.txs) && (y in s.txs ==> s'.txs[y] == s.txs[y])
    && (y.Dummy? ==> (y.index in s'.free <==> y.index in s.free))
  }

  ghost predicate SameDesc(s: State, s': State, e: Desc) {
    SpotOf(s', e) == SpotOf(s, e) && (e in s'.rxs <==> e in s.rxs) && (e in s.rxs ==> s'.rxs[e] == s.rxs[e])
  }

  /** Entries of the touched mailbox that are not the touched sender's or descriptor's. */
  ghost predicate SameRest(s: State, s': State, x: Option<Sender>, d: Option<Desc>, b: Mbox)
    requires b in s.boxes && b in s'.boxes
  {
    && (forall w :: w in s.boxes[b].tx && Some(w.info) != x ==> w in s'.boxes[b].tx)
    && (forall w :: w in s'.boxes[b].tx && Some(w.info) != x ==> w in s.boxes[b].tx)
    && (forall w :: w in s.boxes[b].rx && Some(w.info) != d ==> w in s'.boxes[b].rx)
    && (forall w :: w in s'.boxes[b].rx && Some(w.info) != d ==> w in s.boxes[b].rx)
  }

  ghost predicate Frame(s: State, s': State, x: Option<Sender>, d: Option<Desc>, b: Option<Mbox>) {
    && s'.pool == s.pool && s'.boxes.Keys == s.boxes.Keys
    && (b.Some? ==> b.value in s.boxes && SameRest(s, s', x, d, b.value))
    && (forall c :: c in s.boxes && Some(c) != b ==> s'.boxes[c] == s.boxes[c])
    && (forall y :: Some(y) != x ==> SameSender(s, s', y))
    && (forall e: Desc :: Some(e) != d ==> SameDesc(s, s', e))
    && s.next <= s'.next && (forall n :: n in s.matched ==> n in s'.matched)
    && (forall n :: n in s'.matched && n !in s.matched ==> n == s.next || TouchedSerial(s, x, n))
  }

  ghost predicate TouchedSerial(s: State, x: Option<Sender>, n: nat) {
    x.Some? && PlaceOf(s, x.value).Queued? && x.value in s.txs && n == s.txs[x.value].serial
  }

  /** What is touched belongs together. */
  ghost predicate Touches(s: State, s': State, x: Option<Sender>, d: Option<Desc>, b: Option<Mbox>) {
    && (d.Some? && d.value in s.rxs && s.rxs[d.value].syncing.Some? ==> s.rxs[d.value].syncing == x)
    && (x.Some? && PlaceOf(s, x.value).Matched? ==> Some(PlaceOf(s, x.value).desc) == d)
    && (x.Some? && PlaceOf(s, x.value).Queued? ==> Some(PlaceOf(s, x.value).box) == b)
    && (d.Some? && SpotOf(s, d.value).Waiting? ==> Some(SpotOf(s, d.value).box) == b)
    && (x.Some? && PlaceOf(s', x.value).Queued? ==> x.value in s'.txs && s'.txs[x.value].serial == s.next)
  }

  lemma FrameSender(s: State, s': State, x: Option<Sender>, d: Option<Desc>, b: Option<Mbox>, y: Sender)
    requires SenderOk(s, y) && Distinct(s) && (forall n :: n in s.matched ==> n < s.next)
    requires Frame(s, s', x, d, b) && Touches(s, s', x, d, b) && Some(y) != x
    ensures SenderOk(s', y)
  {
    assert SameSender(s, s', y);
    if PlaceOf(s, y).Queued? {
      assert s.txs[y].serial !in s'.matched;
    } else if PlaceOf(s, y).Matched? {
      assert SameDesc(s, s', PlaceOf(s, y).desc);
    }
  }

  lemma FrameDesc(s: State, s': State, x: Option<Sender>, d: Option<Desc>, b: Option<Mbox>, e: Desc)
    requires DescOk(s, e) && Frame(s, s', x, d, b) && Touches(s, s', x, d, b) && Some(e) != d
    ensures DescOk(s', e)
  {
    assert SameDesc(s, s', e);
    if e in s.rxs && s.rxs[e].syncing.Some? {
      assert SameSender(s, s', s.rxs[e].syncing.value);
    }
  }

  lemma FrameBox(s: State, s': State, x: Option<Sender>, d: Option<Desc>, b: Option<Mbox>, c: Mbox)
    requires c in s.boxes && BoxOk(s, c) && NoMatch(s, c) && Frame(s, s', x, d, b) && Touches(s, s', x, d, b) && Some(c) != b
    ensures BoxOk(s', c) && NoMatch(s', c)
  {
    hide ListOk, Compatible;
    forall w | w in s'.boxes[c].tx ensures SameSender(s, s', w.info) && PlaceOf(s, w.info) == Queued(c, w) {
    }
    forall w | w in s'.boxes[c].rx ensures SameDesc(s, s', w.info) && SpotOf(s, w.info) == Waiting(c, w) {
    }
  }

  lemma FrameDistinct(s: State, s': State, x: Option<Sender>, d: Option<Desc>, b: Option<Mbox>)
    requires (forall y :: SenderOk(s, y)) && Distinct(s) && Frame(s, s', x, d, b) && Touches(s, s', x, d, b)
    ensures Distinct(s')
  {
    forall y, z | PlaceOf(s', y).Queued? && PlaceOf(s', z).Queued? && y in s'.txs && z in s'.txs && y != z
      ensures s'.txs[y].serial != s'.txs[z].serial
    {
      assert Some(y) != x ==> SameSender(s, s', y) && SenderOk(s, y);
      assert Some(z) != x ==> SameSender(s, s', z) && SenderOk(s, z);
    }
  }

  /** A step keeps the invariant if it does so for what it touches. */
  lemma FrameKeeps(s: State, s': State, x: Option<Sender>, d: Option<Desc>, b: Option<Mbox>)
    requires Inv(s) && Frame(s, s', x, d, b) && Touches(s, s', x, d, b)
    requires x.Some? ==> SenderOk(s', x.value)
    requires d.Some? ==> DescOk(s', d.value)
    requires b.Some? ==> b.value in s'.boxes && BoxOk(s', b.value) && NoMatch(s', b.value)
    requires FreeOk(s') && forall n :: n in s'.matched ==> n < s'.next
    ensures Inv(s')
  {
    hide SenderOk, DescOk, BoxOk, NoMatch, FreeOk, Distinct, Touches, SameSender, SameDesc, SameRest, TouchedSerial;
    forall y ensures SenderOk(s', y) {
      if Some(y) != x {
        FrameSender(s, s', x, d, b, y);
      }
    }
    forall e: Desc ensures DescOk(s', e) {
      if Some(e) != d {
        FrameDesc(s, s', x, d, b, e);
      }
    }
    forall c | c in s'.boxes ensures BoxOk(s', c) && NoMatch(s', c) {
      if Some(c) != b {
        FrameBox(s, s', x, d, b, c);
      }
    }
    FrameDistinct(s, s', x, d, b);
  }

  /** The invariant, where a step touches. */
  lemma Here(s: State, x: Option<Sender>, d: Option<Desc>, b: Option<Mbox>)
    requires Inv(s) && (b.Some? ==> b.value in s.boxes)
    ensures x.Some? ==> SenderOk(s, x.value)
    ensures d.Some? ==> DescOk(s, d.value)
    ensures b.Some? ==> BoxOk(s, b.value) && NoMatch(s, b.value)
    ensures FreeOk(s) && forall n :: n in s.matched ==> n < s.next
  {
  }

  lemma FreePop(s: State)
    requires FreeOk(s) && s.free != []
    ensures var s' := AllocStep(s); var i := s.free[|s.free| - 1];
      && FreeOk(s') && i < s.pool && i !in s'.free && PlaceOf(s, Dummy(i)) == Idle
      && forall j :: j != i ==> (j in s'.free <==> j in s.free)
  {
    var s' := AllocStep(s);
    var i := s.free[|s.free| - 1];
    assert s.free == s'.free + [i];
    forall j | j in s'.free ensures j != i && j in s.free && PlaceOf(s', Dummy(j)) == PlaceOf(s, Dummy(j)) {
      var k :| 0 <= k < |s'.free| && s'.free[k] == j;
      assert s.free[k] == j;
    }
  }

  lemma AllocKeeps(s: State)
    requires Inv(s) && s.free != []
    ensures Inv(AllocStep(s))
  {
    hide Inv, FreeOk;
    var s' := AllocStep(s);
    var i := s.free[|s.free| - 1];
    Here(s, Some(Dummy(i)), None, None);
    FreePop(s);
    FrameKeeps(s, s', Some(Dummy(i)), None, None);
  }

  ghost predicate PutMatches(s: State, b: Mbox, x: Sender, t: Thread, m: Msg)
    requires b in s.boxes
  {
    FirstRx(s, s.boxes[b].rx, Outgoing(s, x, t, m)) < |s.boxes[b].rx|
  }

  /** Those who stay behind still do not match. */
  lemma StillNoMatch(s: State, s': State, b: Mbox)
    requires b in s.boxes && b in s'.boxes && NoMatch(s, b)
    requires forall w :: w in s'.boxes[b].tx ==> w in s.boxes[b].tx && SameSender(s, s', w.info)
    requires forall w :: w in s'.boxes[b].rx ==> w in s.boxes[b].rx && SameDesc(s, s', w.info)
    ensures NoMatch(s', b)
  {
    hide Compatible;
  }

  /** The free stack is as good as before if the touched sender is not on it. */
  lemma StillFree(s: State, s': State, x: Sender)
    requires FreeOk(s) && s'.pool == s.pool && s'.free == s.free
    requires x.Dummy? ==> x.index !in s.free
    requires forall y :: y != x ==> PlaceOf(s', y) == PlaceOf(s, y)
    ensures FreeOk(s')
  {
  }

  lemma PutMatchKeeps(s: State, b: Mbox, x: Sender, t: Thread, prio: int, m: Msg, wait: bool)
    requires Inv(s) && CanPut(s, b, x, t, wait) && PutMatches(s, b, x, t, m)
    ensures Inv(PutStep(s, b, x, t, prio, m, wait))
  {
    hide Inv, ListOk, RemoveAt, FirstRx, NoMatch, FreeOk, Distinct;
    var s' := PutStep(s, b, x, t, prio, m, wait);
    var q := s.boxes[b].rx;
    var k := FirstRx(s, q, Outgoing(s, x, t, m));
    var d := q[k].info;
    assert q[k] in q;
    Here(s, Some(x), Some(d), Some(b));
    UnpendList(q, k);
    StillNoMatch(s, s', b);
    StillFree(s, s', x);
    FrameKeeps(s, s', Some(x), Some(d), Some(b));
  }

  lemma NoReceiver(s: State, b: Mbox, m: Msg)
    requires Inv(s) && b in s.boxes && FirstRx(s, s.boxes[b].rx, m) == |s.boxes[b].rx|
    ensures forall w :: w in s.boxes[b].rx ==> w.info in s.rxs && !Compatible(m, s.rxs[w.info])
  {
    hide Inv, ListOk, FirstRx;
    Here(s, None, None, Some(b));
    forall w | w in s.boxes[b].rx ensures w.info in s.rxs && !Compatible(m, s.rxs[w.info]) {
      Here(s, None, Some(w.info), None);
      assert !RxFits(s, m, w);
    }
  }

  lemma PutQueueBox(s: State, b: Mbox, x: Sender, t: Thread, prio: int, m: Msg)
    requires Inv(s) && CanPut(s, b, x, t, true) && !PutMatches(s, b, x, t, m)
    ensures NoMatch(PutStep(s, b, x, t, prio, m, true), b)
  {
    hide Inv, ListOk, Pend, Compatible, FirstRx;
    NoReceiver(s, b, Outgoing(s, x, t, m));
    Here(s, Some(x), None, Some(b));
    PendList(s.boxes[b].tx, Waiter(t, prio, x));
  }

  lemma PutQueueKeeps(s: State, b: Mbox, x: Sender, t: Thread, prio: int, m: Msg)
    requires Inv(s) && CanPut(s, b, x, t, true) && !PutMatches(s, b, x, t, m)
    ensures Inv(PutStep(s, b, x, t, prio, m, true))
  {
    hide Inv, ListOk, Pend, NoMatch, FirstRx, FreeOk, Distinct;
    var s' := PutStep(s, b, x, t, prio, m, true);
    PutQueueBox(s, b, x, t, prio, m);
    Here(s, Some(x), None, Some(b));
    PendList(s.boxes[b].tx, Waiter(t, prio, x));
    StillFree(s, s', x);
    FrameKeeps(s, s', Some(x), None, Some(b));
  }

  lemma PutRefuseKeeps(s: State, b: Mbox, x: Sender, t: Thread, prio: int, m: Msg)
    requires Inv(s) && CanPut(s, b, x, t, false) && !PutMatches(s, b, x, t, m)
    ensures Inv(PutStep(s, b, x, t, prio, m, false))
  {
    hide Inv, ListOk, FirstRx;
    Here(s, Some(x), None, None);
    FrameKeeps(s, PutStep(s, b, x, t, prio, m, false), Some(x), None, None);
  }

  ghost predicate GetMatches(s: State, b: Mbox, t: Thread, m: Msg)
    requires b in s.boxes
  {
    FirstTx(s, s.boxes[b].tx, Incoming(t, m)) < |s.boxes[b].tx|
  }

  lemma GetMatchKeeps(s: State, b: Mbox, d: Desc, t: Thread, prio: int, m: Msg, wait: bool)
    requires Inv(s) && CanGet(s, b, d) && GetMatches(s, b, t, m)
    ensures Inv(GetStep(s, b, d, t, prio, m, wait))
  {
    hide Inv, ListOk, RemoveAt, FirstTx, NoMatch, FreeOk, Distinct;
    var s' := GetStep(s, b, d, t, prio, m, wait);
    var q := s.boxes[b].tx;
    var k := FirstTx(s, q, Incoming(t, m));
    var x := q[k].info;
    assert q[k] in q;
    Here(s, Some(x), Some(d), Some(b));
    UnpendList(q, k);
    StillNoMatch(s, s', b);
    StillFree(s, s', x);
    FrameKeeps(s, s', Some(x), Some(d), Some(b));
  }

  lemma NoSender(s: State, b: Mbox, m: Msg)
    requires Inv(s) && b in s.boxes && FirstTx(s, s.boxes[b].tx, m) == |s.boxes[b].tx|
    ensures forall w :: w in s.boxes[b].tx ==> w.info in s.txs && !Compatible(s.txs[w.info], m)
  {
    hide Inv, ListOk, FirstTx;
    Here(s, None, None, Some(b));
    forall w | w in s.boxes[b].tx ensures w.info in s.txs && !Compatible(s.txs[w.info], m) {
      Here(s, Some(w.info), None, None);
      assert !TxFits(s, m, w);
    }
  }

  lemma GetQueueBox(s: State, b: Mbox, d: Desc, t: Thread, prio: int, m: Msg)
    requires Inv(s) && CanGet(s, b, d) && !GetMatches(s, b, t, m)
    ensures NoMatch(GetStep(s, b, d, t, prio, m, true), b)
  {
    hide Inv, ListOk, Pend, Compatible, FirstTx;
    NoSender(s, b, Incoming(t, m));
    Here(s, None, Some(d), Some(b));
    PendList(s.boxes[b].rx, Waiter(t, prio, d));
  }

  lemma GetQueueKeeps(s: State, b: Mbox, d: Desc, t: Thread, prio: int, m: Msg)
    requires Inv(s) && CanGet(s, b, d) && !GetMatches(s, b, t, m)
    ensures Inv(GetStep(s, b, d, t, prio, m, true))
  {
    hide Inv, ListOk, Pend, NoMatch, FirstTx, Distinct;
    GetQueueBox(s, b, d, t, prio, m);
    Here(s, None, Some(d), Some(b));
    PendList(s.boxes[b].rx, Waiter(t, prio, d));
    FrameKeeps(s, GetStep(s, b, d, t, prio, m, true), None, Some(d), Some(b));
  }

  lemma GetRefuseKeeps(s: State, b: Mbox, d: Desc, t: Thread, prio: int, m: Msg)
    requires Inv(s) && CanGet(s, b, d) && !GetMatches(s, b, t, m)
    ensures Inv(GetStep(s, b, d, t, prio, m, false))
  {
    hide Inv, ListOk, FirstTx;
    Here(s, None, Some(d), None);
    FrameKeeps(s, GetStep(s, b, d, t, prio, m, false), None, Some(d), None);
  }

  lemma DiscardKeeps(s: State, d: Desc)
    requires Inv(s) && CanDispose(s, d)
    ensures Inv(DiscardStep(s, d))
  {
    hide Inv;
    Here(s, s.rxs[d].syncing, Some(d), None);
    FrameKeeps(s, DiscardStep(s, d), s.rxs[d].syncing, Some(d), None);
  }

  lemma FreePush(s: State, d: Desc)
    requires FreeOk(s) && d in s.rxs && s.rxs[d].syncing.Some? && SenderOk(s, s.rxs[d].syncing.value)
    requires PlaceOf(s, s.rxs[d].syncing.value) == Matched(d)
    ensures var s' := DisposeStep(s, d); var x := s.rxs[d].syncing.value;
      && FreeOk(s') && (x.Dummy? ==> x.index in s'.free)
      && forall j :: Dummy(j) != x ==> (j in s'.free <==> j in s.free)
  {
    var x := s.rxs[d].syncing.value;
    assert x.Dummy? ==> DisposeStep(s, d).free[|s.free|] == x.index;
  }

  lemma DisposeFrame(s: State, d: Desc)
    requires FreeOk(s) && d in s.rxs && s.rxs[d].syncing.Some? && SenderOk(s, s.rxs[d].syncing.value)
    requires PlaceOf(s, s.rxs[d].syncing.value) == Matched(d)
    ensures Frame(s, DisposeStep(s, d), s.rxs[d].syncing, Some(d), None)
  {
    hide FreeOk, TouchedSerial;
    var s' := DisposeStep(s, d);
    FreePush(s, d);
    forall y | Some(y) != s.rxs[d].syncing ensures SameSender(s, s', y) {
    }
  }

  lemma DisposeKeeps(s: State, d: Desc)
    requires Inv(s) && CanDispose(s, d)
    ensures Inv(DisposeStep(s, d))
  {
    hide Inv, FreeOk, Frame;
    var x := s.rxs[d].syncing;
    Here(s, x, Some(d), None);
    if x.Some? {
      DisposeFrame(s, d);
      FreePush(s, d);
      FrameKeeps(s, DisposeStep(s, d), x, Some(d), None);
    }
  }

  lemma TxTimeoutKeeps(s: State, b: Mbox, k: nat)
    requires Inv(s) && b in s.boxes && k < |s.boxes[b].tx| && s.boxes[b].tx[k].info.Real?
    ensures Inv(TxTimeoutStep(s, b, k))
  {
    hide Inv, ListOk, RemoveAt, Compatible;
    var q := s.boxes[b].tx;
    assert q[k] in q;
    Here(s, Some(q[k].info), None, Some(b));
    UnpendList(q, k);
    FrameKeeps(s, TxTimeoutStep(s, b, k), Some(q[k].info), None, Some(b));
  }

  lemma RxTimeoutKeeps(s: State, b: Mbox, k: nat)
    requires Inv(s) && b in s.boxes && k < |s.boxes[b].rx|
    ensures Inv(RxTimeoutStep(s, b, k))
  {
    hide Inv, ListOk, RemoveAt, Compatible;
    var q := s.boxes[b].rx;
    assert q[k] in q;
    Here(s, None, Some(q[k].info), Some(b));
    UnpendList(q, k);
    FrameKeeps(s, RxTimeoutStep(s, b, k), None, Some(q[k].info), Some(b));
  }

  // ----- every run -----

  datatype Step =
    | DoAlloc
    | DoPut(b: Mbox, x: Sender, t: Thread, prio: int, m: Msg, wait: bool)
    | DoGet(b: Mbox, d: Desc, t: Thread, prio: int, m: Msg, wait: bool)
    | DoDiscard(d: Desc)
    | DoDispose(d: Desc)
    | DoTxTimeout(b: Mbox, k: nat)
    | DoRxTimeout(b: Mbox, k: nat)

  ghost predicate Enabled(s: State, step: Step) {
    match step
    case DoAlloc => s.free != []
    case DoPut(b, x, t, _, _, wait) => CanPut(s, b, x, t, wait)
    case DoGet(b, d, _, _, _, _) => CanGet(s, b, d)
    case DoDiscard(d) => CanDispose(s, d)
    case DoDispose(d) => CanDispose(s, d)
    case DoTxTimeout(b, k) => b in s.boxes && k < |s.boxes[b].tx| && s.boxes[b].tx[k].info.Real?
    case DoRxTimeout(b, k) => b in s.boxes && k < |s.boxes[b].rx|
  }

  ghost function Do(s: State, step: Step): State {
    if !Enabled(s, step) then s
    else
      match step
      case DoAlloc => AllocStep(s)
      case DoPut(b, x, t, prio, m, wait) => PutStep(s, b, x, t, prio, m, wait)
      case DoGet(b, d, t, prio, m, wait) => GetStep(s, b, d, t, prio, m, wait)
      case DoDiscard(d) => DiscardStep(s, d)
      case DoDispose(d) => DisposeStep(s, d)
      case DoTxTimeout(b, k) => TxTimeoutStep(s, b, k)
      case DoRxTimeout(b, k) => RxTimeoutStep(s, b, k)
  }

  lemma PutKeeps(s: State, b: Mbox, x: Sender, t: Thread, prio: int, m: Msg, wait: bool)
    requires Inv(s) && CanPut(s, b, x, t, wait)
    ensures Inv(PutStep(s, b, x, t, prio, m, wait))
  {
    hide Inv, PutStep;
    if PutMatches(s, b, x, t, m) {
      PutMatchKeeps(s, b, x, t, prio, m, wait);
    } else if wait {
      PutQueueKeeps(s, b, x, t, prio, m);
    } else {
      PutRefuseKeeps(s, b, x, t, prio, m);
    }
  }

  lemma GetKeeps(s: State, b: Mbox, d: Desc, t: Thread, prio: int, m: Msg, wait: bool)
    requires Inv(s) && CanGet(s, b, d)
    ensures Inv(GetStep(s, b, d, t, prio, m, wait))
  {
    hide Inv, GetStep;
    if GetMatches(s, b, t, m) {
      GetMatchKeeps(s, b, d, t, prio, m, wait);
    } else if wait {
      GetQueueKeeps(s, b, d, t, prio, m);
    } else {
      GetRefuseKeeps(s, b, d, t, prio, m);
    }
  }

  lemma StepKeeps(s: State, step: Step)
    requires Inv(s)
    ensures Inv(Do(s, step))
  {
    hide Inv, CanPut, CanGet, CanDispose, AllocStep, PutStep, GetStep, DiscardStep, DisposeStep, TxTimeoutStep, RxTimeoutStep;
    if Enabled(s, step) {
      match step
      case DoAlloc => AllocKeeps(s);
      case DoPut(b, x, t, prio, m, wait) => PutKeeps(s, b, x, t, prio, m, wait);
      case DoGet(b, d, t, prio, m, wait) => GetKeeps(s, b, d, t, prio, m, wait);
      case DoDiscard(d) => DiscardKeeps(s, d);
      case DoDispose(d) => DisposeKeeps(s, d);
      case DoTxTimeout(b, k) => TxTimeoutKeeps(s, b, k);
      case DoRxTimeout(b, k) => RxTimeoutKeeps(s, b, k);
    }
  }

  /** A send that has been matched stays matched to the receiver it was matched to. */
  ghost predicate Remembers(s: State, s': State) {
    s'.pool == s.pool && forall n :: n in s.matched ==> n in s'.matched && s'.matched[n] == s.matched[n]
  }

  lemma StepRemembers(s: State, step: Step)
    requires Inv(s)
    ensures Remembers(s, Do(s, step))
  {
    hide Inv, ListOk, Compatible, FirstRx, FirstTx, Pend, RemoveAt;
    Here(s, None, None, None);
    if Enabled(s, step) && step.DoGet? && GetMatches(s, step.b, step.t, step.m) {
      var q := s.boxes[step.b].tx;
      var w := q[FirstTx(s, q, Incoming(step.t, step.m))];
      assert w in q;
      Here(s, Some(w.info), None, Some(step.b));
    }
  }

  ghost function RunAll(s: State, steps: seq<Step>): State
    decreases |steps|
  {
    if steps == [] then s else RunAll(Do(s, steps[0]), steps[1..])
  }

  lemma {:induction false} RunKeeps(s: State, steps: seq<Step>)
    requires Inv(s)
    ensures Inv(RunAll(s, steps)) && Remembers(s, RunAll(s, steps))
    decreases |steps|
  {
    hide Inv, Do;
    if steps != [] {
      StepKeeps(s, steps[0]);
      StepRemembers(s, steps[0]);
      RunKeeps(Do(s, steps[0]), steps[1..]);
    }
  }

  /** Each message is matched to at most one receiver, over a whole run. */
  lemma MatchedOnce(s: State, steps: seq<Step>, n: nat)
    requires Inv(s) && n in s.matched
    ensures n in RunAll(s, steps).matched && RunAll(s, steps).matched[n] == s.matched[n]
  {
    hide Inv;
    RunKeeps(s, steps);
  }

  /** A sender and a receiver that would match never wait at a mailbox at the same time. */
  lemma NoPairWaits(pool: nat, ids: set<Mbox>, steps: seq<Step>, b: Mbox, v: Waiter<Sender>, w: Waiter<Desc>)
    ensures var s := RunAll(Initial(pool, ids), steps);
      b in s.boxes && v in s.boxes[b].tx && w in s.boxes[b].rx ==>
        v.info in s.txs && w.info in s.rxs && !Meant(s.txs[v.info], s.rxs[w.info])
  {
    hide RunAll, Initial, BoxOk, FreeOk;
    InitialOk(pool, ids);
    RunKeeps(Initial(pool, ids), steps);
    var s := RunAll(Initial(pool, ids), steps);
    assert b in s.boxes ==> NoMatch(s, b);
  }

  ghost predicate InTx(s: State, x: Sender) {
    exists b, w :: b in s.boxes && w in s.boxes[b].tx && w.info == x
  }

  ghost predicate InRx(s: State, x: Sender) {
    exists d :: d in s.rxs && s.rxs[d].syncing == Some(x)
  }

  /** A sender is in at most one place: on one queue, or with one receiver. */
  lemma OnePlace(s: State, x: Sender)
    requires Inv(s)
    ensures InTx(s, x) <==> PlaceOf(s, x).Queued?
    ensures InRx(s, x) <==> PlaceOf(s, x).Matched?
    ensures forall b, w :: b in s.boxes && w in s.boxes[b].tx && w.info == x ==> PlaceOf(s, x) == Queued(b, w)
    ensures forall d :: d in s.rxs && s.rxs[d].syncing == Some(x) ==> PlaceOf(s, x) == Matched(d)
  {
    hide Inv, ListOk, NoMatch, FreeOk, PlaceOf;
    Here(s, Some(x), None, None);
    forall b, w | b in s.boxes && w in s.boxes[b].tx && w.info == x ensures PlaceOf(s, x) == Queued(b, w) {
      Here(s, None, None, Some(b));
    }
    forall d | d in s.rxs && s.rxs[d].syncing == Some(x) ensures PlaceOf(s, x) == Matched(d) {
      Here(s, None, Some(d), None);
    }
  }

  /** At every moment each descriptor of the pool is exactly one of free (and then once on the
      stack), taken by a sender that has not sent yet, queued, or with a receiver that has
      not disposed of its message. */
  lemma PoolPartition(pool: nat, ids: set<Mbox>, steps: seq<Step>, i: nat)
    requires i < pool
    ensures var s := RunAll(Initial(pool, ids), steps);
      && (forall j, k :: 0 <= j < k < |s.free| ==> s.free[j] != s.free[k]) && (forall j :: j in s.free ==> j < pool)
      && (i in s.free ==> PlaceOf(s, Dummy(i)) != Held && !InTx(s, Dummy(i)) && !InRx(s, Dummy(i)))
      && (InTx(s, Dummy(i)) ==> PlaceOf(s, Dummy(i)) != Held && !InRx(s, Dummy(i)))
      && (InRx(s, Dummy(i)) ==> PlaceOf(s, Dummy(i)) != Held)
      && (i in s.free || PlaceOf(s, Dummy(i)) == Held || InTx(s, Dummy(i)) || InRx(s, Dummy(i)))
  {
    hide RunAll, Inv, BoxOk, NoMatch, InTx, InRx;
    InitialOk(pool, ids);
    RunKeeps(Initial(pool, ids), steps);
    var s := RunAll(Initial(pool, ids), steps);
    Here(s, Some(Dummy(i)), None, None);
    OnePlace(s, Dummy(i));
  }

  /** Of the receivers that could take a message, the one that gets it is a most urgent one. */
  lemma MostUrgentReceives(s: State, b: Mbox, m: Msg, w: Waiter<Desc>)
    requires Inv(s) && b in s.boxes && w in s.boxes[b].rx && RxFits(s, m, w)
    ensures var k := FirstRx(s, s.boxes[b].rx, m); k < |s.boxes[b].rx| && s.boxes[b].rx[k].prio <= w.prio
  {
    hide FirstRx, RxFits, Inv, NoMatch;
    Here(s, None, None, Some(b));
    var q := s.boxes[b].rx;
    assert ByPriority(q);
    var j :| 0 <= j < |q| && q[j] == w;
    var k := FirstRx(s, q, m);
    assert k <= j;
  }

  /** What a receiver finds in its buffer. */
  function Payload(m: Msg): Bytes
    requires m.data.Some? ==> m.size <= |m.data.value|
  {
    if m.data.Some? && m.size > 0 then m.data.value[..m.size] else []
  }

  /** The receiver gets the start of what was sent, cut to the shorter of the two sizes, and
      each learns who the other is and what the other's application info was. */
  lemma MatchTransfers(tx: Msg, rx: Msg)
    requires tx.data.Some? ==> tx.size <= |tx.data.value|
    requires Compatible(tx, rx)
    ensures var (tx', rx') := (MatchTx(tx, rx), MatchRx(tx, rx));
      && rx'.size <= tx.size && rx'.size <= rx.size
      && Payload(rx') == (if tx.data.Some? then Payload(tx)[..rx'.size] else [])
      && rx'.source == tx'.source && tx'.target == rx'.target && rx'.info == tx.info && tx'.info == rx.info
      && rx'.syncing == tx.syncing && Compatible(tx', rx')
  {
    assert tx.data.Some? ==> tx.data.value[..tx.size][..Min(rx.size, tx.size)] == tx.data.value[..Min(rx.size, tx.size)];
  }

  // ----- who is released, and when -----

  /** Of the senders whose message a receiver could take, a most urgent one is matched. */
  lemma MostUrgentSends(s: State, b: Mbox, m: Msg, w: Waiter<Sender>)
    requires Inv(s) && b in s.boxes && w in s.boxes[b].tx && w.info in s.txs && Meant(s.txs[w.info], m)
    ensures var k := FirstTx(s, s.boxes[b].tx, m); k < |s.boxes[b].tx| && s.boxes[b].tx[k].prio <= w.prio
  {
    hide FirstTx, Inv, NoMatch;
    Here(s, None, None, Some(b));
    var q := s.boxes[b].tx;
    assert ByPriority(q) && TxFits(s, m, w);
    var j :| 0 <= j < |q| && q[j] == w;
    var k := FirstTx(s, q, m);
    assert k <= j;
  }

  /** A receiver that no longer waits has a message that was meant for it, or its wait has run
      out; it is told which. */
  ghost predicate ReceiverTold(s: State, s': State, step: Step, b: Mbox, w: Waiter<Desc>) {
    w.thread in s'.woken && b in s.boxes &&
    match step
    case DoPut(c, x, t, _, m, _) =>
      && c == b && w.info in s.rxs && w.info in s'.rxs && s'.woken[w.thread] == Ok && s'.rxs[w.info].syncing == Some(x)
      && Meant(m.(source := Id(t)), s.rxs[w.info])
    case DoRxTimeout(c, k) => c == b && k < |s.boxes[b].rx| && s.boxes[b].rx[k] == w && s'.woken[w.thread] == TimedOut
    case _ => false
  }

  lemma PutReceiver(s: State, step: Step, b: Mbox, w: Waiter<Desc>)
    requires Inv(s) && Enabled(s, step) && step.DoPut? && b in s.boxes && w in s.boxes[b].rx
    ensures var s' := Do(s, step); b in s'.boxes && (w !in s'.boxes[b].rx ==> ReceiverTold(s, s', step, b, w))
  {
    hide Inv, ListOk, FirstRx, Pend, RemoveAt, NoMatch, FreeOk, MatchTx;
    Here(s, None, None, Some(b));
    var q := s.boxes[b].rx;
    if step.b == b && PutMatches(s, b, step.x, step.t, step.m) { UnpendList(q, FirstRx(s, q, Outgoing(s, step.x, step.t, step.m))); }
  }

  lemma GetReceiver(s: State, step: Step, b: Mbox, w: Waiter<Desc>)
    requires Enabled(s, step) && step.DoGet? && b in s.boxes && w in s.boxes[b].rx
    ensures b in Do(s, step).boxes && w in Do(s, step).boxes[b].rx
  {
    hide FirstTx, Pend, RemoveAt, MatchTx, MatchRx;
    PendHolds(s.boxes[b].rx, Waiter(step.t, step.prio, step.d));
  }

  lemma ReceiverLeaves(s: State, step: Step, b: Mbox, w: Waiter<Desc>)
    requires Inv(s) && Enabled(s, step) && b in s.boxes && w in s.boxes[b].rx
    ensures var s' := Do(s, step); b in s'.boxes && (w !in s'.boxes[b].rx ==> ReceiverTold(s, s', step, b, w))
  {
    hide Inv, ListOk, PutStep, GetStep, RemoveAt, NoMatch, FreeOk;
    Here(s, None, None, Some(b));
    match step
    case DoPut(_, _, _, _, _, _) => PutReceiver(s, step, b, w);
    case DoGet(_, _, _, _, _, _) => GetReceiver(s, step, b, w);
    case DoRxTimeout(c, k) =>
      if c == b { UnpendList(s.boxes[b].rx, k); }
    case _ =>
  }

  /** A sender that has left its queue is matched to the receiver that came, which its message
      was meant for, or its wait has run out and it is told so. */
  ghost predicate SenderTold(s: State, s': State, step: Step, b: Mbox, w: Waiter<Sender>) {
    b in s.boxes &&
    match step
    case DoGet(c, d, t, _, m, _) =>
      && c == b && w.info in s.txs && PlaceOf(s', w.info) == Matched(d) && s'.woken == s.woken
      && d in s'.rxs && s'.rxs[d].syncing == s.txs[w.info].syncing && Meant(s.txs[w.info], m.(target := Id(t)))
    case DoTxTimeout(c, k) =>
      && c == b && k < |s.boxes[b].tx| && s.boxes[b].tx[k] == w
      && w.thread in s'.woken && s'.woken[w.thread] == TimedOut && PlaceOf(s', w.info) == Idle
    case _ => false
  }

  lemma GetSender(s: State, step: Step, b: Mbox, w: Waiter<Sender>)
    requires Inv(s) && Enabled(s, step) && step.DoGet? && b in s.boxes && w in s.boxes[b].tx
    ensures var s' := Do(s, step); b in s'.boxes && (w !in s'.boxes[b].tx ==> SenderTold(s, s', step, b, w))
  {
    hide Inv, ListOk, FirstTx, Pend, RemoveAt, NoMatch, FreeOk, MatchTx;
    Here(s, None, None, Some(b));
    var q := s.boxes[b].tx;
    if step.b == b && GetMatches(s, b, step.t, step.m) { UnpendList(q, FirstTx(s, q, Incoming(step.t, step.m))); }
  }

  lemma PutSender(s: State, step: Step, b: Mbox, w: Waiter<Sender>)
    requires Enabled(s, step) && step.DoPut? && b in s.boxes && w in s.boxes[b].tx
    ensures b in Do(s, step).boxes && w in Do(s, step).boxes[b].tx
  {
    hide FirstRx, Pend, RemoveAt, MatchTx, MatchRx;
    PendHolds(s.boxes[b].tx, Waiter(step.t, step.prio, step.x));
  }

  lemma SenderLeaves(s: State, step: Step, b: Mbox, w: Waiter<Sender>)
    requires Inv(s) && Enabled(s, step) && b in s.boxes && w in s.boxes[b].tx
    ensures var s' := Do(s, step); b in s'.boxes && (w !in s'.boxes[b].tx ==> SenderTold(s, s', step, b, w))
  {
    hide Inv, ListOk, PutStep, GetStep, RemoveAt, NoMatch, FreeOk;
    Here(s, None, None, Some(b));
    match step
    case DoPut(_, _, _, _, _, _) => PutSender(s, step, b, w);
    case DoGet(_, _, _, _, _, _) => GetSender(s, step, b, w);
    case DoTxTimeout(c, k) =>
      if c == b { UnpendList(s.boxes[b].tx, k); }
    case _ =>
  }

  /** The receiver `x` is matched to disposes of the message: the sender learns how much was
      taken; a thread runs again, a descriptor is free again and its semaphore given. */
  ghost predicate Released(s: State, s': State, d: Desc, x: Sender) {
    && x in s.txs && d in s.rxs && s'.txs == s.txs[x := s.txs[x].(size := s.rxs[d].size)] && PlaceOf(s', x) == Idle
    && match x
       case Real(t) => s'.woken == s.woken[t := Ok] && s'.free == s.free && s'.given == s.given
       case Dummy(i) =>
         && s'.woken == s.woken && s'.free == s.free + [i]
         && s'.given == s.given + if s.txs[x].sem.Some? then [s.txs[x].sem.value] else []
  }

  lemma DisposeReleases(s: State, d: Desc, x: Sender)
    requires Inv(s) && CanDispose(s, d) && PlaceOf(s, x) == Matched(d)
    ensures Released(s, DisposeStep(s, d), d, x)
  {
    hide Inv, BoxOk, NoMatch, FreeOk;
    Here(s, Some(x), Some(d), None);
  }

  /** A matched sender is where it was, with the same message. */
  ghost predicate Stays(s: State, s': State, x: Sender) {
    PlaceOf(s', x) == PlaceOf(s, x) && x in s.txs && x in s'.txs && s'.txs[x] == s.txs[x]
  }

  lemma PutStays(s: State, step: Step, x: Sender)
    requires Inv(s) && Enabled(s, step) && PlaceOf(s, x).Matched? && step.DoPut?
    ensures Stays(s, Do(s, step), x)
  {
    hide Inv, FirstRx, Pend, RemoveAt, MatchTx, MatchRx, BoxOk, NoMatch, FreeOk;
    Here(s, Some(x), None, None);
  }

  lemma GetStays(s: State, step: Step, x: Sender)
    requires Inv(s) && Enabled(s, step) && PlaceOf(s, x).Matched? && step.DoGet?
    ensures Stays(s, Do(s, step), x)
  {
    hide Inv, ListOk, FirstTx, Pend, RemoveAt, MatchTx, MatchRx, NoMatch, FreeOk, TxFits;
    Here(s, Some(x), None, Some(step.b));
    if GetMatches(s, step.b, step.t, step.m) {
      var q := s.boxes[step.b].tx;
      assert q[FirstTx(s, q, Incoming(step.t, step.m))] in q;
    }
  }

  /** Nothing else moves a matched sender. */
  lemma SenderStays(s: State, step: Step, x: Sender)
    requires Inv(s) && Enabled(s, step) && PlaceOf(s, x).Matched? && step != DoDispose(PlaceOf(s, x).desc)
    ensures Stays(s, Do(s, step), x)
  {
    hide Inv, ListOk, PutStep, GetStep, RemoveAt, NoMatch, FreeOk;
    Here(s, Some(x), None, None);
    match step
    case DoAlloc => FreeIdle(s);
    case DoPut(_, _, _, _, _, _) => PutStays(s, step, x);
    case DoGet(_, _, _, _, _, _) => GetStays(s, step, x);
    case DoDispose(d) => Here(s, None, Some(d), None);
    case DoTxTimeout(b, k) =>
      assert s.boxes[b].tx[k] in s.boxes[b].tx;
      Here(s, None, None, Some(b));
    case _ =>
  }

  /** A matched sender goes on exactly when its receiver disposes of the message, over every
      run. */
  lemma SenderReleased(pool: nat, ids: set<Mbox>, steps: seq<Step>, step: Step, x: Sender)
    ensures var s := RunAll(Initial(pool, ids), steps);
      Enabled(s, step) && PlaceOf(s, x).Matched? ==>
        var d := PlaceOf(s, x).desc;
        if step == DoDispose(d) then Released(s, Do(s, step), d, x) else PlaceOf(Do(s, step), x) == PlaceOf(s, x)
  {
    hide Inv, RunAll, Initial, Released, PlaceOf, DisposeStep, PutStep, GetStep, AllocStep, DiscardStep, TxTimeoutStep, RxTimeoutStep, CanPut, CanGet;
    InitialOk(pool, ids);
    RunKeeps(Initial(pool, ids), steps);
    var s := RunAll(Initial(pool, ids), steps);
    if Enabled(s, step) && PlaceOf(s, x).Matched? {
      if step == DoDispose(PlaceOf(s, x).desc) {
        DisposeReleases(s, step.d, x);
      } else {
        SenderStays(s, step, x);
      }
    }
  }

  lemma FreeIdle(s: State)
    requires Inv(s) && s.free != []
    ensures PlaceOf(s, Dummy(s.free[|s.free| - 1])) == Idle
  {
    assert s.free[|s.free| - 1] in s.free;
  }

  // ----- what a receiver reads is what was sent -----

  /** What was put under each serial number, what each receive descriptor was asked for by
      its last receive, and whose data has been dropped since. */
  datatype History = History(sent: map<nat, Msg>, asked: map<Desc, Msg>, dropped: set<Desc>)

  ghost function Noted(s: State, h: History, step: Step): History {
    match step
    case DoPut(_, x, t, _, m, _) => h.(sent := h.sent[s.next := m.(serial := s.next, source := Id(t), syncing := Some(x))])
    case DoGet(_, d, t, _, m, _) => h.(asked := h.asked[d := m.(target := Id(t), syncing := None)], dropped := h.dropped - {d})
    case DoDiscard(d) => h.(dropped := h.dropped + {d})
    case _ => h
  }

  ghost function HistoryOf(s: State, h: History, steps: seq<Step>): History
    decreases |steps|
  {
    if steps == [] then h
    else HistoryOf(Do(s, steps[0]), if Enabled(s, steps[0]) then Noted(s, h, steps[0]) else h, steps[1..])
  }

  /** A queued sender's descriptor is as it was put. */
  ghost predicate TxCarried(s: State, h: History, x: Sender) {
    PlaceOf(s, x).Queued? ==> x in s.txs && s.txs[x].serial in h.sent && s.txs[x] == h.sent[s.txs[x].serial]
  }

  /** A descriptor holds what was put under the serial number it was matched to, cut to the
      smaller size. */
  ghost predicate Holds(s: State, h: History, d: Desc, n: nat)
    requires d in s.rxs
  {
    && n in s.matched && s.matched[n] == d && n in h.sent && d in h.asked
    && s.rxs[d].data == h.sent[n].data && s.rxs[d].source == h.sent[n].source && s.rxs[d].info == h.sent[n].info
    && s.rxs[d].target == h.asked[d].target && Meant(h.sent[n], h.asked[d])
    && s.rxs[d].size == if d in h.dropped then 0 else Min(h.asked[d].size, h.sent[n].size)
  }

  ghost predicate RxCarried(s: State, h: History, d: Desc) {
    && (SpotOf(s, d).Waiting? ==> d in s.rxs && d in h.asked && d !in h.dropped && s.rxs[d] == h.asked[d])
    && (d in s.rxs && s.rxs[d].syncing.Some? ==>
          s.rxs[d].syncing.value in s.txs && Holds(s, h, d, s.txs[s.rxs[d].syncing.value].serial))
  }

  ghost predicate Carried(s: State, h: History) {
    (forall x :: TxCarried(s, h, x)) && forall d: Desc :: RxCarried(s, h, d)
  }

  /** The history goes on without changing what it says about other sends and descriptors. */
  ghost predicate Extends(s: State, h: History, h': History, d: Option<Desc>) {
    && (forall n :: n in h.sent && n < s.next ==> n in h'.sent && h'.sent[n] == h.sent[n])
    && (forall e: Desc :: Some(e) != d && e in h.asked ==> e in h'.asked && h'.asked[e] == h.asked[e])
    && (forall e: Desc :: Some(e) != d ==> (e in h'.dropped <==> e in h.dropped))
  }

  ghost predicate KeptSender(s: State, s': State, y: Sender) {
    PlaceOf(s', y) == PlaceOf(s, y) && (y in s.txs ==> y in s'.txs && s'.txs[y] == s.txs[y])
  }

  /** A step keeps what is carried if it does so for what it touches. */
  lemma CarriedBy(s: State, s': State, h: History, h': History, x: Option<Sender>, d: Option<Desc>)
    requires Inv(s) && Carried(s, h) && Remembers(s, s') && Extends(s, h, h', d)
    requires forall y :: Some(y) != x ==> KeptSender(s, s', y)
    requires forall e: Desc :: Some(e) != d ==> SameDesc(s, s', e)
    requires x.Some? && PlaceOf(s, x.value).Matched? ==> Some(PlaceOf(s, x.value).desc) == d
    requires x.Some? ==> TxCarried(s', h', x.value)
    requires d.Some? ==> RxCarried(s', h', d.value)
    ensures Carried(s', h')
  {
    hide Inv, BoxOk, NoMatch, FreeOk;
    forall y ensures TxCarried(s', h', y) {
      if Some(y) != x {
        Here(s, Some(y), None, None);
        assert TxCarried(s, h, y) && KeptSender(s, s', y);
      }
    }
    forall e: Desc ensures RxCarried(s', h', e) {
      if Some(e) != d {
        Here(s, None, Some(e), None);
        assert RxCarried(s, h, e) && SameDesc(s, s', e);
        assert e in s.rxs && s.rxs[e].syncing.Some? ==> KeptSender(s, s', s.rxs[e].syncing.value);
      }
    }
  }

  /** What is carried, where a step touches. */
  lemma CarriedAt(s: State, h: History, x: Option<Sender>, d: Option<Desc>)
    requires Carried(s, h)
    ensures x.Some? ==> TxCarried(s, h, x.value)
    ensures d.Some? ==> RxCarried(s, h, d.value)
  {
  }

  lemma PutMatchCarries(s: State, h: History, b: Mbox, x: Sender, t: Thread, prio: int, m: Msg, wait: bool)
    requires Inv(s) && Carried(s, h) && CanPut(s, b, x, t, wait) && PutMatches(s, b, x, t, m)
    ensures Carried(PutStep(s, b, x, t, prio, m, wait), Noted(s, h, DoPut(b, x, t, prio, m, wait)))
  {
    hide Inv, ListOk, Compatible, FirstRx, RemoveAt, NoMatch, FreeOk, Carried;
    var step := DoPut(b, x, t, prio, m, wait);
    StepRemembers(s, step);
    var q := s.boxes[b].rx;
    var w := q[FirstRx(s, q, Outgoing(s, x, t, m))];
    assert w in q;
    Here(s, Some(x), Some(w.info), Some(b));
    CarriedAt(s, h, None, Some(w.info));
    CompatibleIs(Outgoing(s, x, t, m), s.rxs[w.info]);
    CarriedBy(s, PutStep(s, b, x, t, prio, m, wait), h, Noted(s, h, step), Some(x), Some(w.info));
  }

  lemma PutCarries(s: State, h: History, b: Mbox, x: Sender, t: Thread, prio: int, m: Msg, wait: bool)
    requires Inv(s) && Carried(s, h) && CanPut(s, b, x, t, wait)
    ensures Carried(PutStep(s, b, x, t, prio, m, wait), Noted(s, h, DoPut(b, x, t, prio, m, wait)))
  {
    hide Inv, FirstRx, Pend, HandStep, Carried;
    var step := DoPut(b, x, t, prio, m, wait);
    if PutMatches(s, b, x, t, m) {
      PutMatchCarries(s, h, b, x, t, prio, m, wait);
    } else {
      StepRemembers(s, step);
      Here(s, Some(x), None, None);
      CarriedBy(s, PutStep(s, b, x, t, prio, m, wait), h, Noted(s, h, step), Some(x), None);
    }
  }

  lemma GetMatchCarries(s: State, h: History, b: Mbox, d: Desc, t: Thread, prio: int, m: Msg, wait: bool)
    requires Inv(s) && Carried(s, h) && CanGet(s, b, d) && GetMatches(s, b, t, m)
    ensures Carried(GetStep(s, b, d, t, prio, m, wait), Noted(s, h, DoGet(b, d, t, prio, m, wait)))
  {
    hide Inv, ListOk, Compatible, FirstTx, RemoveAt, NoMatch, FreeOk, Carried;
    var step := DoGet(b, d, t, prio, m, wait);
    StepRemembers(s, step);
    var q := s.boxes[b].tx;
    var w := q[FirstTx(s, q, Incoming(t, m))];
    assert w in q;
    Here(s, Some(w.info), Some(d), Some(b));
    CarriedAt(s, h, Some(w.info), None);
    CompatibleIs(s.txs[w.info], Incoming(t, m));
    CarriedBy(s, GetStep(s, b, d, t, prio, m, wait), h, Noted(s, h, step), Some(w.info), Some(d));
  }

  lemma GetQueueCarries(s: State, h: History, b: Mbox, d: Desc, t: Thread, prio: int, m: Msg)
    requires Inv(s) && Carried(s, h) && CanGet(s, b, d) && !GetMatches(s, b, t, m)
    ensures Carried(GetStep(s, b, d, t, prio, m, true), Noted(s, h, DoGet(b, d, t, prio, m, true)))
  {
    hide Inv, FirstTx, Pend, TakeStep, Carried, Holds;
    var step := DoGet(b, d, t, prio, m, true);
    StepRemembers(s, step);
    CarriedBy(s, GetStep(s, b, d, t, prio, m, true), h, Noted(s, h, step), None, Some(d));
  }

  lemma GetRefuseCarries(s: State, h: History, b: Mbox, d: Desc, t: Thread, prio: int, m: Msg)
    requires Inv(s) && Carried(s, h) && CanGet(s, b, d) && !GetMatches(s, b, t, m)
    ensures Carried(GetStep(s, b, d, t, prio, m, false), Noted(s, h, DoGet(b, d, t, prio, m, false)))
  {
    hide Inv, FirstTx, Pend, TakeStep, Carried, Holds;
    var step := DoGet(b, d, t, prio, m, false);
    StepRemembers(s, step);
    CarriedBy(s, GetStep(s, b, d, t, prio, m, false), h, Noted(s, h, step), None, Some(d));
  }

  lemma GetCarries(s: State, h: History, b: Mbox, d: Desc, t: Thread, prio: int, m: Msg, wait: bool)
    requires Inv(s) && Carried(s, h) && CanGet(s, b, d)
    ensures Carried(GetStep(s, b, d, t, prio, m, wait), Noted(s, h, DoGet(b, d, t, prio, m, wait)))
  {
    hide Inv, GetStep, Noted, Carried;
    if GetMatches(s, b, t, m) {
      GetMatchCarries(s, h, b, d, t, prio, m, wait);
    } else if wait {
      GetQueueCarries(s, h, b, d, t, prio, m);
    } else {
      GetRefuseCarries(s, h, b, d, t, prio, m);
    }
  }

  lemma DisposeCarries(s: State, h: History, d: Desc)
    requires Inv(s) && Carried(s, h) && CanDispose(s, d)
    ensures Carried(DisposeStep(s, d), h)
  {
    hide Inv, NoMatch, FreeOk, Carried, Remembers, TxCarried, RxCarried, BoxOk;
    var x := s.rxs[d].syncing;
    Here(s, x, Some(d), None);
    StepRemembers(s, DoDispose(d));
    if x.Some? {
      DisposedCarried(s, h, d, x.value);
      CarriedBy(s, DisposeStep(s, d), h, h, x, Some(d));
    }
  }

  /** A disposed message and its sender have nothing to carry any more. */
  lemma DisposedCarried(s: State, h: History, d: Desc, x: Sender)
    requires CanDispose(s, d) && s.rxs[d].syncing == Some(x) && x in s.txs
    ensures TxCarried(DisposeStep(s, d), h, x) && RxCarried(DisposeStep(s, d), h, d)
  {
    hide Holds;
  }

  lemma DiscardCarries(s: State, h: History, d: Desc)
    requires Inv(s) && Carried(s, h) && CanDispose(s, d)
    ensures Carried(DiscardStep(s, d), Noted(s, h, DoDiscard(d)))
  {
    hide Inv, NoMatch, FreeOk, Carried;
    CarriedAt(s, h, None, Some(d));
    CarriedBy(s, DiscardStep(s, d), h, Noted(s, h, DoDiscard(d)), None, Some(d));
  }

  lemma TimeoutCarries(s: State, h: History, step: Step)
    requires Inv(s) && Carried(s, h) && Enabled(s, step) && (step.DoTxTimeout? || step.DoRxTimeout?)
    ensures Carried(Do(s, step), h)
  {
    hide Inv, ListOk, RemoveAt, NoMatch, FreeOk, Carried;
    StepRemembers(s, step);
    match step
    case DoTxTimeout(b, k) =>
      var w := s.boxes[b].tx[k];
      assert w in s.boxes[b].tx;
      Here(s, Some(w.info), None, Some(b));
      CarriedBy(s, Do(s, step), h, h, Some(w.info), None);
    case DoRxTimeout(b, k) =>
      var w := s.boxes[b].rx[k];
      assert w in s.boxes[b].rx;
      Here(s, None, Some(w.info), Some(b));
      CarriedAt(s, h, None, Some(w.info));
      CarriedBy(s, Do(s, step), h, h, None, Some(w.info));
  }

  lemma AllocCarries(s: State, h: History)
    requires Inv(s) && Carried(s, h) && s.free != []
    ensures Carried(AllocStep(s), h)
  {
    hide Inv, Carried;
    var i := s.free[|s.free| - 1];
    Here(s, Some(Dummy(i)), None, None);
    CarriedBy(s, AllocStep(s), h, h, Some(Dummy(i)), None);
  }

  lemma StepCarries(s: State, h: History, step: Step)
    requires Inv(s) && Carried(s, h) && Enabled(s, step)
    ensures Carried(Do(s, step), Noted(s, h, step))
  {
    hide Inv, Carried, CanPut, CanGet, CanDispose, PutStep, GetStep, DiscardStep, DisposeStep, AllocStep, TxTimeoutStep, RxTimeoutStep;
    match step
    case DoAlloc => AllocCarries(s, h);
    case DoPut(b, x, t, prio, m, wait) => PutCarries(s, h, b, x, t, prio, m, wait);
    case DoGet(b, d, t, prio, m, wait) => GetCarries(s, h, b, d, t, prio, m, wait);
    case DoDiscard(d) => DiscardCarries(s, h, d);
    case DoDispose(d) => DisposeCarries(s, h, d);
    case _ => TimeoutCarries(s, h, step);
  }

  lemma {:induction false} RunCarries(s: State, h: History, steps: seq<Step>)
    requires Inv(s) && Carried(s, h)
    ensures Carried(RunAll(s, steps), HistoryOf(s, h, steps))
    decreases |steps|
  {
    hide Inv, Carried, Do, Enabled, Noted;
    if steps != [] {
      StepKeeps(s, steps[0]);
      if Enabled(s, steps[0]) {
        StepCarries(s, h, steps[0]);
        RunCarries(Do(s, steps[0]), Noted(s, h, steps[0]), steps[1..]);
      } else {
        Disabled(s, steps[0]);
        RunCarries(s, h, steps[1..]);
      }
    }
  }

  lemma Disabled(s: State, step: Step)
    requires !Enabled(s, step)
    ensures Do(s, step) == s
  {
    hide Enabled;
  }

  /** Over every run: as long as a message has not been disposed of, its receiver reads the
      start of what was put under the serial number it was matched to, cut to the smaller of
      the two sizes, or nothing if it dropped the data; and that message was addressed to it
      and came from whom it asked for. */
  lemma PayloadArrives(pool: nat, ids: set<Mbox>, steps: seq<Step>, d: Desc)
    ensures var s := RunAll(Initial(pool, ids), steps);
      var h := HistoryOf(Initial(pool, ids), History(map[], map[], {}), steps);
      d in s.rxs && s.rxs[d].syncing.Some? ==>
        s.rxs[d].syncing.value in s.txs &&
        var n := s.txs[s.rxs[d].syncing.value].serial;
        && n in s.matched && s.matched[n] == d && n in h.sent && d in h.asked
        && s.rxs[d].source == h.sent[n].source && s.rxs[d].info == h.sent[n].info && Meant(h.sent[n], h.asked[d])
        && ((h.sent[n].data.Some? ==> h.sent[n].size <= |h.sent[n].data.value|) ==>
              && (s.rxs[d].data.Some? ==> s.rxs[d].size <= |s.rxs[d].data.value|)
              && Payload(s.rxs[d]) ==
                 if d in h.dropped || h.sent[n].data == None then []
                 else Payload(h.sent[n])[..Min(h.asked[d].size, h.sent[n].size)])
  {
    hide Inv, RunAll, HistoryOf;
    InitialOk(pool, ids);
    var s0, h0 := Initial(pool, ids), History(map[], map[], {});
    RunCarries(s0, h0, steps);
    var s, h := RunAll(s0, steps), HistoryOf(s0, h0, steps);
    assert RxCarried(s, h, d);
  }

  // ----- the source's operations -----

  datatype Outcome = Handed | Refused | Pended

  /** A put that is not handed over at once leaves receivers alone; one that waits queues up. */
  ghost predicate PutOutcome(s: State, s': State, b: Mbox, w: Waiter<Sender>, outcome: Outcome)
    requires b in s.boxes
  {
    match outcome
    case Handed => w.info in s'.txs && PlaceOf(s', w.info).Matched?
    case Refused => s'.boxes == s.boxes && s'.rxs == s.rxs && s'.woken == s.woken
    case Pended =>
      && s'.boxes == s.boxes[b := s.boxes[b].(tx := Pend(s.boxes[b].tx, w))] && s'.rxs == s.rxs && s'.woken == s.woken
      && PlaceOf(s', w.info) == Queued(b, w)
  }

  lemma PutOutcomeIs(s: State, b: Mbox, x: Sender, t: Thread, prio: int, m: Msg, wait: bool)
    requires b in s.boxes
    ensures PutOutcome(s, PutStep(s, b, x, t, prio, m, wait), b, Waiter(t, prio, x),
      if PutMatches(s, b, x, t, m) then Handed else if wait then Pended else Refused)
  {
    hide FirstRx, Pend, RemoveAt, MatchTx, MatchRx;
  }

  class MailboxSystem {
    const pool: nat
    var free: seq<nat>
    var boxes: map<Mbox, Box>
    var txs: map<Sender, Msg>
    var rxs: map<Desc, Msg>
    var woken: map<Thread, Code>
    var given: seq<nat>
    var next: nat
    ghost var places: map<Sender, Place>
    ghost var spots: map<Desc, Spot>
    ghost var matched: map<nat, Desc>

    ghost function Abs(): State
      reads this
    {
      State(pool, free, boxes, txs, rxs, woken, given, places, spots, next, matched)
    }

    ghost predicate Valid()
      reads this
    {
      Inv(Abs())
    }

    /** `init_mbox_module` and `k_mbox_init`. */
    constructor (pool: nat, ids: set<Mbox>)
      ensures Valid() && Abs() == Initial(pool, ids)
    {
      this.pool := pool;
      boxes := map b | b in ids :: Box([], []);
      txs, rxs, woken, given, next := map[], map[], map[], [], 0;
      places, spots, matched := map[], map[], map[];
      free := [];
      new;
      var i := 0;
      while i < pool
        modifies this`free
        invariant i <= pool && free == seq(i, j => j)
      {
        free := free + [i];
        i := i + 1;
      }
      InitialOk(pool, ids);
      assert Abs() == Initial(pool, ids);
    }

    /** `mbox_async_alloc`. */
    method AsyncAlloc() returns (i: nat)
      requires Valid() && free != []
      modifies this
      ensures Valid() && Abs() == AllocStep(old(Abs())) && i == old(free)[|old(free)| - 1]
    {
      hide Inv;
      AllocKeeps(Abs());
      i := free[|free| - 1];
      free := free[..|free| - 1];
      places := places[Dummy(i) := Held];
    }

    /** `mbox_message_match`, on the descriptors of a sender and a receiver. */
    method MessageMatch(x: Sender, d: Desc) returns (ok: bool)
      requires x in txs && d in rxs
      modifies this`txs, this`rxs
      ensures ok == Compatible(old(txs[x]), old(rxs[d]))
      ensures txs == if ok then old(txs)[x := MatchTx(old(txs[x]), old(rxs[d]))] else old(txs)
      ensures rxs == if ok then old(rxs)[d := MatchRx(old(txs[x]), old(rxs[d]))] else old(rxs)
    {
      var tx, rx := txs[x], rxs[d];
      if (tx.target == Any || tx.target == rx.target) && (rx.source == Any || rx.source == tx.source) {
        rx := rx.(source := tx.source);
        tx := tx.(target := rx.target);
        var info := rx.info;
        rx := rx.(info := tx.info);
        tx := tx.(info := info);
        if rx.size > tx.size {
          rx := rx.(size := tx.size);
        }
        rx := rx.(data := tx.data);
        rx := rx.(syncing := tx.syncing);
        txs, rxs := txs[x := tx], rxs[d := rx];
        return true;
      }
      return false;
    }

    /** Looking for a receiver, up to the first match. */
    method FindReceiver(q: seq<Waiter<Desc>>, x: Sender, ghost s: State, ghost m: Msg) returns (k: nat)
      requires x in txs && txs[x] == m && rxs == s.rxs && forall w :: w in q ==> w.info in rxs
      modifies this`txs, this`rxs
      ensures k == FirstRx(s, q, m)
      ensures txs == if k < |q| then old(txs)[x := MatchTx(m, s.rxs[q[k].info])] else old(txs)
      ensures rxs == if k < |q| then s.rxs[q[k].info := MatchRx(m, s.rxs[q[k].info])] else s.rxs
    {
      hide FirstRx, MatchTx, MatchRx, Compatible;
      k := 0;
      while k < |q|
        invariant k <= |q| && txs == old(txs) && rxs == s.rxs
        invariant forall i :: 0 <= i < k ==> !RxFits(s, m, q[i])
      {
        assert q[k] in q;
        var ok := MessageMatch(x, q[k].info);
        if ok {
          assert RxFits(s, m, q[k]);
          return;
        }
        k := k + 1;
      }
    }

    /** Taking a matched receiver out of the queue and readying it. */
    method HandOver(b: Mbox, x: Sender, k: nat, ghost s: State, ghost m: Msg)
      requires b in s.boxes && k < |s.boxes[b].rx| && s.boxes[b].rx[k].info in s.rxs
      requires var d := s.boxes[b].rx[k].info;
        Abs() == s.(txs := s.txs[x := MatchTx(m, s.rxs[d])], rxs := s.rxs[d := MatchRx(m, s.rxs[d])], next := s.next + 1)
      modifies this
      ensures Abs() == HandStep(s, b, x, m, k)
    {
      hide RemoveAt, MatchTx, MatchRx;
      var q := boxes[b].rx;
      var d := q[k].info;
      boxes := boxes[b := boxes[b].(rx := RemoveAt(q, k))];
      woken := woken[q[k].thread := Ok];
      places, spots, matched := places[x := Matched(d)], spots[d := Loose], matched[s.next := d];
    }

    /** Pending a sender on the mailbox. */
    method WaitForReceiver(b: Mbox, w: Waiter<Sender>)
      requires b in boxes
      modifies this`boxes, this`places
      ensures boxes == old(boxes)[b := old(boxes)[b].(tx := Pend(old(boxes)[b].tx, w))]
      ensures places == old(places)[w.info := Queued(b, w)]
    {
      boxes := boxes[b := boxes[b].(tx := Pend(boxes[b].tx, w))];
      places := places[w.info := Queued(b, w)];
    }

    /** `mbox_message_put`: `x` is the thread itself, or the dummy of its descriptor. */
    method MessagePut(b: Mbox, x: Sender, t: Thread, prio: int, m: Msg, wait: bool) returns (outcome: Outcome)
      requires Valid() && CanPut(Abs(), b, x, t, wait)
      modifies this
      ensures Valid() && Abs() == PutStep(old(Abs()), b, x, t, prio, m, wait)
      ensures outcome == if PutMatches(old(Abs()), b, x, t, m) then Handed else if wait then Pended else Refused
      ensures PutOutcome(old(Abs()), Abs(), b, Waiter(t, prio, x), outcome)
    {
      hide PutOutcome, Inv, Pend, RemoveAt, MatchTx, MatchRx, FirstRx, RxFits, PlaceOf, HandStep;
      ghost var s := Abs();
      PutKeeps(s, b, x, t, prio, m, wait);
      PutOutcomeIs(s, b, x, t, prio, m, wait);
      ReceiversKnown(s, b);
      var m0 := m.(serial := next, source := Id(t), syncing := Some(x));
      txs := txs[x := m0];
      next := next + 1;
      var q := boxes[b].rx;
      var k := FindReceiver(q, x, s, m0);
      if k < |q| {
        assert Abs() == s.(txs := txs, rxs := rxs, next := next);
        HandOver(b, x, k, s, m0);
        outcome := Handed;
      } else if !wait {
        outcome := Refused;
      } else {
        WaitForReceiver(b, Waiter(t, prio, x));
        outcome := Pended;
      }
    }

    /** Looking for a sender, up to the first match. */
    method FindSender(q: seq<Waiter<Sender>>, d: Desc, ghost s: State, ghost m: Msg) returns (k: nat)
      requires d in rxs && rxs[d] == m && txs == s.txs && forall w :: w in q ==> w.info in txs
      modifies this`txs, this`rxs
      ensures k == FirstTx(s, q, m)
      ensures txs == if k < |q| then s.txs[q[k].info := MatchTx(s.txs[q[k].info], m)] else s.txs
      ensures rxs == if k < |q| then old(rxs)[d := MatchRx(s.txs[q[k].info], m)] else old(rxs)
    {
      hide FirstTx, MatchTx, MatchRx, Compatible;
      k := 0;
      while k < |q|
        invariant k <= |q| && txs == s.txs && rxs == old(rxs)
        invariant forall i :: 0 <= i < k ==> !TxFits(s, m, q[i])
      {
        assert q[k] in q;
        var ok := MessageMatch(q[k].info, d);
        if ok {
          assert TxFits(s, m, q[k]);
          return;
        }
        k := k + 1;
      }
    }

    /** Taking a matched sender out of the queue. */
    method TakeOver(b: Mbox, d: Desc, k: nat, ghost s: State, ghost m: Msg)
      requires b in s.boxes && k < |s.boxes[b].tx| && s.boxes[b].tx[k].info in s.txs
      requires var x := s.boxes[b].tx[k].info;
        Abs() == s.(txs := s.txs[x := MatchTx(s.txs[x], m)], rxs := s.rxs[d := MatchRx(s.txs[x], m)])
      modifies this
      ensures Abs() == TakeStep(s, b, d, m, k)
    {
      hide RemoveAt, MatchTx, MatchRx;
      var q := boxes[b].tx;
      var x := q[k].info;
      boxes := boxes[b := boxes[b].(tx := RemoveAt(q, k))];
      places, matched := places[x := Matched(d)], matched[s.txs[x].serial := d];
    }

    /** `k_mbox_get`, up to where the message has been received. */
    method Receive(b: Mbox, d: Desc, t: Thread, prio: int, m: Msg, wait: bool) returns (outcome: Outcome)
      requires Valid() && CanGet(Abs(), b, d)
      modifies this
      ensures Valid() && Abs() == GetStep(old(Abs()), b, d, t, prio, m, wait)
      ensures outcome == if GetMatches(old(Abs()), b, t, m) then Handed else if wait then Pended else Refused
      ensures outcome == Pended ==> boxes == old(boxes)[b := old(boxes)[b].(rx := Pend(old(boxes)[b].rx, Waiter(t, prio, d)))]
      ensures outcome == Refused ==> boxes == old(boxes)
      ensures outcome != Handed ==> txs == old(txs) && woken == old(woken) && d in rxs && rxs[d] == m.(target := Id(t), syncing := None)
    {
      hide Inv, Pend, RemoveAt, MatchTx, MatchRx, FirstTx, TxFits, SpotOf, TakeStep;
      ghost var s := Abs();
      GetKeeps(s, b, d, t, prio, m, wait);
      SendersKnown(s, b);
      var m0 := m.(target := Id(t), syncing := None);
      rxs := rxs[d := m0];
      var q := boxes[b].tx;
      var k := FindSender(q, d, s, m0);
      if k < |q| {
        assert q[k] in q && Abs() == s.(txs := txs, rxs := rxs);
        TakeOver(b, d, k, s, m0);
        outcome := Handed;
      } else if !wait {
        outcome := Refused;
      } else {
        var w := Waiter(t, prio, d);
        boxes := boxes[b := boxes[b].(rx := Pend(boxes[b].rx, w))];
        spots := spots[d := Waiting(b, w)];
        outcome := Pended;
      }
    }

    /** `mbox_message_dispose`. */
    method Dispose(d: Desc)
      requires Valid() && CanDispose(Abs(), d)
      modifies this
      ensures Valid() && Abs() == DisposeStep(old(Abs()), d)
    {
      hide Inv;
      DisposeKeeps(Abs(), d);
      Here(Abs(), rxs[d].syncing, Some(d), None);
      if rxs[d].syncing == None {
        return;
      }
      var x := rxs[d].syncing.value;
      rxs := rxs[d := rxs[d].(syncing := None)];
      txs := txs[x := txs[x].(size := rxs[d].size)];
      places := places[x := Idle];
      match x
      case Dummy(i) =>
        var sem := txs[x].sem;
        free := free + [i];
        given := given + if sem.Some? then [sem.value] else [];
      case Real(t) =>
        woken := woken[t := Ok];
    }

    /** `k_mbox_data_get`: without a buffer the data is dropped. */
    method DataGet(d: Desc, wanted: bool) returns (data: Bytes)
      requires Valid() && CanDispose(Abs(), d)
      requires rxs[d].data.Some? ==> rxs[d].size <= |rxs[d].data.value|
      modifies this
      ensures Valid()
      ensures wanted ==> data == Payload(old(rxs[d])) && Abs() == DisposeStep(old(Abs()), d)
      ensures !wanted ==> data == [] && Abs() == DisposeStep(DiscardStep(old(Abs()), d), d)
    {
      hide Inv, DisposeStep;
      data := [];
      if !wanted {
        DiscardKeeps(Abs(), d);
        rxs := rxs[d := rxs[d].(size := 0)];
        Dispose(d);
        return;
      }
      if rxs[d].data.Some? && rxs[d].size > 0 {
        data := rxs[d].data.value[..rxs[d].size];
      }
      Dispose(d);
    }

    /** `mbox_message_data_check`: consumed at once with a buffer or without data, else kept. */
    method DataCheck(d: Desc, buffer: bool) returns (data: Bytes)
      requires Valid() && CanDispose(Abs(), d)
      requires rxs[d].data.Some? ==> rxs[d].size <= |rxs[d].data.value|
      modifies this
      ensures Valid() && data == (if buffer then Payload(old(rxs[d])) else [])
      ensures Abs() == if buffer || old(rxs[d]).size == 0 then DisposeStep(old(Abs()), d) else old(Abs())
    {
      hide Inv, DisposeStep, Payload;
      data := [];
      if buffer {
        data := DataGet(d, true);
      } else if rxs[d].size == 0 {
        Dispose(d);
      }
    }

    method TxTimeout(b: Mbox, k: nat)
      requires Valid() && Enabled(Abs(), DoTxTimeout(b, k))
      modifies this
      ensures Valid() && Abs() == TxTimeoutStep(old(Abs()), b, k)
    {
      hide Inv;
      TxTimeoutKeeps(Abs(), b, k);
      var w := boxes[b].tx[k];
      boxes := boxes[b := boxes[b].(tx := RemoveAt(boxes[b].tx, k))];
      woken := woken[w.thread := TimedOut];
      places := places[w.info := Idle];
    }

    method RxTimeout(b: Mbox, k: nat)
      requires Valid() && Enabled(Abs(), DoRxTimeout(b, k))
      modifies this
      ensures Valid() && Abs() == RxTimeoutStep(old(Abs()), b, k)
    {
      hide Inv;
      RxTimeoutKeeps(Abs(), b, k);
      var w := boxes[b].rx[k];
      boxes := boxes[b := boxes[b].(rx := RemoveAt(boxes[b].rx, k))];
      woken := woken[w.thread := TimedOut];
      spots := spots[w.info := Loose];
    }
  }

  lemma ReceiversKnown(s: State, b: Mbox)
    requires Inv(s) && b in s.boxes
    ensures forall w :: w in s.boxes[b].rx ==> w.info in s.rxs
  {
    hide Inv, ListOk, NoMatch;
    forall w | w in s.boxes[b].rx ensures w.info in s.rxs {
      Here(s, None, Some(w.info), Some(b));
    }
  }

  lemma SendersKnown(s: State, b: Mbox)
    requires Inv(s) && b in s.boxes
    ensures forall w :: w in s.boxes[b].tx ==> w.info in s.txs
  {
    hide Inv, ListOk, NoMatch;
    forall w | w in s.boxes[b].tx ensures w.info in s.txs {
      Here(s, Some(w.info), None, Some(b));
    }
  }
}
