/**
 Work queues (kernel/work.c). Every critical section of the source is one step here;
 what happens between them, handlers included, is any other sequence of steps.

 Each accepted submission gets a number. The log of the model says which submissions
 have finished or been cancelled, and what every flush, drain and synchronous cancel
 was asked to wait for; it has no influence on the behaviour.
 */
module WorkQueues {
  import opened Options
  import opened Sequences

  type Item = nat
  type QueueId = nat

  /** An entry of a pending list: a submission of an item, or a flusher. */
  datatype Node = Job(item: Item, sub: nat) | Flusher(id: nat)

  /** A work item: its flag word, the queue it was last submitted to and, for delayable
      items, the queue to use later. `sub` and `runSub` number the submission that is
      queued and the one that is running. */
  datatype Work = Work(queued: bool, running: bool, canceling: bool, delayed: bool,
                       queue: Option<QueueId>, later: Option<QueueId>, sub: nat, runSub: nat)

  /** A queue and its worker thread. The worker executes `running` (the BUSY flag is
      set exactly then), sleeps on `notifyq`, or is about to look for work. */
  datatype WorkQ = WorkQ(started: bool, drain: bool, plugged: bool, pending: seq<Node>, running: Option<Node>, asleep: bool)

  datatype Canceller = Canceller(id: nat, item: Item)
  datatype Drainer = Drainer(queue: QueueId, subs: set<nat>)

  datatype Log = Log(
    owner: seq<Item>,              // the item of each submission
    done: set<nat>,                // submissions that finished or were cancelled
    flush: map<nat, set<nat>>,     // what each flusher waits for
    flushed: set<nat>,             // flushers whose semaphore was given
    drain: map<nat, Drainer>,      // what each drain waits for
    drained: set<nat>,             // drain callers that were woken
    cancel: map<nat, nat>,         // the submission each synchronous cancel waits for
    released: set<nat>)            // cancellers whose semaphore was given

  datatype State = State(works: map<Item, Work>, queues: map<QueueId, WorkQ>, cancels: seq<Canceller>, log: Log)

  /** The submissions in a stretch of a pending list. */
  function Subs(nodes: seq<Node>): set<nat> {
    set n | n in nodes && n.Job? :: n.sub
  }

  function Current(k: WorkQ): set<nat> {
    if k.running.Some? && k.running.value.Job? then {k.running.value.sub} else {}
  }

  // ----- what every reachable state keeps -----

  /** Submission `t` of item `i` is still outstanding. */
  ghost predicate Live(log: Log, i: Item, t: nat) {
    t < |log.owner| && log.owner[t] == i && t !in log.done
  }

  /** An item is on the pending list of its own queue when it is QUEUED, is executed by
      its own queue when it is RUNNING, and is CANCELING only while it runs. */
  ghost predicate WorkOk(s: State, i: Item)
    requires i in s.works
  {
    var w := s.works[i];
    && (w.queue.Some? ==> w.queue.value in s.queues) && (w.later.Some? ==> w.later.value in s.queues)
    && (w.queued || w.running ==> w.queue.Some?)
    && (w.queued ==> Job(i, w.sub) in s.queues[w.queue.value].pending && Live(s.log, i, w.sub))
    && (w.running ==> s.queues[w.queue.value].running == Some(Job(i, w.runSub)) && Live(s.log, i, w.runSub))
    && (w.queued && w.running ==> w.sub != w.runSub)
    && (w.canceling ==> w.running && !w.queued)
  }

  /** Conversely, what a pending list holds is QUEUED there. */
  ghost predicate ListedOk(s: State, q: QueueId, n: Node) {
    n.Job? ==> n.item in s.works && s.works[n.item].queued && s.works[n.item].queue == Some(q) && s.works[n.item].sub == n.sub
  }

  /** And what a worker executes is RUNNING there. */
  ghost predicate RunningOk(s: State, q: QueueId)
    requires q in s.queues
  {
    var r := s.queues[q].running;
    r.Some? && r.value.Job? ==>
      && r.value.item in s.works && s.works[r.value.item].running
      && s.works[r.value.item].queue == Some(q) && s.works[r.value.item].runSub == r.value.sub
  }

  /** Nothing is listed twice, and a sleeping worker has nothing to do. */
  ghost predicate ShapeOk(k: WorkQ) {
    && (forall i, j :: 0 <= i < j < |k.pending| ==> k.pending[i] != k.pending[j])
    && (k.asleep ==> k.pending == [] && !k.drain && k.running == None)
  }

  /** What a flusher at position `p` waits for is over, is running, or is ahead of it. */
  ghost predicate FlushesBy(k: WorkQ, log: Log, p: nat)
    requires p < |k.pending| && k.pending[p].Flusher?
  {
    && k.pending[p].id in log.flush
    && log.flush[k.pending[p].id] <= log.done + Current(k) + Subs(k.pending[..p])
  }

  ghost predicate FlushersOk(k: WorkQ, log: Log) {
    && (forall p :: 0 <= p < |k.pending| && k.pending[p].Flusher? ==> FlushesBy(k, log, p))
    && (k.running.Some? && k.running.value.Flusher? ==>
          k.running.value.id in log.flush && log.flush[k.running.value.id] <= log.done)
  }

  /** What a drain caller waits for is over, running or listed, and the queue is marked. */
  ghost predicate DrainOk(queues: map<QueueId, WorkQ>, log: Log, d: nat)
    requires d in log.drain
  {
    var r := log.drain[d];
    if d in log.drained then r.subs <= log.done
    else r.queue in queues && queues[r.queue].drain
         && r.subs <= log.done + Current(queues[r.queue]) + Subs(queues[r.queue].pending)
  }

  /** What a synchronous cancel waits for is over or still running. */
  ghost predicate CancelOk(works: map<Item, Work>, log: Log, c: Canceller) {
    && c.id in log.cancel && c.item in works
    && (log.cancel[c.id] in log.done || (works[c.item].running && works[c.item].runSub == log.cancel[c.id]))
  }

  /** Whoever has been released got what was asked for. */
  ghost predicate LogOk(log: Log) {
    && (forall t :: t in log.done ==> t < |log.owner|)
    && (forall f :: f in log.flushed ==> f in log.flush && log.flush[f] <= log.done)
    && (forall d :: d in log.drained ==> d in log.drain)
    && (forall c :: c in log.released ==> c in log.cancel && log.cancel[c] in log.done)
  }

  /** The invariant without the parts that look at positions in pending lists. */
  ghost predicate Core(s: State) {
    && (forall i :: i in s.works ==> WorkOk(s, i))
    && (forall q, n :: q in s.queues && n in s.queues[q].pending ==> ListedOk(s, q, n))
    && (forall q :: q in s.queues ==> RunningOk(s, q))
    && (forall j :: 0 <= j < |s.cancels| ==> CancelOk(s.works, s.log, s.cancels[j]))
    && LogOk(s.log)
  }

  ghost predicate Inv(s: State) {
    && Core(s)
    && (forall q :: q in s.queues ==> ShapeOk(s.queues[q]))
    && (forall q :: q in s.queues ==> FlushersOk(s.queues[q], s.log))
    && (forall d :: d in s.log.drain ==> DrainOk(s.queues, s.log, d))
  }

  // ----- pending lists -----

  function InsertAt(p: seq<Node>, k: nat, n: Node): seq<Node>
    requires k <= |p|
  {
    p[..k] + [n] + p[k..]
  }

  /** More submissions done, or a new flusher registered, harms no other flusher. */
  lemma FlushersGrow(k: WorkQ, log: Log, log': Log)
    requires FlushersOk(k, log) && log.done <= log'.done
    requires forall f :: f in log.flush ==> f in log'.flush && log'.flush[f] == log.flush[f]
    ensures FlushersOk(k, log')
  {
    forall p | 0 <= p < |k.pending| && k.pending[p].Flusher? ensures FlushesBy(k, log', p) {
      assert FlushesBy(k, log, p);
    }
  }

  lemma FlushersInsert(k: WorkQ, log: Log, at: nat, n: Node, asleep: bool)
    requires FlushersOk(k, log) && at <= |k.pending|
    requires n.Flusher? ==> n.id in log.flush && log.flush[n.id] <= log.done + Current(k) + Subs(k.pending[..at])
    ensures FlushersOk(k.(pending := InsertAt(k.pending, at, n), asleep := asleep), log)
  {
    var k' := k.(pending := InsertAt(k.pending, at, n), asleep := asleep);
    forall p | 0 <= p < |k'.pending| && k'.pending[p].Flusher? ensures FlushesBy(k', log, p) {
      if p < at {
        assert k'.pending[..p] == k.pending[..p] && FlushesBy(k, log, p);
      } else if p == at {
        assert k'.pending[..p] == k.pending[..p];
      } else {
        assert FlushesBy(k, log, p - 1);
        assert forall m :: m in k.pending[..p - 1] ==> m in k'.pending[..p] by {
          assert k'.pending[..p] == k.pending[..at] + [n] + k.pending[at..p - 1];
          assert k.pending[..p - 1] == k.pending[..at] + k.pending[at..p - 1];
        }
      }
    }
  }

  lemma FlushersRemove(k: WorkQ, log: Log, at: nat)
    requires FlushersOk(k, log) && at < |k.pending| && k.pending[at].Job?
    ensures FlushersOk(k.(pending := RemoveAt(k.pending, at)), log.(done := log.done + {k.pending[at].sub}))
  {
    var k' := k.(pending := RemoveAt(k.pending, at));
    var log' := log.(done := log.done + {k.pending[at].sub});
    forall p | 0 <= p < |k'.pending| && k'.pending[p].Flusher? ensures FlushesBy(k', log', p) {
      if p < at {
        assert k'.pending[..p] == k.pending[..p] && FlushesBy(k, log, p);
      } else {
        assert FlushesBy(k, log, p + 1);
        assert k'.pending[..p] == k.pending[..at] + k.pending[at + 1..p + 1];
        assert k.pending[..p + 1] == k.pending[..at] + [k.pending[at]] + k.pending[at + 1..p + 1];
      }
    }
  }

  lemma FlushersTake(k: WorkQ, log: Log)
    requires FlushersOk(k, log) && k.running == None && k.pending != []
    ensures FlushersOk(k.(pending := k.pending[1..], running := Some(k.pending[0])), log)
  {
    var k' := k.(pending := k.pending[1..], running := Some(k.pending[0]));
    forall p | 0 <= p < |k'.pending| && k'.pending[p].Flusher? ensures FlushesBy(k', log, p) {
      assert FlushesBy(k, log, p + 1);
      assert k.pending[..p + 1] == [k.pending[0]] + k'.pending[..p];
    }
    if k.pending[0].Flusher? {
      assert FlushesBy(k, log, 0);
      assert k.pending[..0] == [];
    }
  }

  lemma FlushersFinish(k: WorkQ, log: Log)
    requires FlushersOk(k, log)
    ensures FlushersOk(k.(running := None), log.(done := log.done + Current(k)))
  {
    var k' := k.(running := None);
    forall p | 0 <= p < |k'.pending| && k'.pending[p].Flusher?
      ensures FlushesBy(k', log.(done := log.done + Current(k)), p)
    {
      assert FlushesBy(k, log, p);
    }
  }

  lemma SubsInsert(p: seq<Node>, at: nat, n: Node)
    requires at <= |p|
    ensures Subs(p) <= Subs(InsertAt(p, at, n))
  {
    assert p == p[..at] + p[at..];
  }

  lemma SubsRemove(p: seq<Node>, at: nat)
    requires at < |p|
    ensures Subs(p) <= Subs(RemoveAt(p, at)) + (if p[at].Job? then {p[at].sub} else {})
  {
    assert p == p[..at] + [p[at]] + p[at + 1..];
  }

  // ----- steps -----

  /** An accepted submission: appended to the pending list, the worker notified. */
  function Enqueue(s: State, i: Item, q: QueueId): State
    requires i in s.works && q in s.queues
  {
    var t := |s.log.owner|;
    var k := s.queues[q];
    s.(works := s.works[i := s.works[i].(queued := true, queue := Some(q), sub := t)],
       queues := s.queues[q := k.(pending := InsertAt(k.pending, |k.pending|, Job(i, t)), asleep := false)],
       log := s.log.(owner := s.log.owner + [i]))
  }

  ghost predicate CanEnqueue(s: State, i: Item, q: QueueId) {
    && i in s.works && q in s.queues && !s.works[i].queued && !s.works[i].canceling
    && (s.works[i].running ==> s.works[i].queue == Some(q))
  }

  lemma EnqueueCore(s: State, i: Item, q: QueueId)
    requires Core(s) && CanEnqueue(s, i, q)
    ensures Core(Enqueue(s, i, q))
  {
    var s' := Enqueue(s, i, q);
    var t := |s.log.owner|;
    assert s'.queues[q].pending == s.queues[q].pending + [Job(i, t)];
    forall j | j in s'.works ensures WorkOk(s', j) {
      assert WorkOk(s, j);
    }
    forall r, n | r in s'.queues && n in s'.queues[r].pending ensures ListedOk(s', r, n) {
      if n != Job(i, t) { assert ListedOk(s, r, n); }
    }
    forall r | r in s'.queues ensures RunningOk(s', r) {
      assert RunningOk(s, r);
    }
  }

  lemma EnqueueKeeps(s: State, i: Item, q: QueueId)
    requires Inv(s) && CanEnqueue(s, i, q)
    ensures Inv(Enqueue(s, i, q))
  {
    hide WorkOk, RunningOk, FlushersOk, LogOk, Subs;
    var s' := Enqueue(s, i, q);
    var k, n := s.queues[q], Job(i, |s.log.owner|);
    EnqueueCore(s, i, q);
    assert n in k.pending ==> ListedOk(s, q, n);
    FlushersInsert(k, s.log, |k.pending|, n, false);
    SubsInsert(k.pending, |k.pending|, n);
    forall r | r in s'.queues ensures FlushersOk(s'.queues[r], s'.log) {
      FlushersGrow(if r == q then s'.queues[q] else s.queues[r], s.log, s'.log);
    }
    forall d | d in s'.log.drain ensures DrainOk(s'.queues, s'.log, d) {
      assert DrainOk(s.queues, s.log, d);
    }
  }

  /** A cancellation takes a queued item off its list; that submission is over. */
  function Dequeue(s: State, i: Item): State
    requires i in s.works && WorkOk(s, i) && s.works[i].queued
  {
    var w := s.works[i];
    var k := s.queues[w.queue.value];
    s.(works := s.works[i := w.(queued := false)],
       queues := s.queues[w.queue.value := k.(pending := RemoveAt(k.pending, IndexOf(k.pending, Job(i, w.sub))))],
       log := s.log.(done := s.log.done + {w.sub}))
  }

  lemma RemoveDistinct(p: seq<Node>, at: nat)
    requires at < |p| && forall i, j :: 0 <= i < j < |p| ==> p[i] != p[j]
    ensures var r := RemoveAt(p, at);
      && (forall i, j :: 0 <= i < j < |r| ==> r[i] != r[j])
      && (forall n :: n in r <==> n in p && n != p[at])
  {
    assert p == p[..at] + [p[at]] + p[at + 1..];
  }

  lemma DequeueCore(s: State, i: Item)
    requires Inv(s) && i in s.works && WorkOk(s, i) && s.works[i].queued
    ensures Core(Dequeue(s, i))
  {
    hide ShapeOk, FlushersOk, DrainOk, IndexOf, RemoveAt;
    var s' := Dequeue(s, i);
    var q, t := s.works[i].queue.value, s.works[i].sub;
    var p := s.queues[q].pending;
    assert forall n :: n in s'.queues[q].pending <==> n in p && n != Job(i, t) by {
      Distinct(s.queues[q]);
      RemoveDistinct(p, IndexOf(p, Job(i, t)));
    }
    forall j | j in s'.works ensures WorkOk(s', j) {
      assert WorkOk(s, j);
    }
    forall r, n | r in s'.queues && n in s'.queues[r].pending ensures ListedOk(s', r, n) {
      assert ListedOk(s, r, n);
    }
    forall r | r in s'.queues ensures RunningOk(s', r) {
      assert RunningOk(s, r);
    }
    forall j | 0 <= j < |s'.cancels| ensures CancelOk(s'.works, s'.log, s'.cancels[j]) {
      assert CancelOk(s.works, s.log, s.cancels[j]);
    }
  }

  lemma Distinct(k: WorkQ)
    requires ShapeOk(k)
    ensures forall i, j :: 0 <= i < j < |k.pending| ==> k.pending[i] != k.pending[j]
  {
  }

  lemma DequeueKeeps(s: State, i: Item)
    requires Inv(s) && i in s.works && WorkOk(s, i) && s.works[i].queued
    ensures Inv(Dequeue(s, i))
  {
    hide RunningOk, FlushersOk, LogOk, Subs, IndexOf, RemoveAt, ListedOk;
    var s' := Dequeue(s, i);
    DequeueCore(s, i);
    var q := s.works[i].queue.value;
    var k := s.queues[q];
    var at := IndexOf(k.pending, Job(i, s.works[i].sub));
    RemoveDistinct(k.pending, at);
    FlushersRemove(k, s.log, at);
    SubsRemove(k.pending, at);
    forall r | r in s'.queues ensures FlushersOk(s'.queues[r], s'.log) {
      if r != q { FlushersGrow(s.queues[r], s.log, s'.log); }
    }
    forall d | d in s'.log.drain ensures DrainOk(s'.queues, s'.log, d) {
      assert DrainOk(s.queues, s.log, d);
    }
  }

  /** The worker takes the head of its pending list and starts on it. */
  function Take(s: State, q: QueueId): State
    requires q in s.queues && s.queues[q].pending != []
  {
    var k := s.queues[q];
    var n := k.pending[0];
    s.(works := if n.Job? && n.item in s.works
                then s.works[n.item := s.works[n.item].(queued := false, running := true, runSub := n.sub)] else s.works,
       queues := s.queues[q := k.(pending := k.pending[1..], running := Some(n))])
  }

  lemma TakeCore(s: State, q: QueueId)
    requires Inv(s) && q in s.queues && s.queues[q].pending != [] && s.queues[q].running == None
    ensures Core(Take(s, q))
  {
    hide FlushersOk, DrainOk;
    var s' := Take(s, q);
    var p := s.queues[q].pending;
    assert p == [p[0]] + p[1..];
    forall n | n in p[1..] ensures n in p && n != p[0] { }
    assert ListedOk(s, q, p[0]);
    forall j | j in s'.works ensures WorkOk(s', j) {
      assert WorkOk(s, j);
    }
    forall r, n | r in s'.queues && n in s'.queues[r].pending ensures ListedOk(s', r, n) {
      assert ListedOk(s, r, n);
    }
    forall r | r in s'.queues ensures RunningOk(s', r) {
      assert RunningOk(s, r);
    }
    forall j | 0 <= j < |s'.cancels| ensures CancelOk(s'.works, s'.log, s'.cancels[j]) {
      assert CancelOk(s.works, s.log, s.cancels[j]);
    }
  }

  lemma TakeKeeps(s: State, q: QueueId)
    requires Inv(s) && q in s.queues && s.queues[q].pending != [] && s.queues[q].running == None
    ensures Inv(Take(s, q))
  {
    hide Core, FlushersOk, Subs;
    var s' := Take(s, q);
    TakeCore(s, q);
    var k := s.queues[q];
    FlushersTake(k, s.log);
    SubsRemove(k.pending, 0);
    assert RemoveAt(k.pending, 0) == k.pending[1..];
    forall d | d in s'.log.drain ensures DrainOk(s'.queues, s'.log, d) {
      assert DrainOk(s.queues, s.log, d);
    }
  }

  /** The worker finds nothing pending: it ends a drain, if one is going on, waking
      everyone who waits for it, and goes to sleep. */
  function Sleep(s: State, q: QueueId): State
    requires q in s.queues
  {
    var k := s.queues[q];
    var woken := if k.drain then set d | d in s.log.drain && s.log.drain[d].queue == q && d !in s.log.drained else {};
    s.(queues := s.queues[q := k.(drain := false, asleep := true)],
       log := s.log.(drained := s.log.drained + woken))
  }

  lemma SleepKeeps(s: State, q: QueueId)
    requires Inv(s) && q in s.queues && s.queues[q].pending == [] && s.queues[q].running == None
    ensures Inv(Sleep(s, q))
  {
    hide Core, FlushersOk;
    var s' := Sleep(s, q);
    CoreSame(s, s');
    forall r | r in s'.queues ensures FlushersOk(s'.queues[r], s'.log) {
      FlushersGrow(s.queues[r], s.log, s'.log);
      FlushersSame(s.queues[r], s'.queues[r], s'.log);
    }
    forall d | d in s'.log.drain ensures DrainOk(s'.queues, s'.log, d) {
      assert DrainOk(s.queues, s.log, d);
    }
  }

  /** Queue flags and waiter records do not matter to the core of the invariant. */
  lemma CoreSame(s: State, s': State)
    requires Core(s) && s'.works == s.works && s'.cancels == s.cancels && s'.queues.Keys == s.queues.Keys
    requires forall q :: q in s.queues ==> s'.queues[q].pending == s.queues[q].pending && s'.queues[q].running == s.queues[q].running
    requires s'.log.owner == s.log.owner && s'.log.done == s.log.done && s'.log.cancel == s.log.cancel
    requires LogOk(s.log) ==> LogOk(s'.log)
    ensures Core(s')
  {
    forall j | j in s'.works ensures WorkOk(s', j) {
      assert WorkOk(s, j);
    }
    forall r, n | r in s'.queues && n in s'.queues[r].pending ensures ListedOk(s', r, n) {
      assert ListedOk(s, r, n);
    }
    forall r | r in s'.queues ensures RunningOk(s', r) {
      assert RunningOk(s, r);
    }
    forall j | 0 <= j < |s'.cancels| ensures CancelOk(s'.works, s'.log, s'.cancels[j]) {
      assert CancelOk(s.works, s.log, s.cancels[j]);
    }
  }

  lemma FlushersSame(k: WorkQ, k': WorkQ, log: Log)
    requires FlushersOk(k, log) && k'.pending == k.pending && k'.running == k.running
    ensures FlushersOk(k', log)
  {
    forall p | 0 <= p < |k'.pending| && k'.pending[p].Flusher? ensures FlushesBy(k', log, p) {
      assert FlushesBy(k, log, p);
    }
  }

  /** Position of the first canceller waiting for an item, or the length of the list. */
  function FirstFor(cs: seq<Canceller>, i: Item): (k: nat)
    ensures k <= |cs| && (k < |cs| ==> cs[k].item == i)
    ensures forall j :: 0 <= j < k ==> cs[j].item != i
  {
    if cs == [] || cs[0].item == i then 0 else 1 + FirstFor(cs[1..], i)
  }

  /** The worker is done with what it was executing. A flusher's semaphore is given; an
      item that was being cancelled stops being so and one canceller is released. */
  function Finish(s: State, q: QueueId): State
    requires q in s.queues && s.queues[q].running.Some?
  {
    var k := s.queues[q];
    var s1 := s.(queues := s.queues[q := k.(running := None)]);
    match k.running.value
    case Flusher(f) => s1.(log := s.log.(flushed := s.log.flushed + {f}))
    case Job(i, t) =>
      if i !in s.works then s1
      else
        var w := s.works[i];
        var at := FirstFor(s.cancels, i);
        var hit := w.canceling && at < |s.cancels|;
        s1.(works := s.works[i := w.(running := false, canceling := false)],
            cancels := if hit then s.cancels[..at] + s.cancels[at + 1..] else s.cancels,
            log := s.log.(done := s.log.done + {t},
                          released := s.log.released + if hit then {s.cancels[at].id} else {}))
  }

  lemma FinishFlusherKeeps(s: State, q: QueueId)
    requires Inv(s) && q in s.queues && s.queues[q].running.Some? && s.queues[q].running.value.Flusher?
    ensures Inv(Finish(s, q))
    ensures var f := s.queues[q].running.value.id; f in s.log.flush && s.log.flush[f] <= s.log.done
  {
    var s' := Finish(s, q);
    assert FlushersOk(s.queues[q], s.log);
    forall j | j in s'.works ensures WorkOk(s', j) {
      assert WorkOk(s, j);
    }
    forall r, n | r in s'.queues && n in s'.queues[r].pending ensures ListedOk(s', r, n) {
      assert ListedOk(s, r, n);
    }
    forall r | r in s'.queues ensures RunningOk(s', r) {
      assert RunningOk(s, r);
    }
    forall r | r in s'.queues ensures FlushersOk(s'.queues[r], s'.log) {
      if r == q { FlushersFinish(s.queues[q], s.log); }
      FlushersGrow(if r == q then s'.queues[q] else s.queues[r], s.log, s'.log);
    }
    forall d | d in s'.log.drain ensures DrainOk(s'.queues, s'.log, d) {
      assert DrainOk(s.queues, s.log, d);
    }
  }

  lemma FinishJobCore(s: State, q: QueueId)
    requires Inv(s) && q in s.queues && s.queues[q].running.Some? && s.queues[q].running.value.Job?
    ensures Core(Finish(s, q))
  {
    hide FlushersOk, DrainOk, ShapeOk;
    var s' := Finish(s, q);
    var Job(i, t) := s.queues[q].running.value;
    assert RunningOk(s, q);
    assert WorkOk(s, i);
    forall j | j in s'.works ensures WorkOk(s', j) {
      assert WorkOk(s, j);
    }
    forall r, n | r in s'.queues && n in s'.queues[r].pending ensures ListedOk(s', r, n) {
      assert ListedOk(s, r, n);
    }
    forall r | r in s'.queues ensures RunningOk(s', r) {
      assert RunningOk(s, r);
    }
    forall j | 0 <= j < |s'.cancels| ensures CancelOk(s'.works, s'.log, s'.cancels[j]) {
      assert s'.cancels[j] in s.cancels;
    }
    assert LogOk(s'.log) by {
      var at := FirstFor(s.cancels, i);
      if at < |s.cancels| { assert CancelOk(s.works, s.log, s.cancels[at]); }
    }
  }

  lemma FinishJobKeeps(s: State, q: QueueId)
    requires Inv(s) && q in s.queues && s.queues[q].running.Some? && s.queues[q].running.value.Job?
    ensures Inv(Finish(s, q))
    ensures s.queues[q].running.value.sub in Finish(s, q).log.done
  {
    hide Core, FlushersOk, Subs;
    var s' := Finish(s, q);
    FinishJobCore(s, q);
    RunningItem(s, q);
    FlushersFinish(s.queues[q], s.log);
    forall r | r in s'.queues ensures FlushersOk(s'.queues[r], s'.log) {
      if r == q {
        FlushersGrow(s'.queues[q], s.log.(done := s.log.done + Current(s.queues[q])), s'.log);
      } else {
        FlushersGrow(s.queues[r], s.log, s'.log);
      }
    }
    forall d | d in s'.log.drain ensures DrainOk(s'.queues, s'.log, d) {
      assert DrainOk(s.queues, s.log, d);
    }
  }

  lemma RunningItem(s: State, q: QueueId)
    requires Inv(s) && q in s.queues && s.queues[q].running.Some? && s.queues[q].running.value.Job?
    ensures s.queues[q].running.value.item in s.works
  {
    assert RunningOk(s, q);
  }

  /** The submissions of an item that are queued or running. */
  function Outstanding(w: Work): set<nat> {
    (if w.queued then {w.sub} else {}) + (if w.running then {w.runSub} else {})
  }

  /** A flusher goes right behind the item when that is listed, and to the front of the
      list when the item is running only. */
  function AddFlusher(s: State, i: Item, f: nat): State
    requires i in s.works && WorkOk(s, i) && (s.works[i].queued || s.works[i].running)
  {
    var w := s.works[i];
    var k := s.queues[w.queue.value];
    var at := if w.queued then IndexOf(k.pending, Job(i, w.sub)) + 1 else 0;
    s.(queues := s.queues[w.queue.value := k.(pending := InsertAt(k.pending, at, Flusher(f)), asleep := false)],
       log := s.log.(flush := s.log.flush[f := Outstanding(w)]))
  }

  lemma InsertMembers(p: seq<Node>, at: nat, n: Node)
    requires at <= |p|
    ensures |InsertAt(p, at, n)| == |p| + 1 && forall m :: m in InsertAt(p, at, n) <==> m == n || m in p
    ensures n !in p && (forall i, j :: 0 <= i < j < |p| ==> p[i] != p[j]) ==>
      forall i, j :: 0 <= i < j < |p| + 1 ==> InsertAt(p, at, n)[i] != InsertAt(p, at, n)[j]
  {
    assert p == p[..at] + p[at..];
  }

  lemma AddFlusherCore(s: State, i: Item, f: nat)
    requires Core(s) && i in s.works && WorkOk(s, i) && (s.works[i].queued || s.works[i].running) && f !in s.log.flush
    ensures Core(AddFlusher(s, i, f))
  {
    hide InsertAt, IndexOf;
    var s' := AddFlusher(s, i, f);
    var w := s.works[i];
    var k := s.queues[w.queue.value];
    InsertMembers(k.pending, if w.queued then IndexOf(k.pending, Job(i, w.sub)) + 1 else 0, Flusher(f));
    forall j | j in s'.works ensures WorkOk(s', j) {
      assert WorkOk(s, j);
    }
    forall r, n | r in s'.queues && n in s'.queues[r].pending ensures ListedOk(s', r, n) {
      if n != Flusher(f) { assert ListedOk(s, r, n); }
    }
    forall r | r in s'.queues ensures RunningOk(s', r) {
      assert RunningOk(s, r);
    }
    forall j | 0 <= j < |s'.cancels| ensures CancelOk(s'.works, s'.log, s'.cancels[j]) {
      assert CancelOk(s.works, s.log, s.cancels[j]);
    }
  }

  /** Everything the flusher waits for is running or ahead of its place. */
  lemma FlusherPlace(s: State, i: Item)
    requires i in s.works && WorkOk(s, i) && (s.works[i].queued || s.works[i].running)
    ensures var w := s.works[i]; var k := s.queues[w.queue.value];
      Outstanding(w) <= Current(k) + Subs(k.pending[..if w.queued then IndexOf(k.pending, Job(i, w.sub)) + 1 else 0])
  {
    var w := s.works[i];
    var p := s.queues[w.queue.value].pending;
    if w.queued {
      var at := IndexOf(p, Job(i, w.sub));
      assert p[..at + 1][at] == Job(i, w.sub);
    }
  }

  lemma AddFlusherKeeps(s: State, i: Item, f: nat)
    requires Inv(s) && i in s.works && WorkOk(s, i) && (s.works[i].queued || s.works[i].running) && f !in s.log.flush
    ensures Inv(AddFlusher(s, i, f))
  {
    hide Core, FlushersOk, Subs, IndexOf, InsertAt, Outstanding;
    var s' := AddFlusher(s, i, f);
    var w := s.works[i];
    var q := w.queue.value;
    var k := s.queues[q];
    var at := if w.queued then IndexOf(k.pending, Job(i, w.sub)) + 1 else 0;
    AddFlusherCore(s, i, f);
    FlusherPlace(s, i);
    NotListed(k, s.log, f);
    InsertMembers(k.pending, at, Flusher(f));
    SubsInsert(k.pending, at, Flusher(f));
    forall r | r in s'.queues ensures FlushersOk(s'.queues[r], s'.log) {
      FlushersGrow(s.queues[r], s.log, s'.log);
      if r == q { FlushersInsert(k, s'.log, at, Flusher(f), false); }
    }
    forall d | d in s'.log.drain ensures DrainOk(s'.queues, s'.log, d) {
      assert DrainOk(s.queues, s.log, d);
    }
  }

  lemma NotListed(k: WorkQ, log: Log, f: nat)
    requires FlushersOk(k, log) && f !in log.flush
    ensures Flusher(f) !in k.pending
  {
    forall p | 0 <= p < |k.pending| && k.pending[p].Flusher? ensures k.pending[p].id != f {
      assert FlushesBy(k, log, p);
    }
  }

  /** Cancelling: off the list if listed, and marked if it still runs. */
  function CancelAsync(s: State, i: Item): State
    requires i in s.works && WorkOk(s, i)
  {
    var s1 := if !s.works[i].canceling && s.works[i].queued then Dequeue(s, i) else s;
    if s1.works[i].running then s1.(works := s1.works[i := s1.works[i].(canceling := true)]) else s1
  }

  /** Changing CANCELING or DELAYED, or the queue for later, within what is allowed. */
  lemma MarkKeeps(s: State, i: Item, w: Work)
    requires Inv(s) && i in s.works
    requires w == s.works[i].(canceling := w.canceling, delayed := w.delayed, later := w.later)
    requires (w.canceling ==> w.running && !w.queued) && (w.later.Some? ==> w.later.value in s.queues)
    ensures Inv(s.(works := s.works[i := w]))
  {
    hide FlushersOk, ShapeOk, DrainOk;
    var s' := s.(works := s.works[i := w]);
    forall j | j in s'.works ensures WorkOk(s', j) {
      assert WorkOk(s, j);
    }
    forall r, n | r in s'.queues && n in s'.queues[r].pending ensures ListedOk(s', r, n) {
      assert ListedOk(s, r, n);
    }
    forall r | r in s'.queues ensures RunningOk(s', r) {
      assert RunningOk(s, r);
    }
    forall j | 0 <= j < |s'.cancels| ensures CancelOk(s'.works, s'.log, s'.cancels[j]) {
      assert CancelOk(s.works, s.log, s.cancels[j]);
    }
  }

  lemma ItemOk(s: State, i: Item)
    requires Inv(s) && i in s.works
    ensures WorkOk(s, i)
  {
  }

  lemma CancelAsyncKeeps(s: State, i: Item)
    requires Inv(s) && i in s.works && WorkOk(s, i)
    ensures Inv(CancelAsync(s, i))
    ensures var w := CancelAsync(s, i).works[i]; !w.queued && (w.canceling <==> w.running)
  {
    if !s.works[i].canceling && s.works[i].queued { DequeueKeeps(s, i); }
    var s1 := if !s.works[i].canceling && s.works[i].queued then Dequeue(s, i) else s;
    ItemOk(s1, i);
    if s1.works[i].running { MarkKeeps(s1, i, s1.works[i].(canceling := true)); }
  }

  /** A synchronous cancel queues up for the end of the current execution. */
  function AddCanceller(s: State, i: Item, c: nat): State
    requires i in s.works
  {
    s.(cancels := s.cancels + [Canceller(c, i)], log := s.log.(cancel := s.log.cancel[c := s.works[i].runSub]))
  }

  lemma AddCancellerKeeps(s: State, i: Item, c: nat)
    requires Inv(s) && i in s.works && s.works[i].running && c !in s.log.cancel
    ensures Inv(AddCanceller(s, i, c))
  {
    hide Subs, ShapeOk;
    var s' := AddCanceller(s, i, c);
    forall j | j in s'.works ensures WorkOk(s', j) {
      assert WorkOk(s, j);
    }
    forall r, n | r in s'.queues && n in s'.queues[r].pending ensures ListedOk(s', r, n) {
      assert ListedOk(s, r, n);
    }
    forall r | r in s'.queues ensures RunningOk(s', r) {
      assert RunningOk(s, r);
    }
    forall j | 0 <= j < |s'.cancels| ensures CancelOk(s'.works, s'.log, s'.cancels[j]) {
      if j < |s.cancels| { assert CancelOk(s.works, s.log, s.cancels[j]); }
    }
    forall r | r in s'.queues ensures FlushersOk(s'.queues[r], s'.log) {
      FlushersGrow(s.queues[r], s.log, s'.log);
    }
    forall d | d in s'.log.drain ensures DrainOk(s'.queues, s'.log, d) {
      assert DrainOk(s.queues, s.log, d);
    }
  }

  /** A drain request marks the queue, notifies the worker and waits. */
  function AddDrain(s: State, q: QueueId, d: nat, plug: bool): State
    requires q in s.queues
  {
    var k := s.queues[q];
    s.(queues := s.queues[q := k.(drain := true, plugged := k.plugged || plug, asleep := false)],
       log := s.log.(drain := s.log.drain[d := Drainer(q, Current(k) + Subs(k.pending))]))
  }

  lemma AddDrainKeeps(s: State, q: QueueId, d: nat, plug: bool)
    requires Inv(s) && q in s.queues && d !in s.log.drain
    ensures Inv(AddDrain(s, q, d, plug))
  {
    hide Core, FlushersOk, Subs;
    var s' := AddDrain(s, q, d, plug);
    Undrained(s, d);
    CoreSame(s, s');
    forall r | r in s'.queues ensures FlushersOk(s'.queues[r], s'.log) {
      FlushersGrow(s.queues[r], s.log, s'.log);
      FlushersSame(s.queues[r], s'.queues[r], s'.log);
    }
    forall e | e in s'.log.drain ensures DrainOk(s'.queues, s'.log, e) {
      if e != d { assert DrainOk(s.queues, s.log, e); }
    }
  }

  lemma Undrained(s: State, d: nat)
    requires Core(s) && d !in s.log.drain
    ensures d !in s.log.drained
  {
  }

  /** Whether a queue takes work does not touch the work it has. */
  function WithFlags(s: State, q: QueueId, started: bool, plugged: bool): State
    requires q in s.queues
  {
    s.(queues := s.queues[q := s.queues[q].(started := started, plugged := plugged)])
  }

  // ----- every run -----

  datatype Step =
    | DoEnqueue(i: Item, q: QueueId)
    | DoFlush(i: Item, f: nat)
    | DoCancel(i: Item)
    | DoCancelSync(i: Item, c: nat)
    | DoTake(q: QueueId)
    | DoSleep(q: QueueId)
    | DoFinish(q: QueueId)
    | DoDrain(q: QueueId, d: nat, plug: bool)
    | DoUnplug(q: QueueId)
    | DoStart(q: QueueId)
    | DoDelay(i: Item, delayed: bool, later: Option<QueueId>)

  /** What must hold for a step to be taken. */
  ghost predicate Enabled(s: State, step: Step) {
    match step
    case DoEnqueue(i, q) => CanEnqueue(s, i, q)
    case DoFlush(i, f) => i in s.works && WorkOk(s, i) && (s.works[i].queued || s.works[i].running) && f !in s.log.flush
    case DoCancel(i) => i in s.works && WorkOk(s, i)
    case DoCancelSync(i, c) => i in s.works && s.works[i].running && c !in s.log.cancel
    case DoTake(q) => q in s.queues && s.queues[q].pending != [] && s.queues[q].running == None
    case DoSleep(q) => q in s.queues && s.queues[q].pending == [] && s.queues[q].running == None
    case DoFinish(q) => q in s.queues && s.queues[q].running.Some?
    case DoDrain(q, d, _) => q in s.queues && d !in s.log.drain
    case DoUnplug(q) => q in s.queues
    case DoStart(q) => q in s.queues
    case DoDelay(i, _, later) => i in s.works && (later.Some? ==> later.value in s.queues)
  }

  ghost function Do(s: State, step: Step): State {
    if !Enabled(s, step) then s
    else
      match step
      case DoEnqueue(i, q) => Enqueue(s, i, q)
      case DoFlush(i, f) => AddFlusher(s, i, f)
      case DoCancel(i) => CancelAsync(s, i)
      case DoCancelSync(i, c) => AddCanceller(s, i, c)
      case DoTake(q) => Take(s, q)
      case DoSleep(q) => Sleep(s, q)
      case DoFinish(q) => Finish(s, q)
      case DoDrain(q, d, plug) => AddDrain(s, q, d, plug)
      case DoUnplug(q) => WithFlags(s, q, s.queues[q].started, false)
      case DoStart(q) => WithFlags(s, q, true, s.queues[q].plugged)
      case DoDelay(i, delayed, later) => s.(works := s.works[i := s.works[i].(delayed := delayed, later := later)])
  }

  ghost function RunAll(s: State, steps: seq<Step>): State
    decreases |steps|
  {
    if steps == [] then s else RunAll(Do(s, steps[0]), steps[1..])
  }

  lemma FlagsKeep(s: State, q: QueueId, started: bool, plugged: bool)
    requires Inv(s) && q in s.queues
    ensures Inv(WithFlags(s, q, started, plugged))
  {
    hide Core, FlushersOk, Subs;
    var s' := WithFlags(s, q, started, plugged);
    CoreSame(s, s');
    FlushersSame(s.queues[q], s'.queues[q], s.log);
    forall d | d in s'.log.drain ensures DrainOk(s'.queues, s'.log, d) {
      assert DrainOk(s.queues, s.log, d);
    }
  }

  /** Every step keeps the invariant, whichever thread takes it and whenever. */
  lemma StepKeeps(s: State, step: Step)
    requires Inv(s)
    ensures Inv(Do(s, step))
  {
    hide Inv, WorkOk, Enqueue, AddFlusher, CancelAsync, AddCanceller, Take, Sleep, Finish, AddDrain;
    if Enabled(s, step) {
      match step
      case DoEnqueue(i, q) => EnqueueKeeps(s, i, q);
      case DoFlush(i, f) => AddFlusherKeeps(s, i, f);
      case DoCancel(i) => CancelAsyncKeeps(s, i);
      case DoCancelSync(i, c) => AddCancellerKeeps(s, i, c);
      case DoTake(q) => TakeKeeps(s, q);
      case DoSleep(q) => SleepKeeps(s, q);
      case DoFinish(q) =>
        if s.queues[q].running.value.Job? { FinishJobKeeps(s, q); } else { FinishFlusherKeeps(s, q); }
      case DoDrain(q, d, plug) => AddDrainKeeps(s, q, d, plug);
      case DoUnplug(q) => FlagsKeep(s, q, s.queues[q].started, false);
      case DoStart(q) => FlagsKeep(s, q, true, s.queues[q].plugged);
      case DoDelay(i, delayed, later) =>
        CancelingRuns(s, i);
        MarkKeeps(s, i, s.works[i].(delayed := delayed, later := later));
    }
  }

  lemma CancelingRuns(s: State, i: Item)
    requires Inv(s) && i in s.works
    ensures s.works[i].canceling ==> s.works[i].running && !s.works[i].queued
  {
    ItemOk(s, i);
  }

  /** What someone waits for is never forgotten or altered, and what is over stays over. */
  lemma StepRemembers(s: State, step: Step)
    ensures var l, l' := s.log, Do(s, step).log;
      && l.done <= l'.done
      && (forall f :: f in l.flush ==> f in l'.flush && l'.flush[f] == l.flush[f])
      && (forall d :: d in l.drain ==> d in l'.drain && l'.drain[d] == l.drain[d])
      && (forall c :: c in l.cancel ==> c in l'.cancel && l'.cancel[c] == l.cancel[c])
  {
    hide IndexOf, InsertAt, RemoveAt, FirstFor, WorkOk;
  }

  lemma {:induction false} RunKeeps(s: State, steps: seq<Step>)
    requires Inv(s)
    ensures Inv(RunAll(s, steps))
    ensures var l, l' := s.log, RunAll(s, steps).log;
      && l.done <= l'.done
      && (forall f :: f in l.flush ==> f in l'.flush && l'.flush[f] == l.flush[f])
      && (forall d :: d in l.drain ==> d in l'.drain && l'.drain[d] == l.drain[d])
      && (forall c :: c in l.cancel ==> c in l'.cancel && l'.cancel[c] == l.cancel[c])
    decreases |steps|
  {
    hide Inv, Do;
    if steps != [] {
      StepKeeps(s, steps[0]);
      StepRemembers(s, steps[0]);
      RunKeeps(Do(s, steps[0]), steps[1..]);
    }
  }

  /** Flush is sound. Whatever happens after the call, once the flusher's semaphore has
      been given the submission that was queued at the call and the one that was running
      have finished or been cancelled. */
  lemma FlushIsSound(s: State, i: Item, f: nat, steps: seq<Step>)
    requires Inv(s) && Enabled(s, DoFlush(i, f))
    ensures var s' := RunAll(AddFlusher(s, i, f), steps);
      f in s'.log.flushed ==>
        && (s.works[i].queued ==> s.works[i].sub in s'.log.done)
        && (s.works[i].running ==> s.works[i].runSub in s'.log.done)
  {
    AddFlusherKeeps(s, i, f);
    RunKeeps(AddFlusher(s, i, f), steps);
    var s' := RunAll(AddFlusher(s, i, f), steps);
    assert LogOk(s'.log);
    assert s'.log.flush[f] == Outstanding(s.works[i]);
  }

  /** Drain is sound: its caller is woken only after everything that was pending or
      running on the queue at the call has finished or been cancelled. */
  lemma DrainIsSound(s: State, q: QueueId, d: nat, plug: bool, steps: seq<Step>)
    requires Inv(s) && Enabled(s, DoDrain(q, d, plug))
    ensures var s' := RunAll(AddDrain(s, q, d, plug), steps);
      d in s'.log.drained ==> Current(s.queues[q]) + Subs(s.queues[q].pending) <= s'.log.done
  {
    hide Core, Subs;
    AddDrainKeeps(s, q, d, plug);
    RunKeeps(AddDrain(s, q, d, plug), steps);
    var s' := RunAll(AddDrain(s, q, d, plug), steps);
    assert DrainOk(s'.queues, s'.log, d);
  }

  /** A synchronous cancel is sound: its caller is released only after the execution it
      found has ended. */
  lemma CancelIsSound(s: State, i: Item, c: nat, steps: seq<Step>)
    requires Inv(s) && Enabled(s, DoCancelSync(i, c))
    ensures var s' := RunAll(AddCanceller(s, i, c), steps);
      c in s'.log.released ==> s.works[i].runSub in s'.log.done
  {
    AddCancellerKeeps(s, i, c);
    RunKeeps(AddCanceller(s, i, c), steps);
  }

  /** The synchronous cancels that wait. */
  function Cancellers(cs: seq<Canceller>): set<nat> {
    set j | 0 <= j < |cs| :: cs[j].id
  }

  /** Every synchronous cancel waits, and only once, or has been released. */
  ghost predicate CancelsOnce(s: State) {
    && (forall j, k :: 0 <= j < k < |s.cancels| ==> s.cancels[j].id != s.cancels[k].id)
    && Cancellers(s.cancels) !! s.log.released
    && Cancellers(s.cancels) + s.log.released == s.log.cancel.Keys
  }

  lemma CancellersRemoved(cs: seq<Canceller>, at: nat)
    requires at < |cs| && forall j, k :: 0 <= j < k < |cs| ==> cs[j].id != cs[k].id
    ensures Cancellers(cs[..at] + cs[at + 1..]) == Cancellers(cs) - {cs[at].id}
  {
    var cs' := cs[..at] + cs[at + 1..];
    forall c | c in Cancellers(cs) - {cs[at].id} ensures c in Cancellers(cs') {
      var j :| 0 <= j < |cs| && cs[j].id == c;
      assert cs'[if j < at then j else j - 1] == cs[j];
    }
  }

  lemma FinishCancelsOnce(s: State, q: QueueId)
    requires CancelsOnce(s) && q in s.queues && s.queues[q].running.Some?
    ensures CancelsOnce(Finish(s, q))
  {
    if s.queues[q].running.value.Job? {
      var at := FirstFor(s.cancels, s.queues[q].running.value.item);
      if at < |s.cancels| { CancellersRemoved(s.cancels, at); }
    }
  }

  lemma StepCancelsOnce(s: State, step: Step)
    requires CancelsOnce(s)
    ensures CancelsOnce(Do(s, step))
  {
    hide Finish, FirstFor, IndexOf, InsertAt, RemoveAt, WorkOk, CanEnqueue;
    if step.DoFinish? && Enabled(s, step) {
      FinishCancelsOnce(s, step.q);
    } else if step.DoCancelSync? && Enabled(s, step) {
      var s' := Do(s, step);
      assert Cancellers(s'.cancels) == Cancellers(s.cancels) + {step.c} by {
        assert s'.cancels[|s.cancels|].id == step.c;
        forall c | c in Cancellers(s.cancels) ensures c in Cancellers(s'.cancels) {
          var j :| 0 <= j < |s.cancels| && s.cancels[j].id == c;
          assert s'.cancels[j].id == c;
        }
      }
      forall j | 0 <= j < |s.cancels| ensures s.cancels[j].id != step.c {
        assert s.cancels[j].id in Cancellers(s.cancels);
      }
    }
  }

  /** Over every run no synchronous cancel is lost, listed twice or released twice. */
  lemma {:induction false} RunCancelsOnce(s: State, steps: seq<Step>)
    requires CancelsOnce(s)
    ensures CancelsOnce(RunAll(s, steps))
    decreases |steps|
  {
    hide CancelsOnce, Do;
    if steps != [] {
      StepCancelsOnce(s, steps[0]);
      RunCancelsOnce(Do(s, steps[0]), steps[1..]);
    }
  }

  /** No two synchronous cancels wait for the item. */
  ghost predicate OneCanceller(cs: seq<Canceller>, i: Item) {
    forall j, k :: 0 <= j < |cs| && 0 <= k < |cs| && cs[j].item == i && cs[k].item == i ==> j == k
  }

  /** When the run of an item that is being cancelled ends, of the synchronous cancels that
      wait for it exactly the first is released. */
  lemma FirstCancellerOnly(s: State, steps: seq<Step>, q: QueueId, j: nat)
    requires Inv(s) && CancelsOnce(s)
    ensures var r := RunAll(s, steps);
      q in r.queues && r.queues[q].running.Some? && r.queues[q].running.value.Job? && j < |r.cancels| ==>
        var i := r.queues[q].running.value.item;
        i in r.works && (r.works[i].canceling && r.cancels[j].item == i ==>
          (r.cancels[j].id in Finish(r, q).log.released <==> forall k :: 0 <= k < j ==> r.cancels[k].item != i))
  {
    hide Inv;
    RunKeeps(s, steps);
    RunCancelsOnce(s, steps);
    var r := RunAll(s, steps);
    if q in r.queues && r.queues[q].running.Some? && r.queues[q].running.value.Job? && j < |r.cancels| {
      RunningItem(r, q);
      assert r.cancels[j].id in Cancellers(r.cancels);
    }
  }

  /** Hence all of them are released exactly if there is no more than one. */
  lemma AllReleasedIff(s: State, steps: seq<Step>, q: QueueId)
    requires Inv(s) && CancelsOnce(s)
    ensures var r := RunAll(s, steps);
      q in r.queues && r.queues[q].running.Some? && r.queues[q].running.value.Job? ==>
        var i := r.queues[q].running.value.item;
        i in r.works && (r.works[i].canceling ==>
          ((forall j :: 0 <= j < |r.cancels| && r.cancels[j].item == i ==>
              r.cancels[j].id in Finish(r, q).log.released)
           <==> OneCanceller(r.cancels, i)))
  {
    hide Inv, CancelsOnce, Finish, FirstFor;
    RunKeeps(s, steps);
    var r := RunAll(s, steps);
    if q in r.queues && r.queues[q].running.Some? && r.queues[q].running.value.Job? {
      RunningItem(r, q);
      var i := r.queues[q].running.value.item;
      forall j | 0 <= j < |r.cancels| && r.cancels[j].item == i && r.works[i].canceling
        ensures r.cancels[j].id in Finish(r, q).log.released <==> forall k :: 0 <= k < j ==> r.cancels[k].item != i
      {
        FirstCancellerOnly(s, steps, q, j);
      }
    }
  }

  /** Cancelling an item that runs marks it, and changes nothing for whoever cancels too. */
  lemma CancelMarks(s: State, q: QueueId, i: Item, t: nat)
    requires Inv(s) && q in s.queues && s.queues[q].running == Some(Job(i, t))
    ensures Enabled(s, DoCancel(i))
    ensures var r := CancelAsync(s, i);
      && q in r.queues && r.queues[q].running == Some(Job(i, t))
      && i in r.works && r.works[i].running && r.works[i].runSub == t && r.works[i].canceling
      && r.cancels == s.cancels && r.log.cancel == s.log.cancel && r.log.released == s.log.released
  {
    hide IndexOf, RemoveAt, FlushersOk, Subs;
    assert RunningOk(s, q);
    assert WorkOk(s, i);
  }

  /** The run ends with two synchronous cancels waiting for it. */
  lemma EndOfTwo(s: State, q: QueueId, i: Item, t: nat, c: nat, d: nat)
    requires q in s.queues && s.queues[q].running == Some(Job(i, t)) && i in s.works && s.works[i].canceling
    requires s.cancels == [Canceller(c, i), Canceller(d, i)]
    ensures var r := Finish(s, q);
      && r.cancels == [Canceller(d, i)] && r.log.cancel == s.log.cancel
      && r.log.released == s.log.released + {c} && t in r.log.done
  {
    assert FirstFor(s.cancels, i) == 0;
  }

  /** Two threads that cancel the same run and wait for its end: the run ends, one of them
      is released, and the other still waits for what is over. */
  lemma SecondCancellerStranded(s: State, q: QueueId, i: Item, t: nat, c: nat, d: nat)
    requires Inv(s) && CancelsOnce(s) && q in s.queues && s.queues[q].running == Some(Job(i, t))
    requires s.cancels == [] && c != d && c !in s.log.cancel && d !in s.log.cancel
    ensures var r := RunAll(s, [DoCancel(i), DoCancelSync(i, c), DoCancelSync(i, d), DoFinish(q)]);
      && r.cancels == [Canceller(d, i)] && c in r.log.released
      && d in r.log.cancel && r.log.cancel[d] in r.log.done && d !in r.log.released
  {
    hide Inv, WorkOk, CancelAsync, Finish, FirstFor, IndexOf, RemoveAt, InsertAt;
    var steps := [DoCancel(i), DoCancelSync(i, c), DoCancelSync(i, d), DoFinish(q)];
    CancelMarks(s, q, i, t);
    var s1 := CancelAsync(s, i);
    var s2 := AddCanceller(s1, i, c);
    var s3 := AddCanceller(s2, i, d);
    EndOfTwo(s3, q, i, t, c, d);
    FourSteps(s, steps);
    assert Do(s2, DoCancelSync(i, d)) == s3 && Do(s1, DoCancelSync(i, c)) == s2;
  }

  lemma FourSteps(s: State, steps: seq<Step>)
    requires |steps| == 4
    ensures RunAll(s, steps) == Do(Do(Do(Do(s, steps[0]), steps[1]), steps[2]), steps[3])
  {
    hide Do;
    assert steps[1..][1..] == steps[2..] && steps[2..][1..] == steps[3..] && steps[3..][1..] == [];
    var s2 := Do(Do(s, steps[0]), steps[1]);
    assert RunAll(s, steps) == RunAll(s2, steps[2..]);
    assert RunAll(s2, steps[2..]) == RunAll(Do(s2, steps[2]), steps[3..]);
    assert RunAll(Do(s2, steps[2]), steps[3..]) == Do(Do(s2, steps[2]), steps[3]);
  }

  // ----- the order in which submissions run -----

  /** A pending list holds its submissions in the order in which they were made. */
  ghost predicate Increasing(p: seq<Node>) {
    forall i, j :: 0 <= i < j < |p| && p[i].Job? && p[j].Job? ==> p[i].sub < p[j].sub
  }

  ghost predicate InOrder(s: State) {
    forall q :: q in s.queues ==> Increasing(s.queues[q].pending)
  }

  /** Every submission listed on a queue, and every one still to come, is at least `m`. */
  ghost predicate Above(s: State, q: QueueId, m: nat) {
    && q in s.queues && m <= |s.log.owner|
    && forall i :: 0 <= i < |s.queues[q].pending| && s.queues[q].pending[i].Job? ==> s.queues[q].pending[i].sub >= m
  }

  lemma InsertFlusher(p: seq<Node>, at: nat, f: nat)
    requires at <= |p|
    ensures Increasing(p) ==> Increasing(InsertAt(p, at, Flusher(f)))
    ensures forall n :: n in InsertAt(p, at, Flusher(f)) <==> n == Flusher(f) || n in p
  {
    var r := InsertAt(p, at, Flusher(f));
    InsertMembers(p, at, Flusher(f));
    if Increasing(p) {
      forall i, j | 0 <= i < j < |r| && r[i].Job? && r[j].Job? ensures r[i].sub < r[j].sub {
        InsertedAt(p, at, f, i);
        InsertedAt(p, at, f, j);
        assert p[if i < at then i else i - 1].sub < p[if j < at then j else j - 1].sub;
      }
    }
  }

  lemma InsertedAt(p: seq<Node>, at: nat, f: nat, i: nat)
    requires at <= |p| && i <= |p|
    ensures InsertAt(p, at, Flusher(f))[i] == if i < at then p[i] else if i == at then Flusher(f) else p[i - 1]
  {
  }

  lemma RemoveInOrder(p: seq<Node>, at: nat)
    requires at < |p|
    ensures Increasing(p) ==> Increasing(RemoveAt(p, at))
    ensures forall n :: n in RemoveAt(p, at) ==> n in p
    ensures forall n :: n in p && n != p[at] ==> n in RemoveAt(p, at)
  {
    var r := RemoveAt(p, at);
    assert forall i :: 0 <= i < |r| ==> r[i] == p[if i < at then i else i + 1];
    assert p == p[..at] + [p[at]] + p[at + 1..];
  }

  /** What is listed on a queue has been submitted. */
  lemma ListedOld(s: State, q: QueueId, n: Node)
    requires Inv(s) && q in s.queues && n in s.queues[q].pending && n.Job?
    ensures n.sub < |s.log.owner|
  {
    assert ListedOk(s, q, n) && WorkOk(s, n.item);
  }

  lemma AppendIs(p: seq<Node>, n: Node)
    ensures InsertAt(p, |p|, n) == p + [n]
  {
  }

  /** How a step changes the list of a queue: it appends a new submission, puts a flusher
      somewhere, takes the head, removes one submission by a cancel, or leaves it alone. */
  ghost predicate ListChange(s: State, s': State, step: Step, q: QueueId)
    requires q in s.queues
  {
    && s'.queues.Keys == s.queues.Keys && |s.log.owner| <= |s'.log.owner|
    && var p, p' := s.queues[q].pending, s'.queues[q].pending;
      || p' == p
      || (step.DoEnqueue? && |s'.log.owner| == |s.log.owner| + 1 && p' == p + [Job(step.i, |s.log.owner|)])
      || (step.DoFlush? && exists at :: 0 <= at <= |p| && p' == InsertAt(p, at, Flusher(step.f)))
      || (step == DoTake(q) && Enabled(s, step) && p' == p[1..] && s'.queues[q].running == Some(p[0]))
      || (step.DoCancel? && exists at :: 0 <= at < |p| && p' == RemoveAt(p, at))
  }

  lemma StepChanges(s: State, step: Step, q: QueueId)
    requires q in s.queues
    ensures ListChange(s, Do(s, step), step, q)
    ensures step != DoTake(q) || !Enabled(s, step) || Do(s, step).queues[q].running == Some(s.queues[q].pending[0])
  {
    hide InsertAt, RemoveAt, IndexOf, FirstFor, Subs, Outstanding, Live;
    if Enabled(s, step) && step.DoEnqueue? {
      AppendIs(s.queues[step.q].pending, Job(step.i, |s.log.owner|));
    }
  }

  lemma StepInOrder(s: State, step: Step, q: QueueId, m: nat)
    requires Inv(s) && InOrder(s)
    ensures InOrder(Do(s, step))
    ensures Above(s, q, m) ==> Above(Do(s, step), q, m)
  {
    hide Inv, Do, InsertAt, RemoveAt;
    var s' := Do(s, step);
    forall r | r in s.queues ensures r in s'.queues && Increasing(s'.queues[r].pending) && (Above(s, r, m) ==> Above(s', r, m)) {
      StepChanges(s, step, r);
      ChangeInOrder(s, s', step, r, m);
    }
    if r :| r in s'.queues && r !in s.queues {
      QueuesStay(s, step, r);
    }
  }

  lemma QueuesStay(s: State, step: Step, q: QueueId)
    ensures q in Do(s, step).queues <==> q in s.queues
  {
    hide InsertAt, RemoveAt, IndexOf, FirstFor, Subs, Outstanding, Live;
  }

  lemma ChangeInOrder(s: State, s': State, step: Step, q: QueueId, m: nat)
    requires Inv(s) && q in s.queues && Increasing(s.queues[q].pending) && ListChange(s, s', step, q)
    ensures q in s'.queues && Increasing(s'.queues[q].pending) && (Above(s, q, m) ==> Above(s', q, m))
  {
    hide Inv, InsertAt, RemoveAt;
    var p, p' := s.queues[q].pending, s'.queues[q].pending;
    if step.DoFlush? && p' != p {
      var at :| 0 <= at <= |p| && p' == InsertAt(p, at, Flusher(step.f));
      InsertFlusher(p, at, step.f);
      MembersAbove(p, p', m, Flusher(step.f));
    } else if step.DoCancel? && p' != p {
      var at :| 0 <= at < |p| && p' == RemoveAt(p, at);
      RemoveInOrder(p, at);
      MembersAbove(p, p', m, p[at]);
    } else if step.DoEnqueue? && p' != p {
      forall i | 0 <= i < |p| && p[i].Job? ensures p[i].sub < |s.log.owner| {
        ListedOld(s, q, p[i]);
      }
    }
  }

  lemma MembersAbove(p: seq<Node>, p': seq<Node>, m: nat, x: Node)
    requires (forall n :: n in p' ==> n in p || n == x) && (x.Flusher? || x in p)
    ensures (forall i :: 0 <= i < |p| && p[i].Job? ==> p[i].sub >= m) ==>
      forall i :: 0 <= i < |p'| && p'[i].Job? ==> p'[i].sub >= m
  {
    forall i | 0 <= i < |p'| && p'[i].Job? ensures p'[i] in p {
      assert p'[i] in p';
    }
  }

  /** The submissions that start to run on a queue in the course of a run, in that order. */
  ghost function Taken(s: State, q: QueueId, steps: seq<Step>): seq<nat>
    decreases |steps|
  {
    if steps == [] then []
    else
      var s' := Do(s, steps[0]);
      (if steps[0] == DoTake(q) && Enabled(s, steps[0]) && q in s'.queues && s'.queues[q].running.Some? && s'.queues[q].running.value.Job?
       then [s'.queues[q].running.value.sub] else []) + Taken(s', q, steps[1..])
  }

  /** The submissions that cancels take off the list of a queue in the course of a run. */
  ghost function Dropped(s: State, q: QueueId, steps: seq<Step>): set<nat>
    decreases |steps|
  {
    if steps == [] then {}
    else
      var s' := Do(s, steps[0]);
      (if steps[0].DoCancel? && q in s.queues && q in s'.queues
       then Subs(s.queues[q].pending) - Subs(s'.queues[q].pending) else {}) + Dropped(s', q, steps[1..])
  }

  ghost predicate Climbs(ts: seq<nat>, m: nat) {
    && (forall i :: 0 <= i < |ts| ==> ts[i] >= m)
    && (forall i, j :: 0 <= i < j < |ts| ==> ts[i] < ts[j])
  }

  lemma HeadFirst(s: State, q: QueueId, m: nat)
    requires Inv(s) && InOrder(s) && Above(s, q, m) && Enabled(s, DoTake(q)) && s.queues[q].pending[0].Job?
    ensures var t := s.queues[q].pending[0].sub; t >= m && Above(Do(s, DoTake(q)), q, t + 1)
  {
    hide Inv;
    ListedOld(s, q, s.queues[q].pending[0]);
  }

  /** Over every run the submissions that a queue's worker starts on are in the order in which
      they were made. */
  lemma {:induction false} TakenInOrder(s: State, q: QueueId, steps: seq<Step>, m: nat)
    requires Inv(s) && InOrder(s) && Above(s, q, m)
    ensures Climbs(Taken(s, q, steps), m)
    decreases |steps|
  {
    hide Inv, InOrder, Above, Do;
    if steps != [] {
      var s' := Do(s, steps[0]);
      StepKeeps(s, steps[0]);
      StepInOrder(s, steps[0], q, m);
      QueueThere(s, q, m);
      StepChanges(s, steps[0], q);
      if steps[0] == DoTake(q) && Enabled(s, steps[0]) && s.queues[q].pending[0].Job? {
        HeadFirst(s, q, m);
        TakenInOrder(s', q, steps[1..], s.queues[q].pending[0].sub + 1);
      } else {
        TakenInOrder(s', q, steps[1..], m);
      }
    }
  }

  lemma QueueThere(s: State, q: QueueId, m: nat)
    requires Above(s, q, m)
    ensures q in s.queues
  {
  }

  /** What becomes of a listed submission in one step. */
  lemma ListedThen(s: State, step: Step, q: QueueId, a: nat)
    requires Inv(s) && InOrder(s) && q in s.queues && a in Subs(s.queues[q].pending)
    ensures var s' := Do(s, step);
      q in s'.queues && (a in Subs(s'.queues[q].pending) || step.DoCancel?
        || (step == DoTake(q) && Enabled(s, step) && s.queues[q].pending[0].Job? && s.queues[q].pending[0].sub == a))
    ensures step == DoTake(q) && Enabled(s, step) && s.queues[q].pending[0].Job? ==> s.queues[q].pending[0].sub <= a
  {
    hide Inv, Do, InsertAt, RemoveAt;
    var s' := Do(s, step);
    StepChanges(s, step, q);
    var p, p' := s.queues[q].pending, s'.queues[q].pending;
    var n :| n in p && n.Job? && n.sub == a;
    var i :| 0 <= i < |p| && p[i] == n;
    if step.DoFlush? && p' != p {
      var at :| 0 <= at <= |p| && p' == InsertAt(p, at, Flusher(step.f));
      InsertFlusher(p, at, step.f);
      assert n in p';
    } else if step == DoTake(q) && p' != p {
      assert i > 0 ==> p'[i - 1] == n;
    } else if step.DoEnqueue? && p' != p {
      assert p'[i] == n;
    } else if !step.DoCancel? {
      assert p' == p;
    }
  }

  /** No submission overtakes another: over every run, when a later submission to a queue
      starts to run, an earlier one that was listed there has started before it, or has been
      cancelled. */
  lemma {:induction false} EarlierFirst(s: State, q: QueueId, steps: seq<Step>, a: nat, b: nat)
    requires Inv(s) && InOrder(s) && q in s.queues && a in Subs(s.queues[q].pending) && a < b && b in Taken(s, q, steps)
    ensures a in Dropped(s, q, steps) || a in Taken(s, q, steps)
    decreases |steps|
  {
    hide Inv, InOrder, Do, Subs;
    var step, s' := steps[0], Do(s, steps[0]);
    StepKeeps(s, step);
    StepInOrder(s, step, q, 0);
    StepChanges(s, step, q);
    ListedThen(s, step, q, a);
    if a in Subs(s'.queues[q].pending) {
      assert b in Taken(s', q, steps[1..]);
      EarlierFirst(s', q, steps[1..], a, b);
    }
  }

  /** Of two submissions listed on one queue, the earlier starts first unless it is cancelled. */
  lemma FirstComeFirstServed(s: State, q: QueueId, steps: seq<Step>, a: nat, b: nat)
    requires Inv(s) && InOrder(s) && q in s.queues && a in Subs(s.queues[q].pending) && a < b
    ensures var ts := Taken(s, q, steps);
      b in ts && a !in Dropped(s, q, steps) ==> exists i, j :: 0 <= i < j < |ts| && ts[i] == a && ts[j] == b
  {
    hide Inv, InOrder, Subs, Taken, Dropped;
    var ts := Taken(s, q, steps);
    TakenInOrder(s, q, steps, 0);
    if b in ts && a !in Dropped(s, q, steps) {
      EarlierFirst(s, q, steps, a, b);
      var i :| 0 <= i < |ts| && ts[i] == a;
      var j :| 0 <= j < |ts| && ts[j] == b;
      assert i < j;
    }
  }

  /** The lists stay in order over every run. */
  lemma {:induction false} RunInOrder(s: State, steps: seq<Step>)
    requires Inv(s) && InOrder(s)
    ensures Inv(RunAll(s, steps)) && InOrder(RunAll(s, steps))
    decreases |steps|
  {
    hide Inv, InOrder, Do;
    if steps != [] {
      StepKeeps(s, steps[0]);
      StepInOrder(s, steps[0], 0, 0);
      RunInOrder(Do(s, steps[0]), steps[1..]);
    }
  }

  /** The lists are in order, and every synchronous cancel is accounted for. */
  ghost predicate Sound(s: State) {
    InOrder(s) && CancelsOnce(s)
  }

  lemma StepSound(s: State, step: Step)
    requires Inv(s) && Sound(s)
    ensures Sound(Do(s, step))
  {
    hide Inv, InOrder, CancelsOnce, Do;
    StepInOrder(s, step, 0, 0);
    StepCancelsOnce(s, step);
  }

  /** No handler is entered twice: in every reachable state an item is executed by at
      most one queue, is listed at most once overall, and a submission that is listed or
      running is not over. */
  lemma NoReentrancy(s: State, steps: seq<Step>, q: QueueId, r: QueueId, i: Item)
    requires Inv(s)
    ensures var s' := RunAll(s, steps);
      q in s'.queues && r in s'.queues ==>
        && (forall t, u :: s'.queues[q].running == Some(Job(i, t)) && s'.queues[r].running == Some(Job(i, u)) ==>
              q == r && t == u && t !in s'.log.done)
        && (forall t, u :: Job(i, t) in s'.queues[q].pending && Job(i, u) in s'.queues[r].pending ==>
              q == r && t == u && t !in s'.log.done)
  {
    RunKeeps(s, steps);
    var s' := RunAll(s, steps);
    if q in s'.queues && r in s'.queues {
      hide FlushersOk, DrainOk, ShapeOk, RunAll, LogOk;
      forall t, u | s'.queues[q].running == Some(Job(i, t)) && s'.queues[r].running == Some(Job(i, u))
        ensures q == r && t == u && t !in s'.log.done
      {
        assert RunningOk(s', q) && RunningOk(s', r) && WorkOk(s', i);
      }
      forall t, u | Job(i, t) in s'.queues[q].pending && Job(i, u) in s'.queues[r].pending
        ensures q == r && t == u && t !in s'.log.done
      {
        assert ListedOk(s', q, Job(i, t)) && ListedOk(s', r, Job(i, u)) && WorkOk(s', i);
      }
    }
  }

  /** The flags tell the truth in every reachable state: QUEUED means exactly once on the
      pending list of the item's own queue and on no other, RUNNING means executing on that
      queue, CANCELING means running and not queued. */
  lemma FlagsAreExact(s: State, steps: seq<Step>, i: Item, q: QueueId)
    requires Inv(s)
    ensures var s' := RunAll(s, steps);
      i in s'.works && q in s'.queues ==>
        var w := s'.works[i];
        && (w.queued && w.queue == Some(q) <==> Listed(s'.queues[q].pending, i))
        && (forall a, b :: 0 <= a < b < |s'.queues[q].pending| && IsJob(s'.queues[q].pending[a], i) ==>
              !IsJob(s'.queues[q].pending[b], i))
        && (w.running && w.queue == Some(q) <==>
              s'.queues[q].running.Some? && IsJob(s'.queues[q].running.value, i))
        && (w.canceling ==> w.running && !w.queued)
  {
    hide FlushersOk, DrainOk, RunAll, LogOk, CancelOk;
    RunKeeps(s, steps);
    var s' := RunAll(s, steps);
    if i in s'.works && q in s'.queues {
      var p := s'.queues[q].pending;
      assert WorkOk(s', i) && RunningOk(s', q) && ShapeOk(s'.queues[q]);
      forall a | 0 <= a < |p| && IsJob(p[a], i) ensures p[a] == Job(i, s'.works[i].sub) && s'.works[i].queue == Some(q) {
        assert p[a] in p && ListedOk(s', q, p[a]);
      }
      assert Listed(p, i) ==> s'.works[i].queued && s'.works[i].queue == Some(q) by {
        if Listed(p, i) {
          var a :| 0 <= a < |p| && IsJob(p[a], i);
          assert p[a] in p && ListedOk(s', q, p[a]);
        }
      }
    }
  }

  predicate IsJob(n: Node, i: Item) {
    n.Job? && n.item == i
  }

  ghost predicate Listed(p: seq<Node>, i: Item) {
    exists a :: 0 <= a < |p| && IsJob(p[a], i)
  }

  /** No work is forgotten: a worker sleeps only when nothing is pending and no drain is
      asked for, and no drain caller waits on a queue that is not marked as draining. */
  lemma NoStall(s: State, steps: seq<Step>, q: QueueId, d: nat)
    requires Inv(s)
    ensures var s' := RunAll(s, steps);
      && (q in s'.queues && s'.queues[q].asleep ==>
            s'.queues[q].pending == [] && s'.queues[q].running == None && !s'.queues[q].drain)
      && (d in s'.log.drain && d !in s'.log.drained ==>
            var k := s'.log.drain[d].queue; k in s'.queues && s'.queues[k].drain && !s'.queues[k].asleep)
  {
    RunKeeps(s, steps);
    var s' := RunAll(s, steps);
    if d in s'.log.drain && d !in s'.log.drained {
      assert DrainOk(s'.queues, s'.log, d);
    }
  }

  // ----- the source's operations -----

  const EINVAL: int := 22
  const EBUSY: int := 16
  const ENODEV: int := 19
  const EALREADY: int := 114

  /** The queue a submission goes to: a running item has to stay with its queue. */
  function Target(w: Work, requested: Option<QueueId>): Option<QueueId> {
    if w.running || requested == None then w.queue else requested
  }

  /** Whether a queue takes new work, `chained` meaning from its own handler. */
  function QueueCode(queues: map<QueueId, WorkQ>, q: QueueId, chained: bool): int {
    if q !in queues || !queues[q].started then -ENODEV
    else if queues[q].drain && !chained then -EBUSY
    else if queues[q].plugged && !queues[q].drain then -EBUSY
    else 1
  }

  function SubmitCode(s: State, i: Item, requested: Option<QueueId>, caller: Option<QueueId>): int
    requires i in s.works
  {
    var w := s.works[i];
    var q := Target(w, requested);
    if w.canceling then -EBUSY
    else if w.queued then 0
    else if q == None then -EINVAL
    else if QueueCode(s.queues, q.value, caller == q) < 0 then QueueCode(s.queues, q.value, caller == q)
    else if w.running then 2 else 1
  }

  function Submitted(s: State, i: Item, requested: Option<QueueId>, caller: Option<QueueId>): State
    requires i in s.works
  {
    if SubmitCode(s, i, requested, caller) > 0 then Enqueue(s, i, Target(s.works[i], requested).value) else s
  }

  function WithDelay(s: State, i: Item, delayed: bool, later: Option<QueueId>): State
    requires i in s.works
  {
    s.(works := s.works[i := s.works[i].(delayed := delayed, later := later)])
  }

  /** Whether a queue takes work: it has been started; when it drains, only from its own
      handlers; and none when it is plugged, unless it drains. */
  ghost predicate Open(queues: map<QueueId, WorkQ>, q: QueueId, caller: Option<QueueId>) {
    && q in queues && queues[q].started
    && (queues[q].drain ==> caller == Some(q)) && (queues[q].plugged ==> queues[q].drain)
  }

  /** What a submission does: an item that is neither queued nor being cancelled goes to the
      end of the list of its target, if that takes work; otherwise nothing changes. */
  ghost predicate SubmitDone(s: State, s': State, i: Item, requested: Option<QueueId>, caller: Option<QueueId>, ret: int)
    requires i in s.works
  {
    var w := s.works[i];
    var target := if w.running || requested == None then w.queue else requested;
    if !w.canceling && !w.queued && target.Some? && Open(s.queues, target.value, caller) then
      var q, t := target.value, |s.log.owner|;
      && ret == (if w.running then 2 else 1)
      && s'.queues == s.queues[q := s.queues[q].(pending := s.queues[q].pending + [Job(i, t)], asleep := false)]
      && s'.works == s.works[i := w.(queued := true, queue := Some(q), sub := t)] && s'.cancels == s.cancels
    else
      && s' == s
      && ret == if w.canceling then -EBUSY else if w.queued then 0 else if target == None then -EINVAL
                else if target.value in s.queues && s.queues[target.value].started then -EBUSY else -ENODEV
  }

  lemma SubmitMeets(s: State, i: Item, requested: Option<QueueId>, caller: Option<QueueId>)
    requires i in s.works && (requested.Some? ==> requested.value in s.queues) && WorkOk(s, i)
    ensures SubmitDone(s, Submitted(s, i, requested, caller), i, requested, caller, SubmitCode(s, i, requested, caller))
  {
    hide InsertAt;
    var target := Target(s.works[i], requested);
    if target.Some? { AppendIs(s.queues[target.value].pending, Job(i, |s.log.owner|)); }
  }

  /** A flusher stands right behind the submission it waits for, or at the front when that
      is running: it waits for nothing that was listed later. */
  ghost predicate FlusherPlaced(s: State, s': State, i: Item, f: nat)
    requires i in s.works
  {
    var w := s.works[i];
    w.queue.Some? && w.queue.value in s.queues && w.queue.value in s'.queues &&
    var p, p' := s.queues[w.queue.value].pending, s'.queues[w.queue.value].pending;
    exists k :: 0 <= k <= |p| && p' == p[..k] + [Flusher(f)] + p[k..] && (if w.queued then k > 0 && p[k - 1] == Job(i, w.sub) else k == 0)
  }

  lemma FlushMeets(s: State, i: Item, f: nat)
    requires i in s.works && WorkOk(s, i) && (s.works[i].queued || s.works[i].running)
    ensures FlusherPlaced(s, AddFlusher(s, i, f), i, f)
  {
    hide IndexOf;
  }

  class WorkSystem {
    var works: map<Item, Work>
    var queues: map<QueueId, WorkQ>
    var pendingCancels: seq<Canceller>
    var submissions: nat
    ghost var log: Log

    ghost function Abs(): State
      reads this
    {
      State(works, queues, pendingCancels, log)
    }

    ghost predicate Valid()
      reads this
    {
      Inv(Abs()) && Sound(Abs()) && submissions == |log.owner|
    }

    /** Idle items and queues with nothing to do. */
    constructor (items: set<Item>, ids: set<QueueId>)
      ensures Valid() && works.Keys == items && queues.Keys == ids
      ensures forall q, i, requested, caller :: q in queues && i in works && requested == Some(q) ==>
        SubmitCode(Abs(), i, requested, caller) == -ENODEV
    {
      works := map i | i in items :: Work(false, false, false, false, None, None, 0, 0);
      queues := map q | q in ids :: WorkQ(false, false, false, [], None, false);
      pendingCancels, submissions := [], 0;
      log := Log([], {}, map[], {}, map[], {}, map[], {});
    }

    /** `submit_to_queue_locked`. `caller` is the queue whose worker makes the call, if
        it is one. */
    method Submit(i: Item, requested: Option<QueueId>, caller: Option<QueueId>) returns (ret: int)
      requires Valid() && i in works && (requested.Some? ==> requested.value in queues)
      modifies this
      ensures Valid()
      ensures ret == SubmitCode(old(Abs()), i, requested, caller)
      ensures Abs() == Submitted(old(Abs()), i, requested, caller)
      ensures ret > 0 ==> Enabled(old(Abs()), DoEnqueue(i, Target(old(works)[i], requested).value))
      ensures SubmitDone(old(Abs()), Abs(), i, requested, caller, ret)
    {
      hide Inv, InsertAt, Sound, SubmitDone;
      ItemOk(Abs(), i);
      SubmitMeets(Abs(), i, requested, caller);
      var w := works[i];
      if w.canceling { return -EBUSY; }
      if w.queued { return 0; }
      ret := 1;
      var target := requested;
      if target == None { target := w.queue; }
      if w.running {
        target := w.queue;
        ret := 2;
      }
      if target == None { return -EINVAL; }
      var q := target.value;
      var k := queues[q];
      var chained := caller == target;
      if !k.started { return -ENODEV; }
      if k.drain && !chained { return -EBUSY; }
      if k.plugged && !k.drain { return -EBUSY; }
      EnqueueKeeps(Abs(), i, q);
      StepSound(Abs(), DoEnqueue(i, q));
      queues := queues[q := k.(pending := k.pending + [Job(i, submissions)], asleep := false)];
      AppendIs(k.pending, Job(i, submissions));
      works := works[i := w.(queued := true, queue := Some(q), sub := submissions)];
      log := log.(owner := log.owner + [i]);
      submissions := submissions + 1;
    }

    /** Whether an item is on a pending list, and where. */
    static method FindItem(pending: seq<Node>, i: Item) returns (at: nat)
      ensures at <= |pending|
      ensures at < |pending| ==> pending[at].Job? && pending[at].item == i
      ensures at == |pending| ==> forall n :: n in pending && n.Job? ==> n.item != i
    {
      at := 0;
      while at < |pending|
        invariant at <= |pending|
        invariant forall j :: 0 <= j < at && pending[j].Job? ==> pending[j].item != i
      {
        if pending[at].Job? && pending[at].item == i { return; }
        at := at + 1;
      }
    }

    /** `work_flush_locked`, with a flusher that is not in use. */
    method Flush(i: Item, f: nat) returns (needed: bool)
      requires Valid() && i in works && f !in log.flush
      modifies this`queues, this`log
      ensures Valid()
      ensures needed == (works[i].queued || works[i].running)
      ensures needed ==> Enabled(old(Abs()), DoFlush(i, f)) && Abs() == AddFlusher(old(Abs()), i, f)
      ensures needed ==> FlusherPlaced(old(Abs()), Abs(), i, f)
      ensures !needed ==> Abs() == old(Abs())
    {
      hide Inv, IndexOf, Sound, FlusherPlaced;
      ItemOk(Abs(), i);
      var w := works[i];
      needed := w.queued || w.running;
      if needed {
        AddFlusherKeeps(Abs(), i, f);
        StepSound(Abs(), DoFlush(i, f));
        FlushMeets(Abs(), i, f);
        var k := queues[w.queue.value];
        var at := FindItem(k.pending, i);
        FoundIs(Abs(), i, at);
        var place := if at < |k.pending| then at + 1 else 0;
        log := log.(flush := log.flush[f := Outstanding(w)]);
        queues := queues[w.queue.value := k.(pending := k.pending[..place] + [Flusher(f)] + k.pending[place..], asleep := false)];
      }
    }

    /** `cancel_async_locked`. */
    method Cancel(i: Item) returns (busy: bool)
      requires Valid() && i in works && !works[i].delayed
      modifies this`works, this`queues, this`log
      ensures Valid() && WorkOk(old(Abs()), i) && Abs() == CancelAsync(old(Abs()), i)
      ensures busy == old(works)[i].running
      ensures !works[i].queued && (works[i].canceling <==> works[i].running) && works[i].running == old(works)[i].running
    {
      hide Inv, IndexOf, Sound;
      ItemOk(Abs(), i);
      CancelAsyncKeeps(Abs(), i);
      StepSound(Abs(), DoCancel(i));
      var w := works[i];
      if !w.canceling && w.queued {
        var k := queues[w.queue.value];
        var at := FindItem(k.pending, i);
        FoundIs(Abs(), i, at);
        queues := queues[w.queue.value := k.(pending := k.pending[..at] + k.pending[at + 1..])];
        w := w.(queued := false);
        log := log.(done := log.done + {w.sub});
      }
      busy := w.running;
      if busy { w := w.(canceling := true); }
      works := works[i := w];
      assert Abs() == CancelAsync(old(Abs()), i);
    }

    /** `k_work_cancel_sync` up to the wait. */
    method CancelSync(i: Item, c: nat) returns (pending: bool, wait: bool)
      requires Valid() && i in works && c !in log.cancel && !works[i].delayed
      modifies this
      ensures Valid() && WorkOk(old(Abs()), i)
      ensures wait == old(works)[i].running && pending == (old(works)[i].queued || old(works)[i].running)
      ensures Abs() == if wait then AddCanceller(CancelAsync(old(Abs()), i), i, c) else CancelAsync(old(Abs()), i)
    {
      hide Inv, Sound;
      ItemOk(Abs(), i);
      CancelAsyncKeeps(Abs(), i);
      var w := works[i];
      pending, wait := w.queued || w.running || w.canceling, false;
      if pending {
        var _ := Cancel(i);
        wait := works[i].canceling;
        if wait {
          AddCancellerKeeps(Abs(), i, c);
          StepSound(Abs(), DoCancelSync(i, c));
          pendingCancels := pendingCancels + [Canceller(c, i)];
          log := log.(cancel := log.cancel[c := works[i].runSub]);
        }
      }
    }

    /** The top of the worker's loop. */
    method WorkerLook(q: QueueId)
      requires Valid() && q in queues && queues[q].running == None
      modifies this
      ensures Valid()
      ensures Abs() == if old(queues)[q].pending != [] then Take(old(Abs()), q) else Sleep(old(Abs()), q)
      ensures q in queues
      ensures var p := old(queues)[q].pending;
        if p != [] then queues[q].running == Some(p[0]) && queues[q].pending == p[1..]
        else queues[q].asleep && !queues[q].drain && forall d :: d in log.drain && log.drain[d].queue == q ==> d in log.drained
    {
      hide Inv, Sound;
      var k := queues[q];
      if k.pending != [] {
        TakeKeeps(Abs(), q);
        StepSound(Abs(), DoTake(q));
        HeadItem(Abs(), q);
        var n := k.pending[0];
        queues := queues[q := k.(pending := k.pending[1..], running := Some(n))];
        if n.Job? {
          works := works[n.item := works[n.item].(queued := false, running := true, runSub := n.sub)];
        }
        assert Abs() == Take(old(Abs()), q);
      } else {
        SleepKeeps(Abs(), q);
        StepSound(Abs(), DoSleep(q));
        DrainersWoken(Abs(), q);
        if k.drain {
          log := log.(drained := log.drained + set d | d in log.drain && log.drain[d].queue == q && d !in log.drained);
        }
        queues := queues[q := k.(drain := false, asleep := true)];
        assert Abs() == Sleep(old(Abs()), q);
      }
    }

    /** `finalize_cancel_locked`: finds and removes the first matching canceller. */
    method ReleaseCanceller(i: Item)
      modifies this`pendingCancels, this`log
      ensures var cs := old(pendingCancels); var at := FirstFor(cs, i);
        && pendingCancels == (if at < |cs| then cs[..at] + cs[at + 1..] else cs)
        && log == old(log).(released := old(log).released + if at < |cs| then {cs[at].id} else {})
    {
      var at := 0;
      while at < |pendingCancels| && pendingCancels[at].item != i
        invariant at <= |pendingCancels| && forall j :: 0 <= j < at ==> pendingCancels[j].item != i
      {
        at := at + 1;
      }
      FirstForIs(pendingCancels, i, at);
      if at < |pendingCancels| {
        log := log.(released := log.released + {pendingCancels[at].id});
        pendingCancels := pendingCancels[..at] + pendingCancels[at + 1..];
      }
    }

    /** The end of the worker's loop. What a flusher was asked to wait for is over by the
        time its semaphore is given. */
    method WorkerFinish(q: QueueId)
      requires Valid() && q in queues && queues[q].running.Some?
      modifies this
      ensures Valid() && Abs() == Finish(old(Abs()), q)
      ensures old(queues)[q].running.value.Flusher? ==>
        var f := old(queues)[q].running.value.id; f in log.flushed && f in log.flush && log.flush[f] <= log.done
      ensures q in queues && queues[q] == old(queues)[q].(running := None)
      ensures old(queues)[q].running.value.Job? ==>
        var n := old(queues)[q].running.value;
        n.sub in log.done && n.item in works && !works[n.item].running && !works[n.item].canceling
    {
      hide Inv, FirstFor, Sound;
      StepSound(Abs(), DoFinish(q));
      var k := queues[q];
      if k.running.value.Job? {
        FinishJobKeeps(Abs(), q);
        RunningItem(Abs(), q);
        var Job(i, t) := k.running.value;
        var canceling := works[i].canceling;
        works := works[i := works[i].(running := false, canceling := false)];
        log := log.(done := log.done + {t});
        if canceling { ReleaseCanceller(i); }
      } else {
        FinishFlusherKeeps(Abs(), q);
        log := log.(flushed := log.flushed + {k.running.value.id});
      }
      queues := queues[q := k.(running := None)];
      assert Abs() == Finish(old(Abs()), q);
    }

    /** `k_work_queue_drain` up to the wait. */
    method DrainQueue(q: QueueId, d: nat, plug: bool) returns (waits: bool)
      requires Valid() && q in queues && d !in log.drain
      modifies this`queues, this`log
      ensures Valid()
      ensures var k := old(queues)[q]; waits == (k.running.Some? || k.drain || plug || k.pending != [])
      ensures Abs() == if waits then AddDrain(old(Abs()), q, d, plug) else old(Abs())
      ensures waits ==>
        var k := old(queues)[q]; queues == old(queues)[q := k.(drain := true, plugged := k.plugged || plug, asleep := false)]
    {
      hide Inv, Sound;
      StepSound(Abs(), DoDrain(q, d, plug));
      var k := queues[q];
      waits := k.running.Some? || k.drain || plug || k.pending != [];
      if waits {
        AddDrainKeeps(Abs(), q, d, plug);
        log := log.(drain := log.drain[d := Drainer(q, Current(k) + Subs(k.pending))]);
        k := k.(drain := true);
        if plug { k := k.(plugged := true); }
        queues := queues[q := k.(asleep := false)];
      }
    }

    /** `k_work_queue_start`: from now on the queue takes work. */
    method StartQueue(q: QueueId)
      requires Valid() && q in queues && !queues[q].started
      modifies this`queues
      ensures Valid() && Abs() == Do(old(Abs()), DoStart(q)) && queues == old(queues)[q := old(queues)[q].(started := true)]
    {
      hide Inv, Sound;
      FlagsKeep(Abs(), q, true, queues[q].plugged);
      StepSound(Abs(), DoStart(q));
      queues := queues[q := queues[q].(started := true)];
    }

    method UnplugQueue(q: QueueId) returns (ret: int)
      requires Valid() && q in queues
      modifies this`queues
      ensures Valid() && ret == (if old(queues)[q].plugged then 0 else -EALREADY)
      ensures queues == old(queues)[q := old(queues)[q].(plugged := false)]
    {
      hide Inv, Sound;
      FlagsKeep(Abs(), q, queues[q].started, false);
      StepSound(Abs(), DoUnplug(q));
      ret := if queues[q].plugged then 0 else -EALREADY;
      queues := queues[q := queues[q].(plugged := false)];
    }

    method SetDelay(i: Item, delayed: bool, later: Option<QueueId>)
      requires Valid() && i in works && (later.Some? ==> later.value in queues)
      modifies this`works
      ensures Valid() && Abs() == WithDelay(old(Abs()), i, delayed, later)
      ensures works == old(works)[i := old(works)[i].(delayed := delayed, later := later)]
    {
      hide Inv, Sound;
      StepSound(Abs(), DoDelay(i, delayed, later));
      CancelingRuns(Abs(), i);
      MarkKeeps(Abs(), i, works[i].(delayed := delayed, later := later));
      works := works[i := works[i].(delayed := delayed, later := later)];
    }

    /** `unschedule_locked`; `stopped` says whether the timeout could still be aborted. */
    method Unschedule(i: Item, stopped: bool) returns (undone: bool)
      requires Valid() && i in works
      modifies this`works
      ensures Valid() && undone == (old(works)[i].delayed && stopped)
      ensures Abs() == WithDelay(old(Abs()), i, false, old(works)[i].later)
      ensures works == old(works)[i := old(works)[i].(delayed := false)]
    {
      hide Inv, WorkOk, Sound, SubmitDone;
      undone := works[i].delayed && stopped;
      LaterQueue(Abs(), i);
      SetDelay(i, false, works[i].later);
    }

    /** `schedule_for_queue_locked`. */
    method ScheduleFor(i: Item, requested: Option<QueueId>, noWait: bool, caller: Option<QueueId>) returns (ret: int)
      requires Valid() && i in works && (requested.Some? ==> requested.value in queues)
      modifies this
      ensures Valid()
      ensures ret == if noWait then SubmitCode(old(Abs()), i, requested, caller) else 1
      ensures Abs() == if noWait then Submitted(old(Abs()), i, requested, caller) else WithDelay(old(Abs()), i, true, requested)
      ensures noWait ==> SubmitDone(old(Abs()), Abs(), i, requested, caller, ret)
      ensures !noWait ==> works == old(works)[i := old(works)[i].(delayed := true, later := requested)]
    {
      hide Inv, WorkOk, Sound, SubmitDone;
      if noWait {
        ret := Submit(i, requested, caller);
      } else {
        SetDelay(i, true, requested);
        ret := 1;
      }
    }

    /** `k_work_schedule_for_queue`: only an item that is idle or merely running. */
    method Schedule(i: Item, requested: Option<QueueId>, noWait: bool, caller: Option<QueueId>) returns (ret: int)
      requires Valid() && i in works && (requested.Some? ==> requested.value in queues)
      modifies this
      ensures Valid()
      ensures var w := old(works)[i];
        if w.queued || w.delayed || w.canceling then ret == 0 && Abs() == old(Abs())
        else if noWait then ret == SubmitCode(old(Abs()), i, requested, caller) && Abs() == Submitted(old(Abs()), i, requested, caller)
        else ret == 1 && Abs() == WithDelay(old(Abs()), i, true, requested)
    {
      hide Inv, WorkOk, Sound, SubmitDone;
      ret := 0;
      if !works[i].queued && !works[i].delayed && !works[i].canceling {
        ret := ScheduleFor(i, requested, noWait, caller);
      }
    }

    /** `k_work_reschedule_for_queue`. */
    method Reschedule(i: Item, requested: Option<QueueId>, noWait: bool, caller: Option<QueueId>, stopped: bool) returns (ret: int)
      requires Valid() && i in works && (requested.Some? ==> requested.value in queues)
      modifies this
      ensures Valid()
      ensures var s := WithDelay(old(Abs()), i, false, old(works)[i].later);
        && ret == (if noWait then SubmitCode(s, i, requested, caller) else 1)
        && Abs() == if noWait then Submitted(s, i, requested, caller) else WithDelay(s, i, true, requested)
    {
      hide Inv, WorkOk, Sound, SubmitDone;
      var _ := Unschedule(i, stopped);
      ret := ScheduleFor(i, requested, noWait, caller);
    }

    /** `work_timeout`: the delay is over. */
    method WorkTimeout(i: Item)
      requires Valid() && i in works
      modifies this
      ensures Valid()
      ensures Abs() == if old(works)[i].delayed
                       then Submitted(WithDelay(old(Abs()), i, false, old(works)[i].later), i, old(works)[i].later, None)
                       else old(Abs())
    {
      hide Inv, WorkOk, Sound, SubmitDone;
      if works[i].delayed {
        LaterQueue(Abs(), i);
        SetDelay(i, false, works[i].later);
        var _ := Submit(i, works[i].later, None);
      }
    }

    /** `k_work_cancel_delayable`: afterwards the item is neither delayed nor queued. */
    method CancelDelayable(i: Item, stopped: bool) returns (busy: bool)
      requires Valid() && i in works
      modifies this
      ensures Valid() && i in works && !works[i].delayed && !works[i].queued && works[i].canceling == works[i].running == busy
      ensures var s := WithDelay(old(Abs()), i, false, old(works)[i].later); WorkOk(s, i) && Abs() == CancelAsync(s, i)
    {
      hide Inv, Sound;
      var _ := Unschedule(i, stopped);
      ItemOk(Abs(), i);
      CancelAsyncKeeps(Abs(), i);
      busy := Cancel(i);
    }

    /** `k_work_flush_delayable` up to the wait: a delayed item is submitted at once. */
    method FlushDelayable(i: Item, f: nat, stopped: bool, caller: Option<QueueId>) returns (needed: bool)
      requires Valid() && i in works && f !in log.flush
      modifies this
      ensures Valid()
      ensures var w := old(works)[i];
        var s1 := WithDelay(old(Abs()), i, false, w.later);
        var s2 := if w.delayed && stopped then Submitted(s1, i, w.later, caller) else s1;
        if !w.delayed && !w.queued && !w.running && !w.canceling then !needed && Abs() == old(Abs())
        else
          && needed == (s2.works[i].queued || s2.works[i].running)
          && (if needed then WorkOk(s2, i) && Abs() == AddFlusher(s2, i, f) else Abs() == s2)
    {
      hide Inv, WorkOk, Sound, SubmitDone;
      needed := false;
      var w := works[i];
      if w.delayed || w.queued || w.running || w.canceling {
        LaterQueue(Abs(), i);
        var undone := Unschedule(i, stopped);
        if undone {
          var _ := Submit(i, works[i].later, caller);
        }
        needed := Flush(i, f);
      }
    }
  }

  lemma DrainersWoken(s: State, q: QueueId)
    requires Inv(s) && q in s.queues
    ensures forall d :: d in s.log.drain && s.log.drain[d].queue == q && d !in s.log.drained ==> s.queues[q].drain
  {
    forall d | d in s.log.drain && s.log.drain[d].queue == q && d !in s.log.drained ensures s.queues[q].drain {
      assert DrainOk(s.queues, s.log, d);
    }
  }

  lemma LaterQueue(s: State, i: Item)
    requires Inv(s) && i in s.works
    ensures s.works[i].later.Some? ==> s.works[i].later.value in s.queues
  {
    ItemOk(s, i);
  }

  lemma FirstForIs(cs: seq<Canceller>, i: Item, at: nat)
    requires at <= |cs| && (at < |cs| ==> cs[at].item == i) && forall j :: 0 <= j < at ==> cs[j].item != i
    ensures FirstFor(cs, i) == at
  {
    var k := FirstFor(cs, i);
    assert !(k < at) && !(at < k);
  }

  lemma HeadItem(s: State, q: QueueId)
    requires Inv(s) && q in s.queues && s.queues[q].pending != []
    ensures s.queues[q].pending[0].Job? ==> s.queues[q].pending[0].item in s.works
  {
    assert ListedOk(s, q, s.queues[q].pending[0]);
  }

  /** Scanning for the item finds the entry of its queued submission. */
  lemma FoundIs(s: State, i: Item, at: nat)
    requires Inv(s) && i in s.works && WorkOk(s, i) && s.works[i].queue.Some?
    requires var p := s.queues[s.works[i].queue.value].pending;
      && at <= |p| && (at < |p| ==> p[at].Job? && p[at].item == i)
      && (at == |p| ==> forall n :: n in p && n.Job? ==> n.item != i)
    ensures var p := s.queues[s.works[i].queue.value].pending;
      && (at < |p| <==> s.works[i].queued)
      && (at < |p| ==> p[at] == Job(i, s.works[i].sub) && at == IndexOf(p, p[at]))
  {
    var q := s.works[i].queue.value;
    var p := s.queues[q].pending;
    if at < |p| {
      assert ListedOk(s, q, p[at]);
      Distinct(s.queues[q]);
      var k := IndexOf(p, p[at]);
      assert !(k < at) && !(at < k);
    }
  }
}
