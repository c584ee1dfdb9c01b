/**
 Mutexes with priority inheritance (kernel/mutex.c): one mutex, any number of threads.
 A numerically lower priority is the more urgent.
 */
module Mutexes {
  import opened Options
  import opened Sequences
  import opened WaitQueues

  type Waiting = seq<Waiter<()>>

  function MoreUrgent(p: int, q: int): int {
    if p <= q then p else q
  }

  /** `new_prio_for_inheritance`: the more urgent of the two, but not above the ceiling. */
  function Inherit(ceiling: int, target: int, limit: int): int {
    var p := MoreUrgent(target, limit);
    if p < ceiling then ceiling else p
  }

  /** The ceiling leaves the inherited priority alone exactly when neither thread is above
      the ceiling; otherwise the result is less urgent than one of the two. */
  lemma InheritExact(ceiling: int, target: int, limit: int)
    ensures Inherit(ceiling, target, limit) == MoreUrgent(target, limit) <==> ceiling <= target && ceiling <= limit
    ensures (target < ceiling || limit < ceiling) <==> Inherit(ceiling, target, limit) > MoreUrgent(target, limit)
  {
  }

  /** The mutex and the priorities of the threads. `base` holds the priorities threads
      have of their own; `late` the threads whose wait timed out but which have not yet
      run the code that follows. Both only record history. */
  datatype State = State(
    owner: Option<Thread>, lockCount: nat, origPrio: int, prios: map<Thread, int>, waiters: Waiting,
    base: map<Thread, int>, late: set<Thread>)

  /** The priority the owner should have. */
  function Due(s: State): int {
    if s.waiters == [] then s.origPrio else MoreUrgent(s.waiters[0].prio, s.origPrio)
  }

  ghost predicate WaiterOk(w: Waiter<()>, owner: Option<Thread>, base: map<Thread, int>, late: set<Thread>) {
    w.thread in base && w.prio == base[w.thread] && owner != Some(w.thread) && w.thread !in late
  }

  ghost predicate Distinct(q: Waiting) {
    forall i, j :: 0 <= i < j < |q| ==> q[i].thread != q[j].thread
  }

  ghost predicate QueueOk(q: Waiting, owner: Option<Thread>, base: map<Thread, int>, late: set<Thread>) {
    ByPriority(q) && Distinct(q) && forall i :: 0 <= i < |q| ==> WaiterOk(q[i], owner, base, late)
  }

  lemma PendOk(q: Waiting, w: Waiter<()>, owner: Option<Thread>, base: map<Thread, int>, late: set<Thread>)
    requires QueueOk(q, owner, base, late) && WaiterOk(w, owner, base, late)
    requires forall i :: 0 <= i < |q| ==> q[i].thread != w.thread
    ensures QueueOk(Pend(q, w), owner, base, late)
    ensures Pend(q, w) != [] && Pend(q, w)[0].prio == if q == [] then w.prio else MoreUrgent(q[0].prio, w.prio)
  {
    hide Rank;
    PendKeepsOrder(q, w);
  }

  /** Without its `k`-th waiter the queue is in order, and that thread is not in it. */
  lemma UnpendOk(q: Waiting, k: nat, owner: Option<Thread>, base: map<Thread, int>, late: set<Thread>)
    requires QueueOk(q, owner, base, late) && k < |q|
    ensures QueueOk(RemoveAt(q, k), owner, base, late + {q[k].thread})
    ensures QueueOk(RemoveAt(q, k), Some(q[k].thread), base, late)
    ensures RemoveAt(q, k) != [] ==> q[0].prio <= RemoveAt(q, k)[0].prio && q[k].prio == base[q[k].thread]
  {
  }

  /** No thread is above the ceiling by itself. */
  ghost predicate Tame(base: map<Thread, int>, ceiling: int) {
    forall t :: t in base ==> ceiling <= base[t]
  }

  /** The owner is as urgent as it is by itself and as every waiter, and no more urgent
      than that once every timed-out waiter has cleaned up. */
  ghost predicate Lent(s: State) {
    s.owner.Some? && s.owner.value in s.prios ==>
      s.prios[s.owner.value] <= Due(s) && (s.late == {} ==> s.prios[s.owner.value] == Due(s))
  }

  /** Owner, count, queue and the priorities of all others, whatever these are; and what
      the owner is lent if nobody is above the ceiling. */
  ghost predicate Inv(s: State, ceiling: int) {
    && s.prios.Keys == s.base.Keys && s.late <= s.base.Keys
    && (s.owner == None <==> s.lockCount == 0)
    && (s.owner == None ==> s.waiters == [])
    && (forall t :: t in s.base && s.owner != Some(t) ==> s.prios[t] == s.base[t])
    && QueueOk(s.waiters, s.owner, s.base, s.late)
    && (s.owner.Some? ==>
          s.owner.value in s.base && s.owner.value !in s.late && s.origPrio == s.base[s.owner.value])
    && (Tame(s.base, ceiling) ==> Lent(s))
  }

  /** `adjust_owner_prio`. */
  function Adjust(s: State, p: int): State
    requires s.owner.Some?
  {
    s.(prios := s.prios[s.owner.value := p])
  }

  datatype Step = Lock(t: Thread, noWait: bool) | Expire(k: nat) | CleanUp(t: Thread) | Unlock(t: Thread)

  datatype Code = Done | Pended | EBusy | EAgain | EInval | EPerm

  /** What a thread may do next: a blocked thread does nothing until it is woken. */
  ghost predicate Enabled(s: State, step: Step) {
    match step
    case Lock(t, _) => t in s.base && t !in s.late && forall i :: 0 <= i < |s.waiters| ==> s.waiters[i].thread != t
    case Expire(k) => k < |s.waiters|
    case CleanUp(t) => t in s.late
    case Unlock(t) => t in s.base
  }

  /** One critical section of `k_mutex_lock` or `k_mutex_unlock`, or a timeout. */
  function Do(s: State, ceiling: int, step: Step): State {
    match step
    case Lock(t, noWait) =>
      if s.lockCount == 0 || s.owner == Some(t) then
        s.(origPrio := if s.lockCount == 0 && t in s.prios then s.prios[t] else s.origPrio,
           lockCount := s.lockCount + 1, owner := Some(t))
      else if noWait || s.owner == None || t !in s.prios || s.owner.value !in s.prios then s
      else
        var p := Inherit(ceiling, s.prios[t], s.prios[s.owner.value]);
        var s1 := if p < s.prios[s.owner.value] then Adjust(s, p) else s;
        s1.(waiters := Pend(s.waiters, Waiter(t, s.prios[t], ())))
    case Expire(k) =>
      if k < |s.waiters| then s.(waiters := RemoveAt(s.waiters, k), late := s.late + {s.waiters[k].thread}) else s
    case CleanUp(t) =>
      var s1 := s.(late := s.late - {t});
      if s.owner == None then s1
      else Adjust(s1, if s.waiters == [] then s.origPrio else Inherit(ceiling, s.waiters[0].prio, s.origPrio))
    case Unlock(t) =>
      if s.owner != Some(t) then s
      else if s.lockCount > 1 then s.(lockCount := s.lockCount - 1)
      else
        var s1 := Adjust(s, s.origPrio);
        if s.waiters == [] then s1.(owner := None, lockCount := 0)
        else
          var n := s.waiters[0].thread;
          s1.(owner := Some(n), origPrio := if n in s1.prios then s1.prios[n] else 0, waiters := RemoveAt(s.waiters, 0))
  }

  /** Locking: a blocked thread lends its priority at once. */
  lemma LockKeeps(s: State, ceiling: int, t: Thread, noWait: bool)
    requires Inv(s, ceiling) && Enabled(s, Lock(t, noWait))
    ensures Inv(Do(s, ceiling, Lock(t, noWait)), ceiling)
  {
    hide QueueOk, Pend;
    if s.lockCount == 0 {
      EmptyOk(s.base, s.late, Some(t));
    } else if s.owner != Some(t) && !noWait {
      PendOk(s.waiters, Waiter(t, s.prios[t], ()), s.owner, s.base, s.late);
    }
  }

  lemma EmptyOk(base: map<Thread, int>, late: set<Thread>, owner: Option<Thread>)
    ensures QueueOk([], owner, base, late)
  {
  }

  lemma ExpireKeeps(s: State, ceiling: int, k: nat)
    requires Inv(s, ceiling) && k < |s.waiters|
    ensures Inv(Do(s, ceiling, Expire(k)), ceiling)
  {
    UnpendOk(s.waiters, k, s.owner, s.base, s.late);
    assert WaiterOk(s.waiters[k], s.owner, s.base, s.late);
  }

  lemma CleanUpKeeps(s: State, ceiling: int, t: Thread)
    requires Inv(s, ceiling)
    ensures Inv(Do(s, ceiling, CleanUp(t)), ceiling)
    ensures s.owner.Some? && Tame(s.base, ceiling) ==> Do(s, ceiling, CleanUp(t)).prios[s.owner.value] == Due(s)
  {
    hide QueueOk;
    LessLate(s.waiters, s.owner, s.base, s.late, t);
    if s.waiters != [] { HeadOk(s.waiters, s.owner, s.base, s.late); }
  }

  lemma LessLate(q: Waiting, owner: Option<Thread>, base: map<Thread, int>, late: set<Thread>, t: Thread)
    requires QueueOk(q, owner, base, late)
    ensures QueueOk(q, owner, base, late - {t})
  {
    forall i | 0 <= i < |q| ensures WaiterOk(q[i], owner, base, late - {t}) {
      assert WaiterOk(q[i], owner, base, late);
    }
  }

  lemma HeadOk(q: Waiting, owner: Option<Thread>, base: map<Thread, int>, late: set<Thread>)
    requires QueueOk(q, owner, base, late) && q != []
    ensures WaiterOk(q[0], owner, base, late)
  {
  }

  /** The last unlock gives the owner its own priority back and makes a most urgent
      waiter the owner. */
  lemma UnlockKeeps(s: State, ceiling: int, t: Thread)
    requires Inv(s, ceiling)
    ensures Inv(Do(s, ceiling, Unlock(t)), ceiling)
    ensures s.owner == Some(t) && s.lockCount == 1 ==> Do(s, ceiling, Unlock(t)).prios[t] == s.base[t]
  {
    hide QueueOk, RemoveAt;
    EmptyOk(s.base, s.late, None);
    if s.waiters != [] {
      UnpendOk(s.waiters, 0, s.owner, s.base, s.late);
      HeadOk(s.waiters, s.owner, s.base, s.late);
    }
  }

  lemma StepKeeps(s: State, ceiling: int, step: Step)
    requires Inv(s, ceiling) && Enabled(s, step)
    ensures Inv(Do(s, ceiling, step), ceiling)
  {
    hide Inv, Do;
    match step
    case Lock(t, noWait) => LockKeeps(s, ceiling, t, noWait);
    case Expire(k) => ExpireKeeps(s, ceiling, k);
    case CleanUp(t) => CleanUpKeeps(s, ceiling, t);
    case Unlock(t) => UnlockKeeps(s, ceiling, t);
  }

  ghost function RunAll(s: State, ceiling: int, steps: seq<Step>): State
    decreases |steps|
  {
    if steps == [] then s
    else RunAll(if Enabled(s, steps[0]) then Do(s, ceiling, steps[0]) else s, ceiling, steps[1..])
  }

  lemma {:induction false} RunKeeps(s: State, ceiling: int, steps: seq<Step>)
    requires Inv(s, ceiling)
    ensures Inv(RunAll(s, ceiling, steps), ceiling)
    decreases |steps|
  {
    hide Inv, Do, Enabled;
    if steps != [] {
      if Enabled(s, steps[0]) { StepKeeps(s, ceiling, steps[0]); }
      RunKeeps(if Enabled(s, steps[0]) then Do(s, ceiling, steps[0]) else s, ceiling, steps[1..]);
    }
  }

  /** The owner is at least as urgent as it is by itself and as each waiter. */
  ghost predicate Upheld(s: State) {
    s.owner.Some? ==>
      var o := s.owner.value;
      && o in s.prios && o in s.base && s.prios[o] <= s.base[o]
      && (forall i :: 0 <= i < |s.waiters| ==> s.prios[o] <= s.waiters[i].prio)
  }

  /** In every reachable state a mutex without owner is unlocked and has no waiters, and no
      thread but the owner has another priority than its own; and if nobody is above the
      ceiling, the owner is at least as urgent as it is by itself and as each waiter, and
      exactly as the most urgent of them once no timed-out thread has clean-up left to do. */
  lemma InheritanceHolds(s: State, ceiling: int, steps: seq<Step>)
    requires Inv(s, ceiling)
    ensures var s' := RunAll(s, ceiling, steps);
      && (s'.owner == None <==> s'.lockCount == 0) && (s'.owner == None ==> s'.waiters == [])
      && (forall t :: t in s'.prios && s'.owner != Some(t) ==> t in s'.base && s'.prios[t] == s'.base[t])
      && (Tame(s'.base, ceiling) ==> Upheld(s'))
      && (Tame(s'.base, ceiling) && s'.owner.Some? && s'.late == {} ==>
            var p := s'.prios[s'.owner.value];
            p == s'.base[s'.owner.value] || exists i :: 0 <= i < |s'.waiters| && p == s'.waiters[i].prio)
  {
    RunKeeps(s, ceiling, steps);
    var s' := RunAll(s, ceiling, steps);
    forall i | 0 < i < |s'.waiters| ensures s'.waiters[0].prio <= s'.waiters[i].prio { }
  }

  // ----- exactly when inheritance works -----

  function Fresh(prios: map<Thread, int>): State {
    State(None, 0, 0, prios, [], prios, {})
  }

  ghost predicate Level(m: map<Thread, int>, p: int) {
    forall t :: t in m ==> m[t] == p
  }

  /** Nobody is above the ceiling, or there are two threads at most and these are equally
      urgent. */
  ghost predicate Safe(prios: map<Thread, int>, ceiling: int) {
    Tame(prios, ceiling) || (|prios| <= 2 && exists p :: Level(prios, p))
  }

  lemma RunStep(s: State, ceiling: int, step: Step, rest: seq<Step>)
    requires Enabled(s, step)
    ensures RunAll(s, ceiling, [step] + rest) == RunAll(Do(s, ceiling, step), ceiling, rest)
    ensures [step] + [] == [step]
  {
    assert ([step] + rest)[1..] == rest;
  }

  /** A thread above the ceiling waits for a less urgent one, which stays less urgent. */
  lemma WaiterAboveCeilingIsNotServed(prios: map<Thread, int>, ceiling: int, u: Thread, t: Thread)
    requires u in prios && t in prios && prios[t] < ceiling && prios[t] < prios[u]
    ensures !Upheld(RunAll(Fresh(prios), ceiling, [Lock(u, false), Lock(t, false)]))
  {
    var s0 := Fresh(prios);
    var s1 := Do(s0, ceiling, Lock(u, false));
    var s2 := Do(s1, ceiling, Lock(t, false));
    assert [Lock(u, false), Lock(t, false)] == [Lock(u, false)] + [Lock(t, false)];
    RunStep(s0, ceiling, Lock(u, false), [Lock(t, false)]);
    RunStep(s1, ceiling, Lock(t, false), []);
    assert s2.waiters[0] == Waiter(t, prios[t], ()) && s2.owner == Some(u);
    assert s2.prios[u] > s2.waiters[0].prio;
  }

  function Demotion(a: Thread, b: Thread, c: Thread): seq<Step> {
    [Lock(a, false), Lock(b, false), Lock(c, false), Expire(1), CleanUp(c)]
  }

  /** Three equally urgent threads above the ceiling: the owner is demoted below its own
      priority when one of two waiters times out. */
  lemma OwnerAboveCeilingLoses(prios: map<Thread, int>, ceiling: int, a: Thread, b: Thread, c: Thread)
    requires a in prios && b in prios && c in prios && a != b && b != c && a != c
    requires prios[a] == prios[b] == prios[c] < ceiling
    ensures !Upheld(RunAll(Fresh(prios), ceiling, Demotion(a, b, c)))
  {
    var w := Waiter(b, prios[b], ());
    var s0 := Fresh(prios);
    var s1 := Do(s0, ceiling, Lock(a, false));
    var s2 := Do(s1, ceiling, Lock(b, false));
    assert s2 == State(Some(a), 1, prios[a], prios, [w], prios, {});
    var s3 := Do(s2, ceiling, Lock(c, false));
    assert Rank(s2.waiters, prios[c]) == 1;
    assert s3.waiters == [w, Waiter(c, prios[c], ())];
    var s4 := Do(s3, ceiling, Expire(1));
    assert s4 == State(Some(a), 1, prios[a], prios, [w], prios, {c});
    var s5 := Do(s4, ceiling, CleanUp(c));
    assert s5.prios[a] == ceiling;
    var l4 := [CleanUp(c)];
    var l3 := [Expire(1)] + l4;
    var l2 := [Lock(c, false)] + l3;
    var l1 := [Lock(b, false)] + l2;
    assert Demotion(a, b, c) == [Lock(a, false)] + l1;
    RunStep(s0, ceiling, Lock(a, false), l1);
    RunStep(s1, ceiling, Lock(b, false), l2);
    RunStep(s2, ceiling, Lock(c, false), l3);
    RunStep(s3, ceiling, Expire(1), l4);
    RunStep(s4, ceiling, CleanUp(c), []);
  }

  lemma FreshOk(prios: map<Thread, int>, ceiling: int)
    ensures Inv(Fresh(prios), ceiling)
  {
  }

  /** With two equally urgent threads nothing ever changes a priority. */
  lemma LevelStep(s: State, ceiling: int, step: Step, p: int)
    requires Inv(s, ceiling) && Enabled(s, step) && Level(s.prios, p) && Level(s.base, p) && |s.base| <= 2
    ensures Level(Do(s, ceiling, step).prios, p) && Do(s, ceiling, step).base == s.base
  {
    if step.CleanUp? && s.owner.Some? && s.waiters != [] {
      HeadOk(s.waiters, s.owner, s.base, s.late);
      ThreeAreTooMany(s.base, s.owner.value, s.waiters[0].thread, step.t);
    }
  }

  lemma ThreeAreTooMany(m: map<Thread, int>, a: Thread, b: Thread, c: Thread)
    requires a in m && b in m && c in m && a != b && b != c && a != c
    ensures |m| >= 3
  {
    assert {a, b, c} <= m.Keys;
    Included({a, b, c}, m.Keys);
  }

  lemma Included(x: set<Thread>, y: set<Thread>)
    requires x <= y
    ensures |x| <= |y|
  {
    assert y == x + (y - x);
  }

  lemma {:induction false} LevelRun(s: State, ceiling: int, steps: seq<Step>, p: int)
    requires Inv(s, ceiling) && Level(s.prios, p) && Level(s.base, p) && |s.base| <= 2
    ensures Upheld(RunAll(s, ceiling, steps))
    decreases |steps|
  {
    hide Do, Enabled;
    if steps == [] {
      forall i | 0 <= i < |s.waiters| ensures s.waiters[i].prio == p {
        assert WaiterOk(s.waiters[i], s.owner, s.base, s.late);
      }
    } else if Enabled(s, steps[0]) {
      StepKeeps(s, ceiling, steps[0]);
      LevelStep(s, ceiling, steps[0], p);
      LevelRun(Do(s, ceiling, steps[0]), ceiling, steps[1..], p);
    } else {
      LevelRun(s, ceiling, steps[1..], p);
    }
  }

  lemma SafeUpholds(prios: map<Thread, int>, ceiling: int, steps: seq<Step>)
    requires Safe(prios, ceiling)
    ensures Upheld(RunAll(Fresh(prios), ceiling, steps))
  {
    FreshOk(prios, ceiling);
    if Tame(prios, ceiling) {
      InheritanceHolds(Fresh(prios), ceiling, steps);
      RunBase(Fresh(prios), ceiling, steps);
    } else {
      var p :| Level(prios, p);
      LevelRun(Fresh(prios), ceiling, steps, p);
    }
  }

  lemma {:induction false} RunBase(s: State, ceiling: int, steps: seq<Step>)
    ensures RunAll(s, ceiling, steps).base == s.base
    decreases |steps|
  {
    if steps != [] {
      RunBase(if Enabled(s, steps[0]) then Do(s, ceiling, steps[0]) else s, ceiling, steps[1..]);
    }
  }

  lemma UnsafeFails(prios: map<Thread, int>, ceiling: int) returns (steps: seq<Step>)
    requires !Safe(prios, ceiling)
    ensures !Upheld(RunAll(Fresh(prios), ceiling, steps))
  {
    hide RunAll, Do, Upheld;
    var t :| t in prios && prios[t] < ceiling;
    if u :| u in prios && prios[u] != prios[t] {
      var hi, lo := if prios[u] < prios[t] then u else t, if prios[u] < prios[t] then t else u;
      WaiterAboveCeilingIsNotServed(prios, ceiling, lo, hi);
      steps := [Lock(lo, false), Lock(hi, false)];
    } else {
      assert Level(prios, prios[t]);
      var b, c := TwoMore(prios, t);
      OwnerAboveCeilingLoses(prios, ceiling, t, b, c);
      steps := Demotion(t, b, c);
    }
  }

  lemma TwoMore(m: map<Thread, int>, a: Thread) returns (b: Thread, c: Thread)
    requires a in m && |m| > 2
    ensures b in m && c in m && a != b && b != c && a != c
  {
    var rest := m.Keys - {a};
    assert |rest| >= 2;
    b :| b in rest;
    var last := rest - {b};
    assert |last| >= 1;
    c :| c in last;
  }

  /** From the unlocked mutex, the owner is at least as urgent as it is by itself and as
      every waiter on every run, exactly if no thread is above the ceiling or there are at
      most two threads and these are equally urgent. */
  lemma UpheldIff(prios: map<Thread, int>, ceiling: int)
    ensures (forall steps :: Upheld(RunAll(Fresh(prios), ceiling, steps))) <==> Safe(prios, ceiling)
  {
    hide RunAll, Upheld, Safe;
    if Safe(prios, ceiling) {
      forall steps ensures Upheld(RunAll(Fresh(prios), ceiling, steps)) {
        SafeUpholds(prios, ceiling, steps);
      }
    } else {
      var steps := UnsafeFails(prios, ceiling);
    }
  }

  // ----- who holds the mutex -----

  /** How a step changes the number of locks a thread holds, as the threads see it: a lock
      call that leaves the caller owner adds one, an unlock by the owner takes one away, and
      an unlock by another that leaves the thread owner completes the lock it waited for. */
  function Gain(before: Option<Thread>, after: Option<Thread>, step: Step, t: Thread): int {
    match step
    case Lock(u, _) => if u == t && after == Some(t) then 1 else 0
    case Unlock(u) =>
      (if u == t && before == Some(t) then -1 else 0) + (if u != t && before != Some(t) && after == Some(t) then 1 else 0)
    case _ => 0
  }

  /** Locks less unlocks of a thread over a run, beginning with `held`. */
  ghost function Held(s: State, ceiling: int, steps: seq<Step>, t: Thread, held: int): int
    decreases |steps|
  {
    if steps == [] then held
    else
      var s' := if Enabled(s, steps[0]) then Do(s, ceiling, steps[0]) else s;
      Held(s', ceiling, steps[1..], t, held + if Enabled(s, steps[0]) then Gain(s.owner, s'.owner, steps[0], t) else 0)
  }

  function Depth(s: State, t: Thread): nat {
    if s.owner == Some(t) then s.lockCount else 0
  }

  lemma GainIs(s: State, ceiling: int, step: Step, t: Thread)
    requires Inv(s, ceiling) && Enabled(s, step)
    ensures var s' := Do(s, ceiling, step); Depth(s', t) == Depth(s, t) + Gain(s.owner, s'.owner, step, t)
  {
    hide QueueOk, Pend, RemoveAt;
    if s.waiters != [] { HeadOk(s.waiters, s.owner, s.base, s.late); }
  }

  lemma {:induction false} HeldIs(s: State, ceiling: int, steps: seq<Step>, t: Thread)
    requires Inv(s, ceiling)
    ensures Held(s, ceiling, steps, t, Depth(s, t)) == Depth(RunAll(s, ceiling, steps), t)
    decreases |steps|
  {
    hide Inv, Do, Enabled, Gain;
    if steps != [] {
      if Enabled(s, steps[0]) {
        StepKeeps(s, ceiling, steps[0]);
        GainIs(s, ceiling, steps[0], t);
        HeldIs(Do(s, ceiling, steps[0]), ceiling, steps[1..], t);
      } else {
        HeldIs(s, ceiling, steps[1..], t);
      }
    }
  }

  /** Over every run from the unlocked mutex: while a thread owns the mutex the lock count is
      the number of its locks less its unlocks, a thread owns it exactly as long as it has
      locked more often than unlocked, and no two threads do. */
  lemma LocksNest(prios: map<Thread, int>, ceiling: int, steps: seq<Step>, t: Thread, u: Thread)
    ensures var s := RunAll(Fresh(prios), ceiling, steps); var held := Held(Fresh(prios), ceiling, steps, t, 0);
      && held >= 0 && (s.owner == Some(t) <==> held > 0) && (s.owner == Some(t) ==> s.lockCount == held)
      && (held > 0 && t != u ==> Held(Fresh(prios), ceiling, steps, u, 0) == 0)
  {
    hide RunAll, Held, QueueOk;
    FreshOk(prios, ceiling);
    HeldIs(Fresh(prios), ceiling, steps, t);
    HeldIs(Fresh(prios), ceiling, steps, u);
    RunKeeps(Fresh(prios), ceiling, steps);
  }

  function Times(step: Step, n: nat): seq<Step> {
    seq(n, _ => step)
  }

  lemma {:induction false} LocksCount(s: State, ceiling: int, t: Thread, n: nat, rest: seq<Step>)
    requires Enabled(s, Lock(t, true)) && s.owner == Some(t) && s.lockCount > 0
    ensures RunAll(s, ceiling, Times(Lock(t, true), n) + rest) == RunAll(s.(lockCount := s.lockCount + n), ceiling, rest)
    decreases n
  {
    if n == 0 {
      assert Times(Lock(t, true), 0) + rest == rest;
    } else {
      var s' := Do(s, ceiling, Lock(t, true));
      assert Times(Lock(t, true), n) + rest == [Lock(t, true)] + (Times(Lock(t, true), n - 1) + rest);
      RunStep(s, ceiling, Lock(t, true), Times(Lock(t, true), n - 1) + rest);
      LocksCount(s', ceiling, t, n - 1, rest);
    }
  }

  lemma {:induction false} UnlocksCount(s: State, ceiling: int, t: Thread, k: nat)
    requires t in s.base && (s.owner == Some(t) ==> s.lockCount > 0) && s.waiters == []
    ensures RunAll(s, ceiling, Times(Unlock(t), k)).owner == Some(t) <==> s.owner == Some(t) && k < s.lockCount
    decreases k
  {
    if k == 0 {
      assert Times(Unlock(t), 0) == [];
    } else {
      var s' := Do(s, ceiling, Unlock(t));
      assert Times(Unlock(t), k) == [Unlock(t)] + Times(Unlock(t), k - 1);
      RunStep(s, ceiling, Unlock(t), Times(Unlock(t), k - 1));
      UnlocksCount(s', ceiling, t, k - 1);
    }
  }

  /** A mutex locked `n` times is free after `n` unlocks and not before. */
  lemma UnlockAsOften(prios: map<Thread, int>, ceiling: int, t: Thread, n: nat, k: nat)
    requires t in prios && n > 0
    ensures RunAll(Fresh(prios), ceiling, Times(Lock(t, true), n) + Times(Unlock(t), k)).owner == Some(t) <==> k < n
  {
    var rest := Times(Unlock(t), k);
    var s1 := Do(Fresh(prios), ceiling, Lock(t, true));
    assert Times(Lock(t, true), n) + rest == [Lock(t, true)] + (Times(Lock(t, true), n - 1) + rest);
    RunStep(Fresh(prios), ceiling, Lock(t, true), Times(Lock(t, true), n - 1) + rest);
    LocksCount(s1, ceiling, t, n - 1, rest);
    UnlocksCount(s1.(lockCount := n), ceiling, t, k);
  }

  /** Exactly when a blocked thread's priority reaches the owner. */
  lemma LockLends(s: State, ceiling: int, t: Thread)
    requires s.lockCount != 0 && s.owner.Some? && s.owner != Some(t) && t in s.prios && s.owner.value in s.prios
    ensures Do(s, ceiling, Lock(t, false)).prios[s.owner.value] <= s.prios[t]
       <==> s.prios[s.owner.value] <= s.prios[t] || ceiling <= s.prios[t]
  {
  }

  /** Exactly when cleaning up leaves the owner as urgent as itself and the first waiter. */
  lemma CleanUpExact(s: State, ceiling: int, t: Thread)
    requires s.owner.Some?
    ensures var p := Do(s, ceiling, CleanUp(t)).prios[s.owner.value];
      (p <= s.origPrio && (s.waiters != [] ==> p <= s.waiters[0].prio)) <==>
        s.waiters == [] || (ceiling <= s.origPrio && ceiling <= s.waiters[0].prio)
  {
    if s.waiters != [] {
      InheritExact(ceiling, s.waiters[0].prio, s.origPrio);
    }
  }

  class Mutex {
    const ceiling: int
    var owner: Option<Thread>
    var lockCount: nat
    var ownerOrigPrio: int
    var prios: map<Thread, int>
    var waiters: Waiting
    ghost var base: map<Thread, int>
    ghost var late: set<Thread>

    ghost function Abs(): State
      reads this
    {
      State(owner, lockCount, ownerOrigPrio, prios, waiters, base, late)
    }

    ghost predicate Valid()
      reads this
    {
      Inv(Abs(), ceiling)
    }

    constructor (ceiling: int, prios: map<Thread, int>)
      ensures Valid() && Abs() == Fresh(prios) && this.ceiling == ceiling
    {
      this.ceiling, this.prios := ceiling, prios;
      owner, lockCount, ownerOrigPrio, waiters := None, 0, 0, [];
      base, late := prios, {};
    }

    method AdjustOwnerPrio(p: int)
      requires owner.Some? && owner.value in prios
      modifies this`prios
      ensures prios == old(prios)[owner.value := p]
    {
      if prios[owner.value] != p {
        prios := prios[owner.value := p];
      }
    }

    /** `k_mutex_lock` up to the wait. */
    method LockMutex(current: Thread, noWait: bool) returns (code: Code)
      requires Valid() && Enabled(Abs(), Lock(current, noWait))
      modifies this
      ensures Valid() && Abs() == Do(old(Abs()), ceiling, Lock(current, noWait))
      ensures code == if old(owner) == None || old(owner) == Some(current) then Done else if noWait then EBusy else Pended
      ensures code == Done ==> owner == Some(current) && lockCount == old(lockCount) + 1 && waiters == old(waiters) && prios == old(prios)
      ensures code == EBusy ==> Abs() == old(Abs())
      ensures code == Pended ==> owner == old(owner) && lockCount == old(lockCount)
      ensures code == Pended ==> waiters == Pend(old(waiters), Waiter(current, base[current], ()))
    {
      hide QueueOk, Pend;
      LockKeeps(Abs(), ceiling, current, noWait);
      if lockCount == 0 || owner == Some(current) {
        ownerOrigPrio := if lockCount == 0 then prios[current] else ownerOrigPrio;
        lockCount := lockCount + 1;
        owner := Some(current);
        return Done;
      }
      if noWait { return EBusy; }
      var p := Inherit(ceiling, prios[current], prios[owner.value]);
      waiters := Pend(waiters, Waiter(current, prios[current], ()));
      if p < prios[owner.value] {
        AdjustOwnerPrio(p);
      }
      code := Pended;
    }

    /** A blocked thread's timeout expires. */
    method ExpireWait(k: nat)
      requires Valid() && k < |waiters|
      modifies this`waiters, this`late
      ensures Valid() && Abs() == Do(old(Abs()), ceiling, Expire(k))
    {
      ExpireKeeps(Abs(), ceiling, k);
      late := late + {waiters[k].thread};
      waiters := RemoveAt(waiters, k);
    }

    /** What `k_mutex_lock` does after its wait has timed out. */
    method CleanUpAfterTimeout(current: Thread) returns (code: Code)
      requires Valid() && current in late
      modifies this`prios, this`late
      ensures Valid() && Abs() == Do(old(Abs()), ceiling, CleanUp(current)) && code == EAgain
    {
      hide QueueOk;
      CleanUpKeeps(Abs(), ceiling, current);
      if owner != None {
        AdjustOwnerPrio(if waiters != [] then Inherit(ceiling, waiters[0].prio, ownerOrigPrio) else ownerOrigPrio);
      }
      late := late - {current};
      code := EAgain;
    }

    /** `k_mutex_unlock`. */
    method UnlockMutex(current: Thread) returns (code: Code)
      requires Valid()
      modifies this
      ensures Valid() && Abs() == Do(old(Abs()), ceiling, Unlock(current))
      ensures code == if old(owner) == None then EInval else if old(owner) != Some(current) then EPerm else Done
      ensures code != Done ==> Abs() == old(Abs())
      ensures code == Done && old(lockCount) > 1 ==> Abs() == old(Abs()).(lockCount := old(lockCount) - 1)
      ensures code == Done && old(lockCount) == 1 ==>
        if old(waiters) == [] then owner == None && lockCount == 0
        else owner == Some(old(waiters)[0].thread) && lockCount == 1 && waiters == old(waiters)[1..]
    {
      hide QueueOk;
      UnlockKeeps(Abs(), ceiling, current);
      if owner == None { return EInval; }
      if owner != Some(current) { return EPerm; }
      code := Done;
      if lockCount > 1 {
        lockCount := lockCount - 1;
        return;
      }
      AdjustOwnerPrio(ownerOrigPrio);
      if waiters != [] {
        HeadOk(waiters, owner, base, late);
        owner := Some(waiters[0].thread);
        ownerOrigPrio := prios[waiters[0].thread];
        waiters := RemoveAt(waiters, 0);
      } else {
        owner := None;
        lockCount := 0;
      }
    }
  }
}
