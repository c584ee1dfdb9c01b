/**
 Wait queues as the scheduler keeps them (kernel/sched.c): ordered by priority, first
 in first out among equal priorities. A numerically lower priority is the more urgent.
 */
module WaitQueues {
  import opened Sequences

  type Thread = nat

  /** A pended thread and what it left behind for whoever wakes it. */
  datatype Waiter<T> = Waiter(thread: Thread, prio: int, info: T)

  /** Number of waiters a thread of this priority queues behind. */
  function Rank<T>(q: seq<Waiter<T>>, prio: int): (k: nat)
    ensures k <= |q|
    ensures forall i :: 0 <= i < k ==> q[i].prio <= prio
    ensures k < |q| ==> prio < q[k].prio
  {
    if q == [] || prio < q[0].prio then 0 else 1 + Rank(q[1..], prio)
  }

  function Pend<T>(q: seq<Waiter<T>>, w: Waiter<T>): seq<Waiter<T>> {
    var k := Rank(q, w.prio);
    q[..k] + [w] + q[k..]
  }

  ghost predicate ByPriority<T>(q: seq<Waiter<T>>) {
    forall i, j :: 0 <= i < j < |q| ==> q[i].prio <= q[j].prio
  }

  lemma PendAt<T>(q: seq<Waiter<T>>, w: Waiter<T>, i: nat)
    requires i <= |q|
    ensures var k := Rank(q, w.prio);
      |Pend(q, w)| == |q| + 1 && Pend(q, w)[i] == if i < k then q[i] else if i == k then w else q[i - 1]
  {
  }

  /** The head of the queue is a most urgent waiter, and stays so under both operations. */
  lemma PendKeepsOrder<T>(q: seq<Waiter<T>>, w: Waiter<T>)
    requires ByPriority(q)
    ensures ByPriority(Pend(q, w))
    ensures forall x :: x in Pend(q, w) <==> x == w || x in q
  {
    hide Rank, Pend;
    PendHolds(q, w);
    var k := Rank(q, w.prio);
    var p := Pend(q, w);
    forall i, j | 0 <= i < j < |p| ensures p[i].prio <= p[j].prio {
      PendAt(q, w, i);
      PendAt(q, w, j);
      assert k < |q| && k < j ==> q[k].prio <= q[j - 1].prio;
    }
  }

  lemma PendHolds<T>(q: seq<Waiter<T>>, w: Waiter<T>)
    ensures |Pend(q, w)| == |q| + 1 && forall x :: x in Pend(q, w) <==> x == w || x in q
  {
    hide Rank;
    var k := Rank(q, w.prio);
    assert q == q[..k] + q[k..];
  }

  /** In order and without repetition. */
  ghost predicate ListOk<T>(q: seq<Waiter<T>>) {
    ByPriority(q) && forall i, j :: 0 <= i < j < |q| ==> q[i] != q[j]
  }

  lemma PendList<T>(q: seq<Waiter<T>>, w: Waiter<T>)
    requires ListOk(q) && w !in q
    ensures ListOk(Pend(q, w)) && forall x :: x in Pend(q, w) <==> x == w || x in q
  {
    hide Rank;
    PendKeepsOrder(q, w);
  }

  lemma UnpendList<T>(q: seq<Waiter<T>>, k: nat)
    requires ListOk(q) && k < |q|
    ensures ListOk(RemoveAt(q, k)) && forall x :: x in RemoveAt(q, k) <==> x != q[k] && x in q
  {
    assert q == q[..k] + [q[k]] + q[k + 1..];
  }

  /** The place `Rank` gives is the only one that keeps the order and first in, first out. */
  lemma RankIs<T>(q: seq<Waiter<T>>, prio: int, k: nat)
    requires ByPriority(q) && k <= |q| && (k < |q| ==> prio < q[k].prio)
    requires k > 0 ==> q[k - 1].prio <= prio
    ensures Rank(q, prio) == k
  {
    forall j | 0 <= j < k ensures q[j].prio <= prio {
      if j < k - 1 {
        assert q[j].prio <= q[k - 1].prio;
      }
    }
  }
}
