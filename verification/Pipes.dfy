/**
 Kernel pipes (kernel/pipes.c): a ring buffer, a queue of blocked readers and a queue of
 blocked writers. A pipe is proved to carry one byte stream: the ring's contents
 followed by what the blocked writers still have to send.
 */
module Pipes {
  import opened Arithmetic
  import opened Memory
  import opened Sequences
  import opened WaitQueues

  // ----- copying from a list of sources to a list of destinations -----

  /** All bytes of a source list, in order. */
  function Flatten(ss: seq<Bytes>): Bytes {
    if ss == [] then [] else ss[0] + Flatten(ss[1..])
  }

  function Total(caps: seq<nat>): nat {
    if caps == [] then 0 else caps[0] + Total(caps[1..])
  }

  /** How `data` spreads over destinations with the given capacities. */
  function Deal(caps: seq<nat>, data: Bytes): (r: seq<Bytes>)
    ensures |r| == |caps|
  {
    if caps == [] then []
    else
      var n := Min(caps[0], |data|);
      [data[..n]] + Deal(caps[1..], data[n..])
  }

  lemma {:induction false} DealFits(caps: seq<nat>, data: Bytes)
    ensures forall i :: 0 <= i < |caps| ==> |Deal(caps, data)[i]| <= caps[i]
  {
    if caps != [] { DealFits(caps[1..], data[Min(caps[0], |data|)..]); }
  }

  /** What remains of each source after `n` bytes have been taken from the front. */
  function Drop(ss: seq<Bytes>, n: nat): (r: seq<Bytes>)
    ensures |r| == |ss|
  {
    if ss == [] then []
    else
      var m := Min(n, |ss[0]|);
      [ss[0][m..]] + Drop(ss[1..], n - m)
  }

  function Blank(k: nat): seq<Bytes> {
    seq(k, _ => [])
  }

  /** Puts `g` in front of the first chunk. */
  function Prefix(g: Bytes, chunks: seq<Bytes>): seq<Bytes> {
    if chunks == [] then [] else [g + chunks[0]] + chunks[1..]
  }

  lemma DealCopy(caps: seq<nat>, data: Bytes, n: nat)
    requires caps != [] && n <= caps[0] && n <= |data|
    ensures Deal(caps, data) == Prefix(data[..n], Deal(caps[0 := caps[0] - n], data[n..]))
  {
    var m := Min(caps[0], |data|);
    assert data[..m] == data[..n] + data[n..][..m - n];
    assert data[m..] == data[n..][m - n..];
  }

  lemma DropCopy(ss: seq<Bytes>, k: nat, n: nat)
    requires ss != [] && n <= |ss[0]| && n <= k
    ensures Drop(ss, k) == Drop(ss[0 := ss[0][n..]], k - n)
  {
    var m := Min(k, |ss[0]|);
    assert ss[0][m..] == ss[0][n..][m - n..];
  }

  lemma {:induction false} DealNothing(caps: seq<nat>)
    ensures Deal(caps, []) == Blank(|caps|)
  {
    if caps != [] { DealNothing(caps[1..]); }
  }

  lemma {:induction false} DropNothing(ss: seq<Bytes>)
    ensures Drop(ss, 0) == ss
  {
    if ss != [] { DropNothing(ss[1..]); }
  }

  lemma FlattenHead(ss: seq<Bytes>, n: nat)
    requires ss != [] && n <= |ss[0]|
    ensures n <= |Flatten(ss)| && Flatten(ss)[..n] == ss[0][..n] && Flatten(ss)[n..] == Flatten(ss[0 := ss[0][n..]])
  {
    assert ss[0 := ss[0][n..]][1..] == ss[1..];
  }

  lemma TotalHead(caps: seq<nat>, n: nat)
    requires caps != [] && n <= caps[0]
    ensures Total(caps[0 := caps[0] - n]) == Total(caps) - n
  {
    assert caps[0 := caps[0] - n][1..] == caps[1..];
  }

  /** One round of the copy loop moves as much as the first source and the first
      destination allow. */
  lemma CopyStep(ss: seq<Bytes>, caps: seq<nat>, n: nat)
    requires ss != [] && caps != [] && n == Min(caps[0], |ss[0]|)
    ensures var ss', caps' := ss[0 := ss[0][n..]], caps[0 := caps[0] - n];
      && Deal(caps, Flatten(ss)) == Prefix(ss[0][..n], Deal(caps', Flatten(ss')))
      && Drop(ss, Total(caps)) == Drop(ss', Total(caps'))
  {
    hide Deal, Drop, Flatten, Total, Prefix;
    FlattenHead(ss, n);
    TotalHead(caps, n);
    DealCopy(caps, Flatten(ss), n);
    DropCopy(ss, Total(caps), n);
  }

  lemma PopSource(ss: seq<Bytes>, k: nat)
    requires ss != [] && ss[0] == []
    ensures Flatten(ss) == Flatten(ss[1..]) && Drop(ss, k) == [[]] + Drop(ss[1..], k)
  {
  }

  lemma PopDestination(caps: seq<nat>, data: Bytes)
    requires caps != [] && caps[0] == 0
    ensures Total(caps) == Total(caps[1..]) && Deal(caps, data) == [[]] + Deal(caps[1..], data)
  {
    assert data[0..] == data;
  }

  lemma {:induction false} FlattenAppend(ss: seq<Bytes>, x: Bytes)
    ensures Flatten(ss + [x]) == Flatten(ss) + x
  {
    if ss != [] {
      FlattenAppend(ss[1..], x);
      assert (ss + [x])[1..] == ss[1..] + [x];
    }
  }

  /** Empty chunks at the end add nothing. */
  lemma {:induction false} FlattenPad(ss: seq<Bytes>, k: nat)
    ensures Flatten(ss + Blank(k)) == Flatten(ss)
  {
    if k == 0 {
      assert ss + Blank(k) == ss;
    } else {
      FlattenPad(ss, k - 1);
      assert ss + Blank(k) == (ss + Blank(k - 1)) + [[]];
      FlattenAppend(ss + Blank(k - 1), []);
    }
  }

  lemma PrefixLaws(g: Bytes, c: Bytes, d: seq<Bytes>)
    ensures Prefix(g, Prefix(c, d)) == Prefix(g + c, d)
    ensures Prefix([], d) == d
    ensures Prefix(g, [[]] + d) == [g] + d
  {
    assert ([[]] + d)[1..] == d && g + [] == g;
    if d != [] {
      assert g + (c + d[0]) == (g + c) + d[0] && [] + d[0] == d[0];
    }
  }

  /** What has gone to the ring, which is every destination from the `nr`-th on. */
  ghost function RingShare(got: seq<Bytes>, g: Bytes, nr: nat): Bytes {
    if |got| < nr then [] else Flatten(got[nr..]) + g
  }

  lemma ShareStart(nr: nat)
    ensures RingShare([], [], nr) == []
  {
  }

  lemma ShareCopy(got: seq<Bytes>, g: Bytes, chunk: Bytes, nr: nat)
    ensures RingShare(got, g + chunk, nr) == RingShare(got, g, nr) + if |got| < nr then [] else chunk
  {
  }

  lemma SharePop(got: seq<Bytes>, g: Bytes, nr: nat)
    ensures RingShare(got + [g], [], nr) == RingShare(got, g, nr)
  {
    if |got| >= nr {
      assert (got + [g])[nr..] == got[nr..] + [g];
      FlattenAppend(got[nr..], g);
    }
  }

  /** The end of the loop: one unfinished destination and `k` untouched ones. */
  lemma SharePad(got: seq<Bytes>, g: Bytes, nr: nat, k: nat)
    requires |got| + 1 + k >= nr
    ensures Flatten((got + ([g] + Blank(k)))[nr..]) == RingShare(got, g, nr)
  {
    var all := got + ([g] + Blank(k));
    if |got| >= nr {
      assert all[nr..] == (got[nr..] + [g]) + Blank(k);
      FlattenAppend(got[nr..], g);
      FlattenPad(got[nr..] + [g], k);
    } else {
      assert all[nr..] == [] + Blank(|got| + 1 + k - nr);
      FlattenPad([], |got| + 1 + k - nr);
    }
  }

  lemma ShareAll(got: seq<Bytes>, nr: nat)
    requires nr <= |got|
    ensures Flatten(got[nr..]) == RingShare(got, [], nr)
  {
  }

  /** Where the copy loop stands: `rest` and `got` are the finished sources and
      destinations, `ss` and `caps` those still listed, `g` what the first of `caps` has. */
  ghost predicate Progress(srcs: seq<Bytes>, all: seq<nat>, ss: seq<Bytes>, caps: seq<nat>,
                           rest: seq<Bytes>, got: seq<Bytes>, g: Bytes)
  {
    && |got| + |caps| == |all|
    && (caps == [] ==> g == [])
    && Deal(all, Flatten(srcs)) == got + Prefix(g, Deal(caps, Flatten(ss)))
    && Drop(srcs, Total(all)) == rest + Drop(ss, Total(caps))
  }

  lemma ProgressStart(srcs: seq<Bytes>, all: seq<nat>)
    ensures Progress(srcs, all, srcs, all, [], [], [])
  {
    PrefixLaws([], [], Deal(all, Flatten(srcs)));
  }

  lemma ProgressCopy(srcs: seq<Bytes>, all: seq<nat>, ss: seq<Bytes>, caps: seq<nat>,
                     rest: seq<Bytes>, got: seq<Bytes>, g: Bytes, n: nat)
    requires Progress(srcs, all, ss, caps, rest, got, g)
    requires ss != [] && caps != [] && n == Min(caps[0], |ss[0]|)
    ensures Progress(srcs, all, ss[0 := ss[0][n..]], caps[0 := caps[0] - n], rest, got, g + ss[0][..n])
  {
    hide Deal, Drop, Flatten, Total;
    CopyStep(ss, caps, n);
    PrefixLaws(g, ss[0][..n], Deal(caps[0 := caps[0] - n], Flatten(ss[0 := ss[0][n..]])));
  }

  lemma ProgressSource(srcs: seq<Bytes>, all: seq<nat>, ss: seq<Bytes>, caps: seq<nat>,
                       rest: seq<Bytes>, got: seq<Bytes>, g: Bytes)
    requires Progress(srcs, all, ss, caps, rest, got, g) && ss != [] && ss[0] == []
    ensures Progress(srcs, all, ss[1..], caps, rest + [[]], got, g)
  {
    hide Deal, Drop, Flatten, Total;
    PopSource(ss, Total(caps));
  }

  lemma ProgressDestination(srcs: seq<Bytes>, all: seq<nat>, ss: seq<Bytes>, caps: seq<nat>,
                            rest: seq<Bytes>, got: seq<Bytes>, g: Bytes)
    requires Progress(srcs, all, ss, caps, rest, got, g) && caps != [] && caps[0] == 0
    ensures Progress(srcs, all, ss, caps[1..], rest, got + [g], [])
  {
    hide Deal, Drop, Flatten, Total;
    PopDestination(caps, Flatten(ss));
    PrefixLaws(g, [], Deal(caps[1..], Flatten(ss)));
  }

  lemma ProgressDone(srcs: seq<Bytes>, all: seq<nat>, ss: seq<Bytes>, caps: seq<nat>,
                     rest: seq<Bytes>, got: seq<Bytes>, g: Bytes)
    requires Progress(srcs, all, ss, caps, rest, got, g) && (ss == [] || caps == [])
    ensures Drop(srcs, Total(all)) == rest + ss
    ensures Deal(all, Flatten(srcs)) == got + if caps == [] then [] else [g] + Blank(|caps| - 1)
  {
    if ss == [] {
      DealNothing(caps);
      if caps != [] {
        assert Deal(caps, []) == [[]] + Blank(|caps| - 1);
        PrefixLaws(g, [], Blank(|caps| - 1));
      }
    } else {
      DropNothing(ss);
    }
  }

  /** Nothing is lost, duplicated or reordered by a transfer. */
  lemma {:induction false} TransferConserves(ss: seq<Bytes>, caps: seq<nat>)
    ensures Flatten(Deal(caps, Flatten(ss))) + Flatten(Drop(ss, Total(caps))) == Flatten(ss)
  {
    DealTakes(caps, Flatten(ss));
    DropLeaves(ss, Total(caps));
  }

  lemma {:induction false} DealTakes(caps: seq<nat>, data: Bytes)
    ensures Flatten(Deal(caps, data)) == First(data, Total(caps))
  {
    if caps != [] {
      var n := Min(caps[0], |data|);
      DealTakes(caps[1..], data[n..]);
      assert data[..Min(Total(caps), |data|)] == data[..n] + data[n..][..Min(Total(caps[1..]), |data| - n)];
    }
  }

  lemma {:induction false} DropLeaves(ss: seq<Bytes>, n: nat)
    ensures Flatten(Drop(ss, n)) == After(Flatten(ss), n)
  {
    hide After;
    if ss == [] {
      AfterIs([], n);
    } else {
      DropLeaves(ss[1..], n - Min(n, |ss[0]|));
      AfterSplit(ss[0], Flatten(ss[1..]), n);
      AfterIs(ss[0], n);
    }
  }

  lemma AfterIs(a: Bytes, n: nat)
    ensures After(a, n) == a[Min(n, |a|)..]
  {
  }

  /** The first `n` bytes, or all of them when there are fewer. */
  function First(data: Bytes, n: nat): Bytes {
    data[..Min(n, |data|)]
  }

  /** Everything after the first `n` bytes. */
  function After(data: Bytes, n: nat): Bytes {
    data[Min(n, |data|)..]
  }

  function Excess(a: nat, b: nat): nat {
    if a <= b then 0 else a - b
  }

  function Lengths(ss: seq<Bytes>): (r: seq<nat>)
    ensures |r| == |ss|
  {
    seq(|ss|, i requires 0 <= i < |ss| => |ss[i]|)
  }

  lemma DealUnfold(caps: seq<nat>, data: Bytes)
    requires caps != []
    ensures Deal(caps, data) == [First(data, caps[0])] + Deal(caps[1..], After(data, caps[0]))
  {
  }

  lemma DealNone(data: Bytes)
    ensures Deal([], data) == [] && After(data, 0) == data
  {
  }

  lemma AfterAfter(data: Bytes, m: nat, n: nat)
    ensures After(After(data, m), n) == After(data, m + n)
  {
  }

  lemma {:induction false} DealSplit(a: seq<nat>, b: seq<nat>, data: Bytes)
    ensures Deal(a + b, data) == Deal(a, data) + Deal(b, After(data, Total(a)))
  {
    hide Deal, First, After;
    if a == [] {
      DealNone(data);
      assert a + b == b;
    } else {
      DealUnfold(a, data);
      DealUnfold(a + b, data);
      AfterAfter(data, a[0], Total(a[1..]));
      assert (a + b)[1..] == a[1..] + b;
      DealSplit(a[1..], b, After(data, a[0]));
    }
  }

  lemma DropNone(n: nat)
    ensures Drop([], n) == [] && Flatten([]) == []
  {
  }

  lemma {:induction false} DropSplit(a: seq<Bytes>, b: seq<Bytes>, n: nat)
    ensures Drop(a + b, n) == Drop(a, n) + Drop(b, Excess(n, |Flatten(a)|))
    ensures Flatten(a + b) == Flatten(a) + Flatten(b)
  {
    hide Drop, Flatten;
    if a == [] {
      DropNone(n);
      assert a + b == b;
    } else {
      var m := n - Min(n, |a[0]|);
      DropUnfold(a, n);
      DropUnfold(a + b, n);
      assert (a + b)[1..] == a[1..] + b;
      DropSplit(a[1..], b, m);
      assert Excess(m, |Flatten(a[1..])|) == Excess(n, |Flatten(a)|);
    }
  }

  lemma {:induction false} TotalSplit(a: seq<nat>, b: seq<nat>)
    ensures Total(a + b) == Total(a) + Total(b)
  {
    if a == [] {
      assert a + b == b;
    } else {
      TotalSplit(a[1..], b);
      assert (a + b)[1..] == a[1..] + b;
    }
  }

  lemma {:induction false} TotalLengths(ss: seq<Bytes>)
    ensures Total(Lengths(ss)) == |Flatten(ss)|
  {
    if ss != [] {
      TotalLengths(ss[1..]);
      assert Lengths(ss)[1..] == Lengths(ss[1..]);
    }
  }

  /** When there is enough data every destination is filled. */
  lemma {:induction false} DealFull(caps: seq<nat>, data: Bytes)
    requires Total(caps) <= |data|
    ensures forall i :: 0 <= i < |caps| ==> |Deal(caps, data)[i]| == caps[i]
  {
    if caps != [] {
      DealFull(caps[1..], data[caps[0]..]);
      assert forall i :: 0 < i < |caps| ==> Deal(caps, data)[i] == Deal(caps[1..], data[caps[0]..])[i - 1];
    }
  }

  lemma FirstAfter(data: Bytes, n: nat)
    ensures First(data, n) + After(data, n) == data
    ensures |After(data, n)| == Excess(|data|, n) && |First(data, n)| == Min(n, |data|)
  {
  }

  /** Looking only at the first `k` destinations is enough once they can take it all. */
  lemma WalkEnough(all: seq<nat>, k: nat, data: Bytes)
    requires k <= |all| && (k == |all| || Total(all[..k]) >= |data|)
    ensures Deal(all, data) == Deal(all[..k], data) + Blank(|all| - k)
    ensures After(data, Total(all)) == After(data, Total(all[..k]))
    ensures Total(all[..k]) <= Total(all)
  {
    hide Deal, Total, First, After;
    FirstAfter(data, Total(all));
    FirstAfter(data, Total(all[..k]));
    if k == |all| {
      assert all[..k] == all;
      assert Blank(0) == [];
    } else {
      assert all == all[..k] + all[k..];
      DealSplit(all[..k], all[k..], data);
      TotalSplit(all[..k], all[k..]);
      DealNothing(all[k..]);
    }
  }

  /** What the walk found tells how much all of them together want, as far as it matters. */
  lemma WalkTells(all: seq<nat>, k: nat, n: nat)
    requires k <= |all| && (k == |all| || Total(all[..k]) >= n)
    ensures Total(all[..k]) == Total(all) || n <= Total(all[..k]) <= Total(all)
  {
    TotalSplit(all[..k], all[k..]);
    assert all == all[..k] + all[k..];
  }

  /** What a put copies: first to the readers, then to the ring. */
  lemma PutCopies(all: seq<nat>, k: nat, segs: seq<nat>, data: Bytes)
    requires k <= |all| && (k == |all| || Total(all[..k]) >= |data|)
    ensures var got := Deal(all[..k] + segs, Flatten([data]));
      && got[..k] + Blank(|all| - k) == Deal(all, data)
      && Flatten(got[k..]) == First(After(data, Total(all)), Total(segs))
    ensures Drop([data], Total(all[..k] + segs)) == [After(After(data, Total(all)), Total(segs))]
  {
    assert Flatten([data]) == data;
    WalkEnough(all, k, data);
    DealSplit(all[..k], segs, data);
    DealTakes(segs, After(data, Total(all)));
    TotalSplit(all[..k], segs);
    AfterAfter(data, Total(all[..k]), Total(segs));
  }

  lemma FlattenNone(ss: seq<Bytes>)
    ensures ss == [] ==> Flatten(ss) == []
  {
  }

  lemma TotalUnfold(caps: seq<nat>)
    requires caps != []
    ensures Total(caps) == caps[0] + Total(caps[1..])
  {
  }

  lemma TotalNone()
    ensures Total([]) == 0
  {
  }

  lemma FirstOf(chunk: Bytes, more: Bytes, n: nat)
    requires |chunk| <= n
    ensures First(chunk + more, n) == chunk + First(more, n - |chunk|)
  {
  }

  lemma DropUnfold(ss: seq<Bytes>, n: nat)
    requires ss != []
    ensures Drop(ss, n) == [ss[0][Min(n, |ss[0]|)..]] + Drop(ss[1..], n - Min(n, |ss[0]|))
    ensures Flatten(ss) == ss[0] + Flatten(ss[1..])
  {
  }

  /** Number of waiters looked at until they offer `requested` bytes. */
  function WalkCount(lens: seq<nat>, requested: nat): (k: nat)
    ensures k <= |lens|
  {
    if lens == [] then 0
    else if lens[0] >= requested then 1
    else 1 + WalkCount(lens[1..], requested - lens[0])
  }

  lemma {:induction false} WalkOffers(lens: seq<nat>, requested: nat)
    ensures var k := WalkCount(lens, requested); k == |lens| || Total(lens[..k]) >= requested
  {
    if lens != [] && lens[0] < requested {
      var k := WalkCount(lens[1..], requested - lens[0]);
      WalkOffers(lens[1..], requested - lens[0]);
      assert lens[..k + 1][1..] == lens[1..][..k];
    }
  }

  /** Taking `taken <= n` bytes involves none of the sources beyond the walk. */
  lemma WalkDrops(ds: seq<Bytes>, n: nat, taken: nat)
    requires taken <= n
    ensures var k := WalkCount(Lengths(ds), n);
      && Drop(ds, taken) == Drop(ds[..k], taken) + ds[k..]
      && Flatten(ds) == Flatten(ds[..k]) + Flatten(ds[k..])
      && (k == |ds| || |Flatten(ds[..k])| >= n)
      && Total(Lengths(ds)[..k]) == |Flatten(ds[..k])|
  {
    hide Drop, Flatten, Total;
    var k := WalkCount(Lengths(ds), n);
    WalkOffers(Lengths(ds), n);
    assert ds == ds[..k] + ds[k..] && Lengths(ds)[..k] == Lengths(ds[..k]);
    TotalLengths(ds[..k]);
    DropSplit(ds[..k], ds[k..], taken);
    DropNothing(ds[k..]);
  }

  lemma FirstNone(data: Bytes)
    ensures First(data, 0) == []
  {
  }

  lemma FirstEnough(r: Bytes, a: Bytes, b: Bytes, n: nat)
    requires b == [] || |a| >= n
    ensures First(r + a, n) == First(r + (a + b), n)
  {
  }

  lemma AfterSplit(a: Bytes, b: Bytes, n: nat)
    ensures After(a + b, n) == After(a, n) + After(b, Excess(n, |a|))
  {
  }

  /** What a refill copies from the writers it looks at. */
  lemma RefillCopies(ds: seq<Bytes>, segs: seq<nat>)
    ensures var k := WalkCount(Lengths(ds), Total(segs));
      && Flatten(Deal([] + segs, Flatten(ds[..k]))[0..]) == First(Flatten(ds), Total(segs))
      && Drop(ds[..k], Total([] + segs)) + ds[k..] == Drop(ds, Total(segs))
  {
    hide Deal, Drop, Total, Flatten, WalkCount, First;
    var k := WalkCount(Lengths(ds), Total(segs));
    WalkDrops(ds, Total(segs), Total(segs));
    DealTakes(segs, Flatten(ds[..k]));
    FlattenNone(ds[k..]);
    FirstEnough([], Flatten(ds[..k]), Flatten(ds[k..]), Total(segs));
    assert [] + segs == segs;
    assert [] + Flatten(ds[..k]) == Flatten(ds[..k]) && [] + Flatten(ds) == Flatten(ds);
  }

  // ----- the ring buffer -----

  /** The bytes in the ring, oldest first. */
  function Ring(buf: Bytes, r: nat, used: nat): (c: Bytes)
    requires r <= |buf| && used <= |buf|
    ensures |c| == used
  {
    if r + used <= |buf| then buf[r..r + used] else buf[r..] + buf[..r + used - |buf|]
  }

  function Splice(buf: Bytes, at: nat, chunk: Bytes): Bytes
    requires at + |chunk| <= |buf|
  {
    buf[..at] + chunk + buf[at + |chunk|..]
  }

  lemma RingAt(buf: Bytes, r: nat, used: nat, i: nat)
    requires r <= |buf| && i < used <= |buf|
    ensures Ring(buf, r, used)[i] == buf[Wrap(r + i, |buf|)]
  {
  }

  lemma RingPush(buf: Bytes, r: nat, used: nat, chunk: Bytes)
    requires r < |buf| && used + |chunk| <= |buf| && Wrap(r + used, |buf|) + |chunk| <= |buf|
    ensures Ring(Splice(buf, Wrap(r + used, |buf|), chunk), r, used + |chunk|) == Ring(buf, r, used) + chunk
  {
    hide Ring;
    var buf' := Splice(buf, Wrap(r + used, |buf|), chunk);
    var a, b := Ring(buf', r, used + |chunk|), Ring(buf, r, used) + chunk;
    forall i | 0 <= i < used + |chunk| ensures a[i] == b[i] {
      RingAt(buf', r, used + |chunk|, i);
      if i < used {
        RingAt(buf, r, used, i);
      }
    }
  }

  lemma RingPop(buf: Bytes, r: nat, used: nat, n: nat)
    requires r < |buf| && n <= used <= |buf| && r + n <= |buf|
    ensures Ring(buf, r, used) == buf[r..r + n] + Ring(buf, Wrap(r + n, |buf|), used - n)
  {
    hide Ring;
    var a, b := Ring(buf, r, used), buf[r..r + n] + Ring(buf, Wrap(r + n, |buf|), used - n);
    forall i | 0 <= i < used ensures a[i] == b[i] {
      RingAt(buf, r, used, i);
      if i >= n {
        RingAt(buf, Wrap(r + n, |buf|), used - n, i - n);
      }
    }
  }

  /** The stretches of the buffer from `start` round to `end`. */
  function Segments(size: nat, start: nat, end: nat): seq<nat>
    requires start <= size
  {
    if start < end then [end - start] else [size - start, end]
  }

  /** The listed stretches can be written one after the other from index `w`. */
  ghost predicate Fits(size: nat, w: nat, free: nat, segs: seq<nat>) {
    match |segs|
    case 0 => true
    case 1 => segs[0] <= free && w + segs[0] <= size
    case 2 => segs[0] + segs[1] <= free && w + segs[0] <= size && segs[1] <= size && Wrap(w + segs[0], size) == 0
    case _ => false
  }

  /** Using up `n` of the first stretch. */
  lemma FitsStep(size: nat, w: nat, free: nat, segs: seq<nat>, n: nat)
    requires Fits(size, w, free, segs) && segs != [] && n <= segs[0] && w < size
    ensures n <= free && w + n <= size
    ensures Fits(size, Wrap(w + n, size), free - n, segs[0 := segs[0] - n])
    ensures n == segs[0] ==> Fits(size, Wrap(w + n, size), free - n, segs[1..])
  {
  }

  lemma SegmentsFit(size: nat, from: nat, len: nat)
    requires 0 < len <= size && from < size
    ensures var segs := Segments(size, from, Wrap(from + len, size));
      Fits(size, from, len, segs) && Total(segs) == len
  {
    var end := Wrap(from + len, size);
    if from >= end {
      assert Total([size - from, end]) == size - from + Total([end]);
    }
  }

  /** Where the read loop stands: `c` is what is left in the ring, `ds` the writers'
      data still listed, `left` what the finished writers keep. */
  ghost predicate Reading(all: Bytes, sources: seq<Bytes>, n: nat,
                          c: Bytes, ds: seq<Bytes>, out: Bytes, room: nat, left: seq<Bytes>)
  {
    && |out| + room == n
    && |c| <= |all| <= |c| + n && c == all[|all| - |c|..]
    && (|c| > 0 ==> room == n - (|all| - |c|))
    && out + First(c + Flatten(ds), room) == First(all + Flatten(sources), n)
    && left + Drop(ds, Excess(room, |c|)) == Drop(sources, Excess(n, |all|))
  }

  lemma ReadRing(all: Bytes, sources: seq<Bytes>, n: nat, chunk: Bytes, c: Bytes,
                 ds: seq<Bytes>, out: Bytes, room: nat, left: seq<Bytes>)
    requires Reading(all, sources, n, chunk + c, ds, out, room, left) && |chunk| <= room
    ensures Reading(all, sources, n, c, ds, out + chunk, room - |chunk|, left)
  {
    hide First, Flatten, Drop;
    assert (chunk + c)[|chunk|..] == c;
    assert chunk + c + Flatten(ds) == chunk + (c + Flatten(ds));
    FirstOf(chunk, c + Flatten(ds), room);
  }

  lemma ReadWriter(all: Bytes, sources: seq<Bytes>, n: nat, c: Bytes,
                   ds: seq<Bytes>, out: Bytes, room: nat, left: seq<Bytes>)
    requires Reading(all, sources, n, c, ds, out, room, left) && ds != [] && (room == 0 || c == [])
    ensures var m := Min(room, |ds[0]|);
      Reading(all, sources, n, c, ds[1..], out + ds[0][..m], room - m, left + [ds[0][m..]])
  {
    hide Flatten, Drop;
    var m := Min(room, |ds[0]|);
    DropUnfold(ds, Excess(room, |c|));
    if room > 0 {
      assert c + Flatten(ds) == ds[0][..m] + (ds[0][m..] + Flatten(ds[1..]));
      FirstOf(ds[0][..m], ds[0][m..] + Flatten(ds[1..]), room);
      assert First(ds[0][m..] + Flatten(ds[1..]), room - m) == First(c + Flatten(ds[1..]), room - m);
    }
  }

  lemma ReadDone(all: Bytes, sources: seq<Bytes>, n: nat, c: Bytes, out: Bytes, room: nat, left: seq<Bytes>)
    requires Reading(all, sources, n, c, [], out, room, left) && (room == 0 || c == [])
    ensures c == After(all, n) && out == First(all + Flatten(sources), n) && left == Drop(sources, Excess(n, |all|))
  {
  }

  lemma ReadStart(all: Bytes, sources: seq<Bytes>, n: nat)
    ensures Reading(all, sources, n, all, sources, [], n, [])
  {
    hide First, Drop;
  }

  // ----- blocked threads -----

  /** A blocked read: the bytes it has so far and how many it still wants. */
  datatype Want = Want(got: Bytes, room: nat)

  type Reader = Waiter<Want>
  type Writer = Waiter<Bytes>

  function Rooms(rs: seq<Reader>): (r: seq<nat>)
    ensures |r| == |rs|
  {
    seq(|rs|, i requires 0 <= i < |rs| => rs[i].info.room)
  }

  function Data(ws: seq<Writer>): (r: seq<Bytes>)
    ensures |r| == |ws|
  {
    seq(|ws|, i requires 0 <= i < |ws| => ws[i].info)
  }

  function WithData(ws: seq<Writer>, ds: seq<Bytes>): (r: seq<Writer>)
    requires |ds| == |ws|
    ensures |r| == |ws|
  {
    seq(|ws|, i requires 0 <= i < |ws| => ws[i].(info := ds[i]))
  }

  predicate ChunksFit(rs: seq<Reader>, chunks: seq<Bytes>) {
    |chunks| == |rs| && forall i :: 0 <= i < |rs| ==> |chunks[i]| <= rs[i].info.room
  }

  /** Hands each reader its chunk. */
  function Serve(rs: seq<Reader>, chunks: seq<Bytes>): seq<Reader>
    requires ChunksFit(rs, chunks)
  {
    seq(|rs|, i requires 0 <= i < |rs| =>
      rs[i].(info := Want(rs[i].info.got + chunks[i], rs[i].info.room - |chunks[i]|)))
  }

  /** The readers after `data` has been offered to them in queue order. */
  function Offer(rs: seq<Reader>, data: Bytes): seq<Reader> {
    DealFits(Rooms(rs), data);
    Serve(rs, Deal(Rooms(rs), data))
  }

  lemma OfferIs(rs: seq<Reader>, data: Bytes)
    ensures ChunksFit(rs, Deal(Rooms(rs), data))
    ensures Offer(rs, data) == Serve(rs, Deal(Rooms(rs), data))
  {
    DealFits(Rooms(rs), data);
  }

  function Unserved(rs: seq<Reader>): seq<Reader> {
    if rs == [] then [] else (if rs[0].info.room > 0 then [rs[0]] else []) + Unserved(rs[1..])
  }

  function Served(rs: seq<Reader>): seq<Reader> {
    if rs == [] then [] else (if rs[0].info.room > 0 then [] else [rs[0]]) + Served(rs[1..])
  }

  function Unsent(ws: seq<Writer>): seq<Writer> {
    if ws == [] then [] else (if ws[0].info != [] then [ws[0]] else []) + Unsent(ws[1..])
  }

  function Sent(ws: seq<Writer>): seq<Writer> {
    if ws == [] then [] else (if ws[0].info != [] then [] else [ws[0]]) + Sent(ws[1..])
  }

  /** The blocked writers after a get took `taken` of their bytes for a reader of `n`,
      released those it found with nothing left and moved `free` more bytes to the ring. */
  function WritersAfter(ws: seq<Writer>, n: nat, taken: nat, free: nat): seq<Writer> {
    var ws' := Released(ws, n, taken);
    WithData(ws', Drop(Data(ws'), free))
  }

  lemma DataWith(ws: seq<Writer>, ds: seq<Bytes>)
    requires |ds| == |ws|
    ensures Data(WithData(ws, ds)) == ds && WithData(ws, Data(ws)) == ws
  {
  }

  lemma DataSplit(a: seq<Writer>, b: seq<Writer>)
    ensures Flatten(Data(a + b)) == Flatten(Data(a)) + Flatten(Data(b))
  {
    DropSplit(Data(a), Data(b), 0);
    assert Data(a + b) == Data(a) + Data(b);
  }

  lemma {:induction false} UnsentData(ws: seq<Writer>)
    ensures Flatten(Data(Unsent(ws))) == Flatten(Data(ws))
    ensures Flatten(Data(ws)) == [] ==> Unsent(ws) == []
  {
    if ws != [] {
      UnsentData(ws[1..]);
      DataSplit(if ws[0].info != [] then [ws[0]] else [], Unsent(ws[1..]));
      assert Data(ws)[1..] == Data(ws[1..]);
      assert Flatten(Data([ws[0]])) == ws[0].info;
    }
  }

  /** Releasing writers with nothing left does not change the stream. */
  lemma ReleaseData(ws: seq<Writer>, k: nat)
    requires k <= |ws|
    ensures Flatten(Data(Unsent(ws[..k]) + ws[k..])) == Flatten(Data(ws))
  {
    hide Flatten, Unsent;
    UnsentData(ws[..k]);
    DataSplit(Unsent(ws[..k]), ws[k..]);
    DataSplit(ws[..k], ws[k..]);
    assert ws == ws[..k] + ws[k..];
  }

  /** A writer that still has bytes makes the queue's data non-empty. */
  lemma {:induction false} SomeData(ws: seq<Writer>)
    ensures (exists i :: 0 <= i < |ws| && ws[i].info != []) ==> Flatten(Data(ws)) != []
  {
    if ws != [] {
      SomeData(ws[1..]);
      assert Data(ws)[1..] == Data(ws[1..]);
      assert forall i :: 0 < i < |ws| ==> ws[i] == ws[1..][i - 1];
    }
  }

  /** The writers between reading and refilling. */
  function Released(ws: seq<Writer>, n: nat, taken: nat): seq<Writer> {
    var k := WalkCount(Lengths(Data(ws)), n);
    var ws1 := WithData(ws, Drop(Data(ws), taken));
    Unsent(ws1[..k]) + ws1[k..]
  }

  /** The writers a get wakes: those it looked at that have nothing left. */
  function GetWakes(ws: seq<Writer>, n: nat, taken: nat): seq<Writer> {
    Sent(WithData(ws, Drop(Data(ws), taken))[..WalkCount(Lengths(Data(ws)), n)])
  }

  lemma ReleasedIs(ws: seq<Writer>, n: nat, taken: nat)
    ensures var k := WalkCount(Lengths(Data(ws)), n);
      var ws1 := WithData(ws, Drop(Data(ws), taken));
      k <= |ws1| && Released(ws, n, taken) == Unsent(ws1[..k]) + ws1[k..]
  {
  }

  /** A get that drains the stream releases every writer. */
  lemma ReleasedAll(ws: seq<Writer>, n: nat, taken: nat)
    requires |Flatten(Data(ws))| < taken <= n || ws == []
    ensures Released(ws, n, taken) == []
  {
    hide Drop, Flatten, Lengths, WalkCount, Unsent;
    var k := WalkCount(Lengths(Data(ws)), n);
    var ws1 := WithData(ws, Drop(Data(ws), taken));
    if ws != [] {
      WalkDrops(Data(ws), n, taken);
      DropLeaves(Data(ws), taken);
      DataWith(ws, Drop(Data(ws), taken));
    } else {
      FlattenNone(Data(ws1));
    }
    assert ws1[..k] == ws1;
    UnsentData(ws1);
  }

  /** Every blocked reader still has room. */
  ghost predicate AllWant(rs: seq<Reader>) {
    forall i :: 0 <= i < |rs| ==> rs[i].info.room > 0
  }

  /** What every reachable pipe keeps: a blocked reader means nothing is left to read
      and nobody waits to write; a writer with bytes left means the ring is full. */
  ghost predicate QueuesOk(size: nat, used: nat, rs: seq<Reader>, ws: seq<Writer>) {
    && AllWant(rs)
    && (rs != [] ==> used == 0 && ws == [])
    && ((exists i :: 0 <= i < |ws| && ws[i].info != []) ==> used == size)
  }

  datatype Code = Done | Pended | EInval | EIo | EAgain

  function Outcome(moved: nat, asked: nat, min: nat, noWait: bool): Code {
    if moved == asked || noWait || (moved >= min && min > 0) then Done else Pended
  }

  lemma {:induction false} AllServed(rs: seq<Reader>)
    requires forall i :: 0 <= i < |rs| ==> rs[i].info.room == 0
    ensures Unserved(rs) == []
  {
    if rs != [] { AllServed(rs[1..]); }
  }

  lemma {:induction false} UnservedWant(rs: seq<Reader>)
    ensures AllWant(Unserved(rs))
  {
    if rs != [] { UnservedWant(rs[1..]); }
  }

  /** A reader is left waiting only when a put had nothing for the ring. */
  lemma PutServes(rs: seq<Reader>, data: Bytes)
    ensures var rs' := Unserved(Offer(rs, data));
      && AllWant(rs')
      && (After(data, Total(Rooms(rs))) != [] ==> rs' == [])
      && (rs == [] ==> rs' == [])
  {
    var caps := Rooms(rs);
    var served := Offer(rs, data);
    UnservedWant(served);
    if Total(caps) <= |data| {
      DealFull(caps, data);
      AllServed(served);
    }
  }

  /** The wait queues after a put stay within what `QueuesOk` allows. */
  lemma PutKeeps(size: nat, used: nat, rs: seq<Reader>, ws: seq<Writer>, rs': seq<Reader>, left: Bytes, w: Writer)
    requires used <= size && QueuesOk(size, used, rs, ws)
    requires AllWant(rs') && (left != [] ==> rs' == []) && (rs == [] ==> rs' == [])
    requires w.info == After(left, size - used)
    ensures var used' := used + |First(left, size - used)|;
      && QueuesOk(size, used', rs', ws)
      && (w.info != [] ==> QueuesOk(size, used', rs', Pend(ws, w)))
  {
  }

  /** The wait queues after a get stay within what `QueuesOk` allows: `ws` are the
      writers before the refill, `used` the bytes in the ring then. */
  lemma GetKeeps(size: nat, used: nat, rs: seq<Reader>, ws: seq<Writer>)
    requires used <= size && AllWant(rs)
    requires rs != [] ==> used == 0 && ws == []
    ensures var free := size - used;
      QueuesOk(size, used + |First(Flatten(Data(ws)), free)|, rs, WithData(ws, Drop(Data(ws), free)))
  {
    hide Drop, Flatten, First, After, Data, WithData;
    var free := size - used;
    var ws' := WithData(ws, Drop(Data(ws), free));
    DataWith(ws, Drop(Data(ws), free));
    DropLeaves(Data(ws), free);
    SomeData(ws');
    FlattenNone(Data(ws));
    FirstAfter(Flatten(Data(ws)), free);
  }

  lemma QueuesSay(size: nat, used: nat, rs: seq<Reader>, ws: seq<Writer>)
    requires QueuesOk(size, used, rs, ws)
    ensures AllWant(rs)
    ensures rs != [] ==> used == 0 && ws == []
  {
  }

  /** Moving bytes from the writers to the ring leaves the stream as it is. */
  lemma RefillStream(c: Bytes, ws: seq<Writer>, free: nat)
    ensures (c + First(Flatten(Data(ws)), free)) + Flatten(Data(WithData(ws, Drop(Data(ws), free)))) == c + Flatten(Data(ws))
  {
    hide Drop, Flatten, First, After, Data, WithData;
    DataWith(ws, Drop(Data(ws), free));
    DropLeaves(Data(ws), free);
    FirstAfter(Flatten(Data(ws)), free);
  }

  /** The bytes of a put go, in order, to the readers, to the ring and into what is left. */
  lemma PutSplits(rs: seq<Reader>, free: nat, data: Bytes)
    ensures var left := After(data, Total(Rooms(rs)));
      Flatten(Deal(Rooms(rs), data)) + First(left, free) + After(left, free) == data
  {
    hide Deal, Flatten, First, After, Total, Rooms;
    var left := After(data, Total(Rooms(rs)));
    DealTakes(Rooms(rs), data);
    FirstAfter(data, Total(Rooms(rs)));
    FirstAfter(left, free);
  }

  /** Fewer waiters never break what `QueuesOk` says. */
  lemma LeaveKeeps(size: nat, used: nat, rs: seq<Reader>, ws: seq<Writer>, k: nat)
    requires QueuesOk(size, used, rs, ws)
    ensures k < |rs| ==> QueuesOk(size, used, RemoveAt(rs, k), ws)
    ensures k < |ws| ==> QueuesOk(size, used, rs, RemoveAt(ws, k))
  {
  }

  lemma PendWants(rs: seq<Reader>, r: Reader)
    requires r.info.room > 0 && AllWant(rs)
    ensures AllWant(Pend(rs, r))
  {
  }

  // ----- the pipe as its users see it -----

  /**
   What is in the ring and who waits. `got` collects every byte that reached a reader, and
   `sent` every byte a put was let in with, in the order in which the pipe carries them.
   */
  datatype State = State(size: nat, ring: Bytes, readers: seq<Reader>, writers: seq<Writer>, sent: Bytes, got: Bytes)

  /** The byte stream the pipe carries. */
  function StreamOf(s: State): Bytes {
    s.ring + Flatten(Data(s.writers))
  }

  /** The bytes of the waiting writers that a thread of this priority goes ahead of. */
  function Outranked(ws: seq<Writer>, prio: int): Bytes {
    Flatten(Data(ws[Rank(ws, prio)..]))
  }

  /** `more` put in so that `n` elements are behind it. */
  function Inserted(all: Bytes, more: Bytes, n: nat): Bytes {
    all[..Excess(|all|, n)] + more + all[Excess(|all|, n)..]
  }

  predicate PutRefused(s: State, data: Bytes, min: nat, noWait: bool) {
    min > |data| || (noWait && Total(Rooms(s.readers)) + Excess(s.size, |s.ring|) < min)
  }

  /** The bytes of a put that neither a reader nor the ring takes. */
  function PutRest(s: State, data: Bytes): Bytes {
    After(After(data, Total(Rooms(s.readers))), Excess(s.size, |s.ring|))
  }

  function PutCode(s: State, data: Bytes, min: nat, noWait: bool): Code {
    Outcome(Excess(|data|, |PutRest(s, data)|), |data|, min, noWait)
  }

  function PutStep(s: State, me: Thread, prio: int, data: Bytes, min: nat, noWait: bool): State {
    if PutRefused(s, data, min, noWait) then s
    else
      var wanted := Total(Rooms(s.readers));
      var rest := PutRest(s, data);
      var s1 := s.(ring := s.ring + First(After(data, wanted), Excess(s.size, |s.ring|)),
                   readers := Unserved(Offer(s.readers, data)), got := s.got + First(data, wanted));
      if PutCode(s, data, min, noWait) == Pended then
        s1.(writers := Pend(s.writers, Waiter(me, prio, rest)), sent := Inserted(s.sent, data, |Outranked(s.writers, prio)|))
      else
        s1.(sent := s.sent + First(data, Excess(|data|, |rest|)))
  }

  predicate GetRefused(s: State, n: nat, min: nat, noWait: bool) {
    min > n || (noWait && |StreamOf(s)| < min)
  }

  function GetStep(s: State, me: Thread, prio: int, n: nat, min: nat, noWait: bool): State {
    if GetRefused(s, n, min, noWait) then s
    else
      var out := First(StreamOf(s), n);
      var s1 := s.(ring := First(After(StreamOf(s), n), s.size),
                   writers := WritersAfter(s.writers, n, Excess(n, |s.ring|), Excess(s.size, Excess(|s.ring|, n))),
                   got := s.got + out);
      if Outcome(|out|, n, min, noWait) == Pended
      then s1.(readers := Pend(s.readers, Waiter(me, prio, Want(out, Excess(n, |out|))))) else s1
  }

  function ReaderTimeoutStep(s: State, k: nat): State
    requires k < |s.readers|
  {
    s.(readers := RemoveAt(s.readers, k))
  }

  /** A writer that gives up takes its unsent bytes back. */
  function WriterTimeoutStep(s: State, k: nat): State
    requires k < |s.writers|
  {
    var at := Excess(|s.sent|, |Flatten(Data(s.writers[k..]))|);
    s.(writers := RemoveAt(s.writers, k), sent := s.sent[..at] + After(s.sent[at..], |s.writers[k].info|))
  }

  /** What is sent and not yet received is what the pipe carries. */
  ghost predicate Conserved(s: State) {
    s.sent == s.got + StreamOf(s)
  }

  ghost predicate Inv(s: State) {
    |s.ring| <= s.size && QueuesOk(s.size, |s.ring|, s.readers, s.writers) && Conserved(s)
  }

  /** Where there is room in the ring no waiting writer has bytes, and where a reader waits
      there is nothing at all. */
  lemma {:induction false} NothingBehind(ws: seq<Writer>)
    requires forall i :: 0 <= i < |ws| ==> ws[i].info == []
    ensures Flatten(Data(ws)) == []
  {
    if ws != [] {
      assert Data(ws)[1..] == Data(ws[1..]);
      NothingBehind(ws[1..]);
    }
  }

  lemma StreamEnds(s: State)
    requires Inv(s)
    ensures |s.ring| < s.size ==> Flatten(Data(s.writers)) == []
    ensures s.readers != [] ==> StreamOf(s) == []
  {
    hide Flatten, Data;
    if |s.ring| < s.size {
      NothingBehind(s.writers);
    }
    if s.readers != [] {
      NothingBehind(s.writers);
    }
  }

  lemma PendData(ws: seq<Writer>, w: Writer)
    ensures var k := Rank(ws, w.prio);
      && Flatten(Data(Pend(ws, w))) == Flatten(Data(ws[..k])) + w.info + Flatten(Data(ws[k..]))
      && Flatten(Data(ws)) == Flatten(Data(ws[..k])) + Flatten(Data(ws[k..]))
  {
    hide Flatten, Data, Rank;
    var k := Rank(ws, w.prio);
    assert ws == ws[..k] + ws[k..];
    DataSplit(ws[..k], ws[k..]);
    DataSplit(ws[..k] + [w], ws[k..]);
    DataSplit(ws[..k], [w]);
    OneData(w);
  }

  lemma OneData(w: Writer)
    ensures Flatten(Data([w])) == w.info
  {
    assert Data([w])[1..] == [];
  }

  lemma PutQueues(s: State, me: Thread, prio: int, data: Bytes, min: nat, noWait: bool)
    requires Inv(s) && !PutRefused(s, data, min, noWait)
    ensures var s' := PutStep(s, me, prio, data, min, noWait);
      |s'.ring| <= s.size && QueuesOk(s.size, |s'.ring|, s'.readers, s'.writers)
  {
    hide Total, Rooms, First, After, Offer, Unserved, QueuesOk, AllWant, Pend, Flatten, Conserved, Outranked;
    var left := After(data, Total(Rooms(s.readers)));
    PutServes(s.readers, data);
    FirstAfter(data, Total(Rooms(s.readers)));
    FirstAfter(left, s.size - |s.ring|);
    PutKeeps(s.size, |s.ring|, s.readers, s.writers, Unserved(Offer(s.readers, data)), left, Waiter(me, prio, PutRest(s, data)));
  }

  /** A put in three parts: what readers get, what the ring gets, what is left. */
  lemma PutParts(data: Bytes, wanted: nat, free: nat)
    ensures var left := After(data, wanted); var rest := After(left, free);
      && data == First(data, wanted) + First(left, free) + rest && |rest| <= |data|
      && First(data, |data| - |rest|) == First(data, wanted) + First(left, free)
      && (wanted == 0 ==> First(data, wanted) == [] && left == data) && (free == 0 ==> First(left, free) == [])
  {
    hide First, After;
    var left := After(data, wanted);
    FirstAfter(data, wanted);
    FirstAfter(left, free);
    FirstPart(First(data, wanted) + First(left, free), After(left, free));
    FirstNone(left);
    FirstNone(data);
  }

  lemma FirstPart(a: Bytes, b: Bytes)
    ensures First(a + b, |a|) == a
  {
  }

  /** With `a` for the readers, `b` for the ring and `r` left, `d` before and `e` behind it. */
  lemma Shuffle(got: Bytes, ring: Bytes, d: Bytes, e: Bytes, a: Bytes, b: Bytes, r: Bytes)
    requires a == [] || ring == d == e == []
    requires b == [] || d == e == []
    ensures (got + a) + ((ring + b) + (d + r + e)) == (got + ring + d) + (a + b + r) + e
    ensures (got + a) + ((ring + b) + (d + e)) == (got + (ring + (d + e))) + (a + b)
  {
    if a == [] {
      assert got + a == got && a + b == b;
    } else {
      assert got + ring == got && (got + a) + b == got + (a + b);
    }
    if b == [] {
      assert ring + b == ring && a + b == a;
    }
  }

  /** Into the stream a put goes where its priority puts it: before the bytes of the
      waiting writers it outranks, after all others. */
  lemma PutConserves(s: State, me: Thread, prio: int, data: Bytes, min: nat, noWait: bool)
    requires Inv(s)
    ensures Conserved(PutStep(s, me, prio, data, min, noWait))
  {
    hide Total, Rooms, First, After, Offer, Unserved, QueuesOk, AllWant, Pend, Flatten, Data, Rank, Inserted, PutRefused, PutCode;
    if !PutRefused(s, data, min, noWait) {
      var wanted, free, rest := Total(Rooms(s.readers)), s.size - |s.ring|, PutRest(s, data);
      var d, e := Flatten(Data(s.writers[..Rank(s.writers, prio)])), Outranked(s.writers, prio);
      PutParts(data, wanted, free);
      StreamEnds(s);
      NoneWanted(s.readers);
      PendData(s.writers, Waiter(me, prio, rest));
      Shuffle(s.got, s.ring, d, e, First(data, wanted), First(After(data, wanted), free), rest);
      Regrouped(s.got, s.ring, d, e);
      InsertedAt(s.got + s.ring + d, e, data);
    }
  }

  lemma Regrouped(a: Bytes, b: Bytes, c: Bytes, d: Bytes)
    ensures a + (b + (c + d)) == (a + b + c) + d
  {
  }

  lemma NoneWanted(rs: seq<Reader>)
    ensures rs == [] ==> Total(Rooms(rs)) == 0
  {
  }

  lemma InsertedAt(a: Bytes, b: Bytes, more: Bytes)
    ensures Inserted(a + b, more, |b|) == a + more + b
  {
  }

  lemma PutStepKeeps(s: State, me: Thread, prio: int, data: Bytes, min: nat, noWait: bool)
    requires Inv(s)
    ensures Inv(PutStep(s, me, prio, data, min, noWait))
  {
    hide QueuesOk, Conserved;
    PutConserves(s, me, prio, data, min, noWait);
    if !PutRefused(s, data, min, noWait) {
      PutQueues(s, me, prio, data, min, noWait);
    }
  }

  /** What the ring and the writers hold between reading and refilling. */
  lemma ReleasedStream(s: State, n: nat)
    ensures var rel := Released(s.writers, n, Excess(n, |s.ring|));
      After(s.ring, n) + Flatten(Data(rel)) == After(StreamOf(s), n)
  {
    hide Flatten, Drop, After, Data, WithData, Released, WalkCount, Unsent;
    var taken := Excess(n, |s.ring|);
    var ws1 := WithData(s.writers, Drop(Data(s.writers), taken));
    ReleasedIs(s.writers, n, taken);
    DataWith(s.writers, Drop(Data(s.writers), taken));
    ReleaseData(ws1, WalkCount(Lengths(Data(s.writers)), n));
    DropLeaves(Data(s.writers), taken);
    AfterSplit(s.ring, Flatten(Data(s.writers)), n);
  }

  lemma GetStream(s: State, me: Thread, prio: int, n: nat, min: nat, noWait: bool)
    requires |s.ring| <= s.size && !GetRefused(s, n, min, noWait)
    ensures var s' := GetStep(s, me, prio, n, min, noWait); var rel := Released(s.writers, n, Excess(n, |s.ring|));
      && StreamOf(s') == After(StreamOf(s), n)
      && |s'.ring| == Excess(|s.ring|, n) + |First(Flatten(Data(rel)), s.size - Excess(|s.ring|, n))|
  {
    hide Flatten, Drop, First, After, Data, WithData, Released, Pend, Outcome, GetRefused;
    var c, free := After(s.ring, n), s.size - Excess(|s.ring|, n);
    var rel := Released(s.writers, n, Excess(n, |s.ring|));
    FirstAfter(s.ring, n);
    ReleasedStream(s, n);
    FirstOf(c, Flatten(Data(rel)), s.size);
    RefillStream(c, rel, free);
  }

  lemma GetQueues(s: State, me: Thread, prio: int, n: nat, min: nat, noWait: bool)
    requires Inv(s) && !GetRefused(s, n, min, noWait)
    ensures var s' := GetStep(s, me, prio, n, min, noWait);
      |s'.ring| <= s.size && QueuesOk(s.size, |s'.ring|, s'.readers, s'.writers)
  {
    hide Flatten, Drop, First, After, Data, WithData, Released, Pend, QueuesOk, AllWant, Conserved, GetRefused;
    var s' := GetStep(s, me, prio, n, min, noWait);
    var st, taken := StreamOf(s), Excess(n, |s.ring|);
    var rel := Released(s.writers, n, taken);
    FirstAfter(st, n);
    FirstAfter(After(st, n), s.size);
    GetStream(s, me, prio, n, min, noWait);
    QueuesSay(s.size, |s.ring|, s.readers, s.writers);
    if |st| < n || s.readers != [] { ReleasedAll(s.writers, n, taken); }
    if s'.readers != s.readers { PendWants(s.readers, Waiter(me, prio, Want(First(st, n), n - |First(st, n)|))); }
    GetKeeps(s.size, Excess(|s.ring|, n), s'.readers, rel);
  }

  lemma GetStepKeeps(s: State, me: Thread, prio: int, n: nat, min: nat, noWait: bool)
    requires Inv(s)
    ensures Inv(GetStep(s, me, prio, n, min, noWait))
    ensures !GetRefused(s, n, min, noWait) ==> StreamOf(GetStep(s, me, prio, n, min, noWait)) == After(StreamOf(s), n)
  {
    hide StreamOf, First, After, WritersAfter, Pend, QueuesOk, GetRefused;
    if !GetRefused(s, n, min, noWait) {
      var st := StreamOf(s);
      GetStream(s, me, prio, n, min, noWait);
      GetQueues(s, me, prio, n, min, noWait);
      FirstAfter(st, n);
      assert (s.got + First(st, n)) + After(st, n) == s.got + st;
    }
  }

  // ----- what a put and a get promise their callers -----

  /** Every reader has what it had followed by its chunk, and wants that much less. */
  ghost predicate Handed(rs: seq<Reader>, rs': seq<Reader>, chunks: seq<Bytes>) {
    && |rs'| == |rs| == |chunks|
    && forall i :: 0 <= i < |rs| ==>
         && rs'[i].thread == rs[i].thread && rs'[i].prio == rs[i].prio
         && rs'[i].info.got == rs[i].info.got + chunks[i] && rs'[i].info.room + |chunks[i]| == rs[i].info.room
  }

  /** The readers are served in queue order: those that are woken are the first ones and have
      all they want, the others want more, and of these only the first may have got something. */
  ghost predicate ServedInTurn(rs: seq<Reader>, woken: seq<Reader>, waiting: seq<Reader>, chunks: seq<Bytes>) {
    && Handed(rs, woken + waiting, chunks)
    && (forall i :: 0 <= i < |woken| ==> woken[i].info.room == 0) && AllWant(waiting)
    && (forall i :: |woken| < i < |chunks| ==> chunks[i] == [])
  }

  lemma ServeCons(rs: seq<Reader>, chunks: seq<Bytes>)
    requires rs != [] && ChunksFit(rs, chunks)
    ensures |chunks| == |rs| && |chunks[0]| <= rs[0].info.room && ChunksFit(rs[1..], chunks[1..])
    ensures Serve(rs, chunks) ==
      [rs[0].(info := Want(rs[0].info.got + chunks[0], rs[0].info.room - |chunks[0]|))] + Serve(rs[1..], chunks[1..])
  {
  }

  lemma HandedCons(rs: seq<Reader>, rs': seq<Reader>, chunks: seq<Bytes>, r: Reader, c: Bytes)
    requires Handed(rs, rs', chunks) && |c| <= r.info.room
    ensures Handed([r] + rs, [r.(info := Want(r.info.got + c, r.info.room - |c|))] + rs', [c] + chunks)
  {
  }

  lemma FullCons(rs: seq<Reader>, woken: seq<Reader>, waiting: seq<Reader>, chunks: seq<Bytes>, r: Reader, c: Bytes)
    requires ServedInTurn(rs, woken, waiting, chunks) && |c| == r.info.room
    ensures ServedInTurn([r] + rs, [r.(info := Want(r.info.got + c, 0))] + woken, waiting, [c] + chunks)
  {
    hide Handed;
    HandedCons(rs, woken + waiting, chunks, r, c);
    var r' := r.(info := Want(r.info.got + c, 0));
    assert [r'] + (woken + waiting) == ([r'] + woken) + waiting;
  }

  /** A later reader gets something only when the earlier ones have all they want. */
  ghost predicate Greedy(caps: seq<nat>, chunks: seq<Bytes>) {
    && |chunks| == |caps|
    && forall i, j :: 0 <= i < j < |caps| && chunks[j] != [] ==> |chunks[i]| == caps[i]
  }

  lemma {:induction false} DealGreedy(caps: seq<nat>, data: Bytes)
    ensures Greedy(caps, Deal(caps, data))
  {
    if caps != [] {
      var n := Min(caps[0], |data|);
      var chunks, rest := Deal(caps, data), Deal(caps[1..], data[n..]);
      DealGreedy(caps[1..], data[n..]);
      if n < caps[0] { DealNothing(caps[1..]); }
      forall i, j | 0 <= i < j < |caps| && chunks[j] != [] ensures |chunks[i]| == caps[i] {
        assert chunks[j] == rest[j - 1];
        if i > 0 { assert chunks[i] == rest[i - 1]; }
      }
    }
  }

  lemma ServeHands(rs: seq<Reader>, chunks: seq<Bytes>)
    requires ChunksFit(rs, chunks)
    ensures Handed(rs, Serve(rs, chunks), chunks)
  {
  }

  /** A reader that does not get all it wants is the last one to get anything. */
  lemma ServeStops(rs: seq<Reader>, chunks: seq<Bytes>)
    requires rs != [] && AllWant(rs) && ChunksFit(rs, chunks) && Greedy(Rooms(rs), chunks) && |chunks[0]| < rs[0].info.room
    ensures AllWant(Serve(rs, chunks)) && forall i :: 0 < i < |chunks| ==> chunks[i] == []
  {
  }

  lemma {:induction false} ServeInTurn(rs: seq<Reader>, chunks: seq<Bytes>)
    requires AllWant(rs) && ChunksFit(rs, chunks) && Greedy(Rooms(rs), chunks)
    ensures var all := Serve(rs, chunks); ServedInTurn(rs, Served(all), Unserved(all), chunks)
  {
    hide Serve, Handed;
    var all := Serve(rs, chunks);
    ServeHands(rs, chunks);
    if rs == [] {
      NoServed();
      OneInTurn(rs, all, chunks);
    } else {
      var rest := Serve(rs[1..], chunks[1..]);
      ServeCons(rs, chunks);
      assert rs == [rs[0]] + rs[1..] && chunks == [chunks[0]] + chunks[1..] && all[1..] == rest;
      if |chunks[0]| == rs[0].info.room {
        ServeInTurn(rs[1..], chunks[1..]);
        FullCons(rs[1..], Served(rest), Unserved(rest), chunks[1..], rs[0], chunks[0]);
        assert Served(all) == [all[0]] + Served(rest) && Unserved(all) == Unserved(rest);
      } else {
        ServeStops(rs, chunks);
        NoneServed(all);
        OneInTurn(rs, all, chunks);
      }
    }
  }

  lemma NoServed()
    ensures Served([]) == [] == Unserved([]) && Serve([], []) == []
  {
  }

  lemma OfferInTurn(rs: seq<Reader>, data: Bytes)
    requires AllWant(rs)
    ensures var all := Offer(rs, data); ServedInTurn(rs, Served(all), Unserved(all), Deal(Rooms(rs), data))
  {
    hide Offer, Serve, Deal, Rooms, Served, Unserved, ServedInTurn, Greedy, ChunksFit;
    OfferIs(rs, data);
    DealGreedy(Rooms(rs), data);
    ServeInTurn(rs, Deal(Rooms(rs), data));
  }

  /** As much of the data as the readers want has gone to them, in turn. */
  ghost predicate SharedOut(rs: seq<Reader>, data: Bytes, woken: seq<Reader>, waiting: seq<Reader>) {
    exists chunks :: ServedInTurn(rs, woken, waiting, chunks) && Flatten(chunks) == First(data, Total(Rooms(rs)))
  }

  lemma OfferShares(rs: seq<Reader>, data: Bytes)
    requires AllWant(rs)
    ensures SharedOut(rs, data, Served(Offer(rs, data)), Unserved(Offer(rs, data)))
  {
    hide Offer, Deal, Rooms, Served, Unserved, ServedInTurn, First, Flatten, Total;
    OfferInTurn(rs, data);
    DealTakes(Rooms(rs), data);
  }

  lemma OneInTurn(rs: seq<Reader>, all: seq<Reader>, chunks: seq<Bytes>)
    requires Handed(rs, all, chunks) && AllWant(all) && forall i :: 0 < i < |chunks| ==> chunks[i] == []
    ensures ServedInTurn(rs, [], all, chunks)
  {
    hide Handed;
    assert [] + all == all;
  }

  lemma {:induction false} NoneServed(rs: seq<Reader>)
    requires AllWant(rs)
    ensures Served(rs) == [] && Unserved(rs) == rs
  {
    if rs != [] { NoneServed(rs[1..]); }
  }

  /** Pended, exactly if something is missing, waiting is allowed, and there is no minimum
      or it has not been reached. */
  ghost predicate WaitsForMore(moved: nat, asked: nat, min: nat, noWait: bool) {
    moved < asked && !noWait && (min == 0 || moved < min)
  }

  lemma OutcomeIs(moved: nat, asked: nat, min: nat, noWait: bool)
    requires moved <= asked
    ensures Outcome(moved, asked, min, noWait) == (if WaitsForMore(moved, asked, min, noWait) then Pended else Done)
    ensures Outcome(moved, asked, min, noWait) == Pended ==> moved < asked
  {
  }

  /** A put that goes ahead: `written` bytes went in order to the readers and then to the
      ring, and all of them unless everybody is served and the ring is full. */
  ghost predicate Written(s: State, s': State, me: Thread, prio: int, data: Bytes, min: nat, noWait: bool,
                          code: Code, written: nat, woken: seq<Reader>, chunks: seq<Bytes>) {
    && s'.size == s.size && written <= |data| && s.ring <= s'.ring
    && ServedInTurn(s.readers, woken, s'.readers, chunks)
    && Flatten(chunks) + s'.ring[|s.ring|..] == data[..written]
    && (s'.ring != s.ring ==> s'.readers == [])
    && (written < |data| ==> s'.readers == [] && |s'.ring| == s.size)
    && code == (if WaitsForMore(written, |data|, min, noWait) then Pended else Done)
    && s'.writers == if code == Pended then Pend(s.writers, Waiter(me, prio, data[written..])) else s.writers
  }

  /** What `k_pipe_put` promises. */
  ghost predicate PutDone(s: State, s': State, me: Thread, prio: int, data: Bytes, min: nat, noWait: bool,
                          code: Code, written: nat, woken: seq<Reader>) {
    if min > |data| then s' == s && code == EInval && written == 0 && woken == []
    else if noWait && Total(Rooms(s.readers)) + s.size < min + |s.ring| then s' == s && code == EIo && written == 0 && woken == []
    else exists chunks :: Written(s, s', me, prio, data, min, noWait, code, written, woken, chunks)
  }

  /** Where a put is cut when the readers want `wanted` bytes and the ring has room for `free`. */
  lemma PutCut(data: Bytes, wanted: nat, free: nat)
    ensures var left := After(data, wanted); var rest := After(left, free);
      var written := |data| - |rest|;
      && 0 <= written <= |data| && data[..written] == First(data, wanted) + First(left, free) && data[written..] == rest
      && (rest != [] ==> left != [] && |First(left, free)| == free) && (First(left, free) != [] ==> left != [])
  {
    hide First, After;
    var left := After(data, wanted);
    PutParts(data, wanted, free);
    FirstAfter(left, free);
    CutAt(data, First(data, wanted) + First(left, free), After(left, free));
  }

  lemma PutMeets(s: State, me: Thread, prio: int, data: Bytes, min: nat, noWait: bool)
    requires Inv(s)
    ensures var refused := PutRefused(s, data, min, noWait);
      PutDone(s, PutStep(s, me, prio, data, min, noWait), me, prio, data, min, noWait,
              if min > |data| then EInval else if refused then EIo else PutCode(s, data, min, noWait),
              if refused then 0 else Excess(|data|, |PutRest(s, data)|),
              if refused then [] else Served(Offer(s.readers, data)))
  {
    hide Total, Rooms, First, After, Offer, Served, Unserved, Pend, Conserved, Outranked, Inserted, Flatten, AllWant, ServedInTurn;
    if !PutRefused(s, data, min, noWait) {
      var s' := PutStep(s, me, prio, data, min, noWait);
      var wanted, free, rest := Total(Rooms(s.readers)), s.size - |s.ring|, PutRest(s, data);
      var left, written, woken := After(data, wanted), |data| - |rest|, Served(Offer(s.readers, data));
      PutCut(data, wanted, free);
      OfferShares(s.readers, data);
      PutServes(s.readers, data);
      var chunks :| ServedInTurn(s.readers, woken, s'.readers, chunks) && Flatten(chunks) == First(data, wanted);
      assert s'.ring[|s.ring|..] == First(left, free);
      assert Written(s, s', me, prio, data, min, noWait, PutCode(s, data, min, noWait), written, woken, chunks);
    }
  }

  lemma CutAt(data: Bytes, a: Bytes, b: Bytes)
    requires data == a + b
    ensures data[..|data| - |b|] == a && data[|data| - |b|..] == b
  {
  }

  /** `taken` bytes have been taken from the writers, from the first one on. */
  ghost predicate Consumed(ws: seq<Writer>, left: seq<Writer>, taken: nat) {
    && |left| == |ws|
    && (forall i :: 0 <= i < |ws| ==> KeepsEnd(ws[i], left[i]))
    && (forall i, j :: 0 <= i < j < |ws| && left[j] != ws[j] ==> left[i].info == [])
    && |Flatten(Data(left))| == Excess(|Flatten(Data(ws))|, taken)
  }

  /** One writer keeps the end of its bytes. */
  ghost predicate KeepsEnd(w: Writer, w': Writer) {
    w'.thread == w.thread && w'.prio == w.prio && |w'.info| <= |w.info| && w'.info == w.info[|w.info| - |w'.info|..]
  }

  lemma DropCons(ws: seq<Writer>, taken: nat)
    requires ws != []
    ensures var m := Min(taken, |ws[0].info|);
      WithData(ws, Drop(Data(ws), taken)) == [ws[0].(info := ws[0].info[m..])] + WithData(ws[1..], Drop(Data(ws[1..]), taken - m))
  {
    assert Data(ws)[1..] == Data(ws[1..]);
  }

  lemma {:induction false} DropKeepsEnd(ws: seq<Writer>, taken: nat, i: nat)
    requires i < |ws|
    ensures KeepsEnd(ws[i], WithData(ws, Drop(Data(ws), taken))[i])
  {
    hide Drop, Data, WithData;
    DropCons(ws, taken);
    if i > 0 { DropKeepsEnd(ws[1..], taken - Min(taken, |ws[0].info|), i - 1); }
  }

  lemma {:induction false} DropInTurn(ws: seq<Writer>, taken: nat, i: nat, j: nat)
    requires i < j < |ws| && WithData(ws, Drop(Data(ws), taken))[j] != ws[j]
    ensures WithData(ws, Drop(Data(ws), taken))[i].info == []
  {
    hide Drop, Data, WithData;
    var m := Min(taken, |ws[0].info|);
    DropCons(ws, taken);
    if i > 0 {
      DropInTurn(ws[1..], taken - m, i - 1, j - 1);
    } else if taken == m {
      DropNothing(Data(ws[1..]));
      DataWith(ws[1..], Data(ws[1..]));
    }
  }

  lemma DropConsumes(ws: seq<Writer>, taken: nat)
    ensures Consumed(ws, WithData(ws, Drop(Data(ws), taken)), taken)
  {
    hide Drop, Data, WithData, Flatten, KeepsEnd;
    DataWith(ws, Drop(Data(ws), taken));
    DropLeaves(Data(ws), taken);
    FirstAfter(Flatten(Data(ws)), taken);
    var left := WithData(ws, Drop(Data(ws), taken));
    forall i | 0 <= i < |ws| ensures KeepsEnd(ws[i], left[i]) {
      DropKeepsEnd(ws, taken, i);
    }
    forall i, j | 0 <= i < j < |ws| && left[j] != ws[j] ensures left[i].info == [] {
      DropInTurn(ws, taken, i, j);
    }
  }

  /** Of the first `k` writers exactly those with nothing left are woken; the others stay, in
      their order. */
  ghost predicate WakesSpent(left: seq<Writer>, k: nat, woken: seq<Writer>, kept: seq<Writer>) {
    && k <= |left| && |woken| <= k && |kept| + |woken| == |left|
    && multiset(woken) + multiset(kept) == multiset(left)
    && (forall i :: 0 <= i < |woken| ==> woken[i].info == [])
    && (forall i :: 0 <= i < k - |woken| ==> kept[i].info != [])
    && kept[k - |woken|..] == left[k..]
  }

  lemma {:induction false} SentOrNot(ws: seq<Writer>)
    ensures multiset(Sent(ws)) + multiset(Unsent(ws)) == multiset(ws) && |Sent(ws)| + |Unsent(ws)| == |ws|
  {
    if ws != [] {
      SentOrNot(ws[1..]);
      assert ws == [ws[0]] + ws[1..];
    }
  }

  lemma {:induction false} SentAre(ws: seq<Writer>)
    ensures forall i :: 0 <= i < |Sent(ws)| ==> Sent(ws)[i].info == []
    ensures forall i :: 0 <= i < |Unsent(ws)| ==> Unsent(ws)[i].info != []
  {
    if ws != [] { SentAre(ws[1..]); }
  }

  /** The writers a get looks at: no more than needed to offer `n` bytes, unless there are none. */
  ghost predicate LookedAt(ws: seq<Writer>, n: nat, k: nat) {
    && k <= |ws| && (ws != [] ==> k > 0)
    && (k == |ws| || |Flatten(Data(ws[..k]))| >= n)
    && (forall j :: 0 < j < k ==> |Flatten(Data(ws[..j]))| < n)
  }

  lemma {:induction false} WalkLeast(lens: seq<nat>, requested: nat, j: nat)
    requires 0 < j < WalkCount(lens, requested)
    ensures Total(lens[..j]) < requested
  {
    assert lens[..j][1..] == lens[1..][..j - 1];
    if j > 1 {
      WalkLeast(lens[1..], requested - lens[0], j - 1);
    }
  }

  lemma WalkLooks(ws: seq<Writer>, n: nat)
    ensures LookedAt(ws, n, WalkCount(Lengths(Data(ws)), n))
  {
    hide Flatten, Total;
    var lens := Lengths(Data(ws));
    var k := WalkCount(lens, n);
    WalkOffers(lens, n);
    forall j | 0 <= j <= |ws| ensures |Flatten(Data(ws[..j]))| == Total(lens[..j]) {
      assert Lengths(Data(ws[..j])) == lens[..j];
      TotalLengths(Data(ws[..j]));
    }
    forall j | 0 < j < k ensures |Flatten(Data(ws[..j]))| < n {
      WalkLeast(lens, n, j);
    }
  }

  /** Between reading and refilling the get wakes the writers it has taken everything from. */
  ghost predicate WritersServed(s: State, s': State, n: nat, woken: seq<Writer>, left: seq<Writer>, kept: seq<Writer>, k: nat) {
    && LookedAt(s.writers, n, k) && Consumed(s.writers, left, Excess(n, |s.ring|))
    && WakesSpent(left, k, woken, kept) && Consumed(kept, s'.writers, Excess(s.size, Excess(|s.ring|, n)))
  }

  /** A get that goes ahead: it takes the first bytes of the stream. */
  ghost predicate Delivered(s: State, s': State, me: Thread, prio: int, n: nat, min: nat, noWait: bool, code: Code, out: Bytes) {
    && s'.size == s.size && |out| <= n && (|out| < n ==> StreamOf(s') == []) && out + StreamOf(s') == StreamOf(s)
    && (|s'.ring| < s.size ==> StreamOf(s') == s'.ring)
    && code == (if WaitsForMore(|out|, n, min, noWait) then Pended else Done)
    && s'.readers == if code == Pended then Pend(s.readers, Waiter(me, prio, Want(out, n - |out|))) else s.readers
  }

  /** What `k_pipe_get` promises. */
  ghost predicate GetDone(s: State, s': State, me: Thread, prio: int, n: nat, min: nat, noWait: bool,
                          code: Code, out: Bytes, woken: seq<Writer>) {
    if min > n then s' == s && code == EInval && out == [] && woken == []
    else if noWait && |StreamOf(s)| < min then s' == s && code == EIo && out == [] && woken == []
    else
      && Delivered(s, s', me, prio, n, min, noWait, code, out)
      && exists left, kept, k :: WritersServed(s, s', n, woken, left, kept, k)
  }

  lemma ReleaseWakes(left: seq<Writer>, k: nat)
    requires k <= |left|
    ensures WakesSpent(left, k, Sent(left[..k]), Unsent(left[..k]) + left[k..])
  {
    hide Sent, Unsent;
    SentOrNot(left[..k]);
    SentAre(left[..k]);
    assert left == left[..k] + left[k..];
    assert (Unsent(left[..k]) + left[k..])[|Unsent(left[..k])|..] == left[k..];
  }

  lemma GetServes(s: State, me: Thread, prio: int, n: nat, min: nat, noWait: bool)
    requires !GetRefused(s, n, min, noWait)
    ensures exists left, kept, k ::
      WritersServed(s, GetStep(s, me, prio, n, min, noWait), n, GetWakes(s.writers, n, Excess(n, |s.ring|)), left, kept, k)
  {
    hide StreamOf, Drop, First, After, Pend, Sent, Unsent, WalkCount, Lengths, Data, WithData, Consumed, LookedAt, WakesSpent, Released, GetRefused;
    var s' := GetStep(s, me, prio, n, min, noWait);
    var taken, k := Excess(n, |s.ring|), WalkCount(Lengths(Data(s.writers)), n);
    var left := WithData(s.writers, Drop(Data(s.writers), taken));
    var kept := Released(s.writers, n, taken);
    WalkLooks(s.writers, n);
    DropConsumes(s.writers, taken);
    DropConsumes(kept, Excess(s.size, Excess(|s.ring|, n)));
    ReleasedIs(s.writers, n, taken);
    ReleaseWakes(left, k);
    assert WritersServed(s, s', n, GetWakes(s.writers, n, taken), left, kept, k);
  }

  lemma GetMeets(s: State, me: Thread, prio: int, n: nat, min: nat, noWait: bool)
    requires Inv(s)
    ensures var refused := GetRefused(s, n, min, noWait); var out := First(StreamOf(s), n);
      GetDone(s, GetStep(s, me, prio, n, min, noWait), me, prio, n, min, noWait,
              if min > n then EInval else if refused then EIo else Outcome(|out|, n, min, noWait),
              if refused then [] else out, if refused then [] else GetWakes(s.writers, n, Excess(n, |s.ring|)))
  {
    hide StreamOf, First, After, WritersAfter, GetWakes, Pend, QueuesOk, Conserved, WritersServed;
    if !GetRefused(s, n, min, noWait) {
      var s' := GetStep(s, me, prio, n, min, noWait);
      GetServes(s, me, prio, n, min, noWait);
      GetStepKeeps(s, me, prio, n, min, noWait);
      FirstAfter(StreamOf(s), n);
      RingFirst(s');
    }
  }

  /** A get that may take everything and does not wait empties the pipe. */
  lemma GetAll(s: State, s': State, max: nat, code: Code, out: Bytes, woken: seq<Writer>)
    requires |StreamOf(s)| <= max && GetDone(s, s', 0, 0, max, 0, true, code, out, woken)
    ensures code == Done && out == StreamOf(s) && StreamOf(s') == [] && s'.readers == s.readers
  {
    hide StreamOf, WritersServed;
    assert |out| == max ==> |out + StreamOf(s')| <= |out|;
  }

  lemma RingFirst(s: State)
    requires Inv(s)
    ensures |s.ring| < s.size ==> StreamOf(s) == s.ring
  {
    hide Flatten, Data, QueuesOk;
    StreamEnds(s);
  }

  lemma UnpendData(ws: seq<Writer>, k: nat)
    requires k < |ws|
    ensures var d, e := Flatten(Data(ws[..k])), Flatten(Data(ws[k + 1..]));
      && Flatten(Data(ws)) == d + (ws[k].info + e) && Flatten(Data(ws[k..])) == ws[k].info + e
      && Flatten(Data(RemoveAt(ws, k))) == d + e
  {
    hide Flatten, Data;
    assert ws == ws[..k] + ws[k..] && ws[k..] == [ws[k]] + ws[k + 1..];
    DataSplit(ws[..k], ws[k..]);
    DataSplit([ws[k]], ws[k + 1..]);
    DataSplit(ws[..k], ws[k + 1..]);
    OneData(ws[k]);
  }

  lemma TimeoutKeeps(s: State, k: nat)
    requires Inv(s)
    ensures k < |s.readers| ==> Inv(ReaderTimeoutStep(s, k))
    ensures k < |s.writers| ==> Inv(WriterTimeoutStep(s, k))
  {
    hide Flatten, Data, QueuesOk, After;
    LeaveKeeps(s.size, |s.ring|, s.readers, s.writers, k);
    if k < |s.writers| {
      UnpendData(s.writers, k);
      var d, e := Flatten(Data(s.writers[..k])), Flatten(Data(s.writers[k + 1..]));
      assert s.sent == (s.got + s.ring + d) + (s.writers[k].info + e);
      Withdrawn(s.got + s.ring + d, s.writers[k].info, e);
    }
  }

  lemma Withdrawn(a: Bytes, b: Bytes, c: Bytes)
    ensures var all := a + (b + c); var at := Excess(|all|, |b + c|);
      all[..at] + After(all[at..], |b|) == a + c
  {
    var all := a + (b + c);
    assert all[..|a|] == a && all[|a|..] == b + c;
  }

  // ----- every run -----

  datatype Step =
    | DoPut(me: Thread, prio: int, data: Bytes, min: nat, noWait: bool)
    | DoGet(me: Thread, prio: int, n: nat, min: nat, noWait: bool)
    | DoReaderTimeout(k: nat)
    | DoWriterTimeout(k: nat)

  function Do(s: State, step: Step): State {
    match step
    case DoPut(me, prio, data, min, noWait) => PutStep(s, me, prio, data, min, noWait)
    case DoGet(me, prio, n, min, noWait) => GetStep(s, me, prio, n, min, noWait)
    case DoReaderTimeout(k) => if k < |s.readers| then ReaderTimeoutStep(s, k) else s
    case DoWriterTimeout(k) => if k < |s.writers| then WriterTimeoutStep(s, k) else s
  }

  lemma StepKeeps(s: State, step: Step)
    requires Inv(s)
    ensures Inv(Do(s, step))
  {
    hide Inv, PutStep, GetStep, ReaderTimeoutStep, WriterTimeoutStep;
    match step
    case DoPut(me, prio, data, min, noWait) => PutStepKeeps(s, me, prio, data, min, noWait);
    case DoGet(me, prio, n, min, noWait) => GetStepKeeps(s, me, prio, n, min, noWait);
    case DoReaderTimeout(k) => TimeoutKeeps(s, k);
    case DoWriterTimeout(k) => TimeoutKeeps(s, k);
  }

  function RunAll(s: State, steps: seq<Step>): State
    decreases |steps|
  {
    if steps == [] then s else RunAll(Do(s, steps[0]), steps[1..])
  }

  /** Over every run, what readers have received followed by what the pipe still carries is
      what writers have sent. */
  lemma {:induction false} RunConserves(s: State, steps: seq<Step>)
    requires Inv(s)
    ensures Inv(RunAll(s, steps)) && RunAll(s, steps).sent == RunAll(s, steps).got + StreamOf(RunAll(s, steps))
    decreases |steps|
  {
    hide QueuesOk, StreamOf, Do;
    if steps != [] {
      StepKeeps(s, steps[0]);
      RunConserves(Do(s, steps[0]), steps[1..]);
    }
  }

  /** The bytes a step lets into the pipe. */
  function Admitted(s: State, step: Step): Bytes {
    match step
    case DoPut(_, _, data, min, noWait) =>
      if PutRefused(s, data, min, noWait) then []
      else if PutCode(s, data, min, noWait) == Pended then data
      else First(data, Excess(|data|, |PutRest(s, data)|))
    case _ => []
  }

  function AllAdmitted(s: State, steps: seq<Step>): Bytes
    decreases |steps|
  {
    if steps == [] then [] else Admitted(s, steps[0]) + AllAdmitted(Do(s, steps[0]), steps[1..])
  }

  /** A step that lets nobody overtake waiting bytes and takes none of them back. */
  predicate InTurn(s: State, step: Step) {
    match step
    case DoPut(_, prio, _, _, _) => Outranked(s.writers, prio) == []
    case DoWriterTimeout(k) => k < |s.writers| ==> s.writers[k].info == []
    case _ => true
  }

  predicate AllInTurn(s: State, steps: seq<Step>)
    decreases |steps|
  {
    steps == [] || (InTurn(s, steps[0]) && AllInTurn(Do(s, steps[0]), steps[1..]))
  }

  lemma StepAppends(s: State, step: Step)
    requires Inv(s) && InTurn(s, step)
    ensures Do(s, step).sent == s.sent + Admitted(s, step)
  {
    hide QueuesOk, Conserved, Flatten, Outranked, PutRest, First, Unserved, Offer, WritersAfter, Pend, RemoveAt, PutRefused, GetRefused;
    if step.DoPut? {
      InsertedAt(s.sent, [], step.data);
      assert s.sent + [] == s.sent;
    }
  }

  /** If all goes in turn, the pipe is first in, first out: what has been received followed by
      what is still carried is what was let in, in the order of the puts. */
  lemma {:induction false} FirstInFirstOut(s: State, steps: seq<Step>)
    requires Inv(s) && AllInTurn(s, steps)
    ensures var s' := RunAll(s, steps); s'.got + StreamOf(s') == s.sent + AllAdmitted(s, steps)
    decreases |steps|
  {
    hide QueuesOk, StreamOf, Do, Admitted, InTurn;
    if steps != [] {
      StepKeeps(s, steps[0]);
      StepAppends(s, steps[0]);
      FirstInFirstOut(Do(s, steps[0]), steps[1..]);
      assert (s.sent + Admitted(s, steps[0])) + AllAdmitted(Do(s, steps[0]), steps[1..]) == s.sent + AllAdmitted(s, steps);
    }
  }

  ghost predicate SamePrio(ws: seq<Writer>, p: int) {
    forall w :: w in ws ==> w.prio == p
  }

  lemma SameRank(ws: seq<Writer>, p: int)
    requires SamePrio(ws, p)
    ensures Outranked(ws, p) == []
  {
    hide Flatten;
    var k := Rank(ws, p);
    forall i | 0 <= i < |ws| ensures ws[i].prio == p { assert ws[i] in ws; }
    FlattenNone(Data(ws[k..]));
  }

  lemma {:induction false} UnsentFrom(ws: seq<Writer>)
    ensures forall w :: w in Unsent(ws) ==> w in ws
  {
    if ws != [] {
      UnsentFrom(ws[1..]);
    }
  }

  lemma WithDataSame(ws: seq<Writer>, ds: seq<Bytes>, p: int)
    requires |ds| == |ws| && SamePrio(ws, p)
    ensures SamePrio(WithData(ws, ds), p)
  {
    forall w | w in WithData(ws, ds) ensures w.prio == p {
      var i :| 0 <= i < |ws| && WithData(ws, ds)[i] == w;
      assert ws[i] in ws;
    }
  }

  lemma GetSame(ws: seq<Writer>, n: nat, taken: nat, free: nat, p: int)
    requires SamePrio(ws, p)
    ensures SamePrio(WritersAfter(ws, n, taken, free), p)
  {
    hide WithData, Drop, Data, Unsent;
    var k := WalkCount(Lengths(Data(ws)), n);
    var ws1 := WithData(ws, Drop(Data(ws), taken));
    WithDataSame(ws, Drop(Data(ws), taken), p);
    UnsentFrom(ws1[..k]);
    var ws2 := Released(ws, n, taken);
    assert SamePrio(ws2, p);
    WithDataSame(ws2, Drop(Data(ws2), free), p);
  }

  predicate Peaceful(step: Step, p: int) {
    !step.DoWriterTimeout? && (step.DoPut? ==> step.prio == p)
  }

  lemma SameStep(s: State, step: Step, p: int)
    requires SamePrio(s.writers, p) && Peaceful(step, p)
    ensures InTurn(s, step) && SamePrio(Do(s, step).writers, p)
  {
    hide Flatten, Outranked, PutRest, First, After, Unserved, Offer, WritersAfter, Pend, RemoveAt, PutRefused, GetRefused;
    match step
    case DoPut(me, _, data, _, _) =>
      SameRank(s.writers, p);
      PendHolds(s.writers, Waiter(me, p, PutRest(s, data)));
    case DoGet(_, _, n, _, _) =>
      GetSame(s.writers, n, Excess(n, |s.ring|), Excess(s.size, Excess(|s.ring|, n)), p);
    case _ =>
  }

  /** That is the case when all writers have the same priority and none gives up. */
  lemma {:induction false} SamePrioInTurn(s: State, steps: seq<Step>, p: int)
    requires SamePrio(s.writers, p) && forall i :: 0 <= i < |steps| ==> Peaceful(steps[i], p)
    ensures AllInTurn(s, steps)
    decreases |steps|
  {
    hide Do, InTurn, Peaceful;
    if steps != [] {
      assert Peaceful(steps[0], p);
      SameStep(s, steps[0], p);
      SamePrioInTurn(Do(s, steps[0]), steps[1..], p);
    }
  }

  // ----- exactly when a pipe is first in, first out -----

  function Fresh(size: nat): State {
    State(size, [], [], [], [], [])
  }

  ghost predicate Fifo(size: nat, steps: seq<Step>) {
    var s := RunAll(Fresh(size), steps);
    s.got + StreamOf(s) == AllAdmitted(Fresh(size), steps)
  }

  lemma FreshOk(size: nat)
    ensures Inv(Fresh(size))
  {
  }

  function Ones(n: nat): Bytes {
    seq(n, _ => 1 as Byte)
  }

  /** One byte more than the ring takes: full, with a writer waiting to put in the last one. */
  function Overfull(size: nat, q: int): State {
    State(size, Ones(size), [], [Waiter(1, q, [1 as Byte])], Ones(size + 1), [])
  }

  lemma Overfill(size: nat, q: int)
    ensures Do(Fresh(size), DoPut(1, q, Ones(size + 1), 0, false)) == Overfull(size, q)
    ensures Admitted(Fresh(size), DoPut(1, q, Ones(size + 1), 0, false)) == Ones(size + 1)
  {
    var data := Ones(size + 1);
    assert Total(Rooms([])) == 0;
    assert After(data, 0) == data && First(data, size) == Ones(size) && After(data, size) == [1 as Byte];
    assert First(data, 0) == [];
    assert Rank<Bytes>([], q) == 0 && Outranked([], q) == [];
    assert Inserted([], data, 0) == data;
  }

  lemma TwoSteps(s: State, a: Step, b: Step)
    ensures RunAll(s, [a, b]) == Do(Do(s, a), b)
    ensures AllAdmitted(s, [a, b]) == Admitted(s, a) + Admitted(Do(s, a), b)
  {
    hide Do, Admitted;
    assert [a, b][1..] == [b];
    assert RunAll(Do(s, a), [b]) == RunAll(Do(Do(s, a), b), [b][1..]);
    assert AllAdmitted(Do(s, a), [b]) == Admitted(Do(s, a), b) + AllAdmitted(Do(Do(s, a), b), [b][1..]);
  }

  /** A more urgent writer goes ahead of one that waits. */
  lemma OvertakingBreaksOrder(size: nat, p: int, q: int)
    requires p < q
    ensures !Fifo(size, [DoPut(1, q, Ones(size + 1), 0, false), DoPut(2, p, [2 as Byte], 0, false)])
  {
    hide Do, Admitted, Inv;
    var first, second := DoPut(1, q, Ones(size + 1), 0, false), DoPut(2, p, [2 as Byte], 0, false);
    Overfill(size, q);
    TwoSteps(Fresh(size), first, second);
    Overtake(size, p, q);
    FreshOk(size);
    RunConserves(Fresh(size), [first, second]);
    assert AllAdmitted(Fresh(size), [first, second])[size] == 1;
  }

  lemma Overtake(size: nat, p: int, q: int)
    requires p < q
    ensures var s := Do(Overfull(size, q), DoPut(2, p, [2 as Byte], 0, false)); size < |s.sent| && s.sent[size] == 2
    ensures Admitted(Overfull(size, q), DoPut(2, p, [2 as Byte], 0, false)) == [2 as Byte]
  {
    var s := Overfull(size, q);
    assert Total(Rooms(s.readers)) == 0;
    assert After([2 as Byte], 0) == [2 as Byte];
    assert Rank(s.writers, p) == 0 && s.writers[0..] == s.writers;
    OneData(s.writers[0]);
    assert Ones(size + 1)[..size] == Ones(size);
  }

  /** A writer that gives up takes accepted bytes back. */
  lemma GivingUpBreaksOrder(size: nat, q: int)
    ensures !Fifo(size, [DoPut(1, q, Ones(size + 1), 0, false), DoWriterTimeout(0)])
  {
    hide Inv, PutStep, PutRefused, PutCode;
    var first := DoPut(1, q, Ones(size + 1), 0, false);
    Overfill(size, q);
    TwoSteps(Fresh(size), first, DoWriterTimeout(0));
    FreshOk(size);
    RunConserves(Fresh(size), [first, DoWriterTimeout(0)]);
    var s := Overfull(size, q);
    OneData(s.writers[0]);
    assert s.writers[0..] == s.writers;
    assert Admitted(s, DoWriterTimeout(0)) == [];
  }

  /** Writers use these priorities, and give up only if that is allowed. */
  predicate Allowed(step: Step, prios: set<int>, givingUp: bool) {
    (step.DoPut? ==> step.prio in prios) && (step.DoWriterTimeout? ==> givingUp)
  }

  ghost predicate AllAllowed(steps: seq<Step>, prios: set<int>, givingUp: bool) {
    forall i :: 0 <= i < |steps| ==> Allowed(steps[i], prios, givingUp)
  }

  lemma {:induction false} NoPutInTurn(s: State, steps: seq<Step>)
    requires s.writers == [] && AllAllowed(steps, {}, true)
    ensures AllInTurn(s, steps)
    decreases |steps|
  {
    if steps != [] {
      assert Allowed(steps[0], {}, true);
      NoPutInTurn(Do(s, steps[0]), steps[1..]);
    }
  }

  lemma OnePrioIsFifo(size: nat, steps: seq<Step>, prios: set<int>, givingUp: bool)
    requires forall p, q :: p in prios && q in prios ==> p == q
    requires givingUp ==> prios == {}
    requires AllAllowed(steps, prios, givingUp)
    ensures Fifo(size, steps)
  {
    hide AllInTurn, Inv;
    var s := Fresh(size);
    FreshOk(size);
    if prios == {} {
      forall i | 0 <= i < |steps| ensures Allowed(steps[i], {}, true) {
        assert Allowed(steps[i], prios, givingUp);
      }
      NoPutInTurn(s, steps);
    } else {
      var p := SomeMember(prios);
      forall i | 0 <= i < |steps| ensures Peaceful(steps[i], p) {
        assert Allowed(steps[i], prios, givingUp);
      }
      SamePrioInTurn(s, steps, p);
    }
    FirstInFirstOut(s, steps);
  }

  /** On every run in which writers use the given priorities, a pipe of any size delivers in
      the order of the puts, exactly if these are not two different ones and no writer gives
      up waiting. */
  lemma FifoIff(size: nat, prios: set<int>, givingUp: bool)
    ensures (forall steps :: AllAllowed(steps, prios, givingUp) ==> Fifo(size, steps))
       <==> (forall p, q :: p in prios && q in prios ==> p == q) && (givingUp ==> prios == {})
  {
    hide Fifo;
    if p, q :| p in prios && q in prios && p < q {
      OvertakingBreaksOrder(size, p, q);
      assert AllAllowed([DoPut(1, q, Ones(size + 1), 0, false), DoPut(2, p, [2 as Byte], 0, false)], prios, givingUp);
    } else if givingUp && prios != {} {
      var q := SomeMember(prios);
      GivingUpBreaksOrder(size, q);
      assert AllAllowed([DoPut(1, q, Ones(size + 1), 0, false), DoWriterTimeout(0)], prios, givingUp);
    } else {
      forall steps | AllAllowed(steps, prios, givingUp) ensures Fifo(size, steps) {
        OnePrioIsFifo(size, steps, prios, givingUp);
      }
    }
  }

  class Pipe {
    const buffer: array<Byte>
    var bytesUsed: nat
    var readIndex: nat
    var writeIndex: nat
    var readers: seq<Reader>
    var writers: seq<Writer>
    ghost var sent: Bytes
    ghost var got: Bytes

    ghost predicate RingOk()
      reads this
    {
      && bytesUsed <= buffer.Length
      && (if buffer.Length == 0 then readIndex == 0 == writeIndex
          else readIndex < buffer.Length && writeIndex < buffer.Length
               && writeIndex == Wrap(readIndex + bytesUsed, buffer.Length))
    }

    ghost function Contents(): Bytes
      requires RingOk()
      reads this, buffer
    {
      Ring(buffer[..], readIndex, bytesUsed)
    }

    constructor (size: nat)
      ensures Valid() && Stream() == [] && buffer.Length == size && readers == [] && writers == []
    {
      buffer := new Byte[size];
      bytesUsed, readIndex, writeIndex := 0, 0, 0;
      readers, writers, sent, got := [], [], [], [];
    }

    /** Copies a contiguous chunk into the buffer at the write index. */
    method RingWrite(chunk: Bytes)
      requires RingOk() && buffer.Length > 0
      requires bytesUsed + |chunk| <= buffer.Length && writeIndex + |chunk| <= buffer.Length
      modifies this`bytesUsed, this`writeIndex, buffer
      ensures RingOk() && Contents() == old(Contents()) + chunk
      ensures writeIndex == Wrap(old(writeIndex) + |chunk|, buffer.Length)
      ensures bytesUsed == old(bytesUsed) + |chunk|
    {
      hide Ring;
      RingPush(buffer[..], readIndex, bytesUsed, chunk);
      ghost var before := buffer[..];
      var w := writeIndex;
      forall i | 0 <= i < |chunk| { buffer[w + i] := chunk[i]; }
      assert buffer[..] == Splice(before, w, chunk);
      bytesUsed := bytesUsed + |chunk|;
      writeIndex := writeIndex + |chunk|;
      if writeIndex >= buffer.Length {
        writeIndex := writeIndex - buffer.Length;
      }
    }

    /** Copies a contiguous chunk out of the buffer from the read index. */
    method RingRead(n: nat) returns (chunk: Bytes)
      requires RingOk() && buffer.Length > 0
      requires n <= bytesUsed && readIndex + n <= buffer.Length
      modifies this`bytesUsed, this`readIndex
      ensures RingOk() && old(Contents()) == chunk + Contents() && |chunk| == n
      ensures readIndex == Wrap(old(readIndex) + n, buffer.Length)
    {
      hide Ring;
      RingPop(buffer[..], readIndex, bytesUsed, n);
      chunk := buffer[readIndex..readIndex + n];
      bytesUsed := bytesUsed - n;
      readIndex := readIndex + n;
      if readIndex >= buffer.Length {
        readIndex := readIndex - buffer.Length;
      }
    }

    /** The copy loop: drains the source list into the readers and then the ring. */
    method PipeWrite(srcs: seq<Bytes>, rooms: seq<nat>, segs: seq<nat>)
      returns (rest: seq<Bytes>, got: seq<Bytes>)
      requires RingOk() && (segs != [] ==> buffer.Length > 0)
      requires Fits(buffer.Length, writeIndex, buffer.Length - bytesUsed, segs)
      modifies this`bytesUsed, this`writeIndex, buffer
      ensures RingOk()
      ensures got == Deal(rooms + segs, Flatten(srcs)) && rest == Drop(srcs, Total(rooms + segs))
      ensures Contents() == old(Contents()) + Flatten(got[|rooms|..])
      ensures bytesUsed == old(bytesUsed) + |Flatten(got[|rooms|..])|
    {
      hide Progress, Deal, Drop, Total, Ring, Flatten, RingShare, Fits, Wrap;
      var ss, rs, gs := srcs, rooms, segs;
      var g: Bytes := [];
      ghost var pushed: Bytes := [];
      rest, got := [], [];
      ProgressStart(srcs, rooms + segs);
      ShareStart(|rooms|);
      while ss != [] && (rs != [] || gs != [])
        invariant RingOk() && Contents() == old(Contents()) + pushed && bytesUsed == old(bytesUsed) + |pushed|
        invariant Fits(buffer.Length, writeIndex, buffer.Length - bytesUsed, gs) && (gs != [] ==> buffer.Length > 0)
        invariant Progress(srcs, rooms + segs, ss, rs + gs, rest, got, g) && (rs + gs == [] ==> g == [])
        invariant |got| + |rs| + |gs| == |rooms| + |segs| && (rs != [] ==> gs == segs) && |gs| <= |segs|
        invariant pushed == RingShare(got, g, |rooms|)
        decreases |ss| + |rs| + |gs|
      {
        ghost var caps := rs + gs;
        var n := Min(if rs != [] then rs[0] else gs[0], |ss[0]|);
        var chunk := ss[0][..n];
        ProgressCopy(srcs, rooms + segs, ss, caps, rest, got, g, n);
        ShareCopy(got, g, chunk, |rooms|);
        g, ss := g + chunk, ss[0 := ss[0][n..]];
        if rs != [] {
          rs := rs[0 := rs[0] - n];
        } else {
          FitsStep(buffer.Length, writeIndex, buffer.Length - bytesUsed, gs, n);
          RingWrite(chunk);
          pushed, gs := pushed + chunk, gs[0 := gs[0] - n];
        }
        assert rs + gs == caps[0 := caps[0] - n];
        if ss[0] == [] {
          ProgressSource(srcs, rooms + segs, ss, rs + gs, rest, got, g);
          rest, ss := rest + [[]], ss[1..];
        }
        if (if rs != [] then rs[0] else gs[0]) == 0 {
          ProgressDestination(srcs, rooms + segs, ss, rs + gs, rest, got, g);
          SharePop(got, g, |rooms|);
          if rs != [] {
            assert (rs + gs)[1..] == rs[1..] + gs;
            rs := rs[1..];
          } else {
            assert (rs + gs)[1..] == rs + gs[1..];
            gs := gs[1..];
          }
          got, g := got + [g], [];
        }
      }
      ProgressDone(srcs, rooms + segs, ss, rs + gs, rest, got, g);
      rest := rest + ss;
      if rs != [] || gs != [] {
        SharePad(got, g, |rooms|, |rs| + |gs| - 1);
        got := got + ([g] + Blank(|rs| + |gs| - 1));
      } else {
        ShareAll(got, |rooms|);
      }
    }

    ghost function Abs(): State
      requires RingOk()
      reads this, buffer
    {
      State(buffer.Length, Contents(), readers, writers, sent, got)
    }

    ghost predicate Valid()
      reads this, buffer
    {
      RingOk() && Inv(Abs())
    }

    /** What does not depend on the bytes themselves. */
    ghost predicate Sound()
      reads this
    {
      RingOk() && QueuesOk(buffer.Length, bytesUsed, readers, writers)
    }

    /** The byte stream the pipe carries. */
    ghost function Stream(): Bytes
      requires RingOk()
      reads this, buffer
    {
      Contents() + Flatten(Data(writers))
    }

    /** Looks at waiters in queue order until they offer enough bytes. */
    static method WalkWaiters(lens: seq<nat>, requested: nat) returns (k: nat, avail: nat)
      ensures k == WalkCount(lens, requested) && avail == Total(lens[..k])
      ensures k == |lens| || avail >= requested
    {
      k, avail := 0, 0;
      while k < |lens|
        invariant k <= |lens| && avail == Total(lens[..k])
        invariant k > 0 ==> avail < requested
        invariant WalkCount(lens, requested) == k + WalkCount(lens[k..], requested - (if k == 0 then 0 else avail))
      {
        TotalSplit(lens[..k], [lens[k]]);
        assert lens[..k + 1] == lens[..k] + [lens[k]] && lens[k..][1..] == lens[k + 1..];
        avail, k := avail + lens[k], k + 1;
        if avail >= requested { return; }
      }
    }

    /** The free stretches of the ring, none when it is full. */
    method FreeSegments() returns (segs: seq<nat>)
      requires RingOk()
      ensures Fits(buffer.Length, writeIndex, buffer.Length - bytesUsed, segs)
      ensures Total(segs) == buffer.Length - bytesUsed && (segs != [] ==> buffer.Length > 0)
    {
      segs := [];
      if bytesUsed != buffer.Length {
        SegmentsFit(buffer.Length, writeIndex, buffer.Length - bytesUsed);
        segs := Segments(buffer.Length, writeIndex, readIndex);
      }
    }

    /** Hands data to blocked readers first and then to the ring; `rest` is what is left. */
    method HandOut(data: Bytes, k: nat) returns (rest: Bytes, woken: seq<Reader>)
      requires RingOk() && k <= |readers| && (k == |readers| || Total(Rooms(readers)[..k]) >= |data|)
      modifies this`bytesUsed, this`writeIndex, this`readers, buffer
      ensures RingOk()
      ensures var free := buffer.Length - old(bytesUsed);
        var left := After(data, Total(Rooms(old(readers))));
        && readers == Unserved(Offer(old(readers), data)) && woken == Served(Offer(old(readers), data))
        && Contents() == old(Contents()) + First(left, free) && rest == After(left, free)
        && bytesUsed == old(bytesUsed) + |First(left, free)|
    {
      hide Deal, Drop, Total, Flatten, Ring, Rooms, First, After, Serve, Offer, Served, Unserved, Fits, Wrap, ChunksFit;
      var rooms := Rooms(readers);
      var segs := FreeSegments();
      PutCopies(rooms, k, segs, data);
      OfferIs(readers, data);
      var rests, got := PipeWrite([data], rooms[..k], segs);
      var chunks := got[..k] + Blank(|readers| - k);
      assert chunks == Deal(rooms, data);
      var served := Serve(readers, chunks);
      readers, woken, rest := Unserved(served), Served(served), rests[0];
    }

    /** A put that is not refused: what neither a reader nor the ring takes either blocks the
        caller or is reported as not written. */
    method Accept(me: Thread, prio: int, data: Bytes, min: nat, noWait: bool, k: nat)
      returns (code: Code, written: nat, woken: seq<Reader>)
      requires Sound() && k <= |readers| && (k == |readers| || Total(Rooms(readers)[..k]) >= |data|)
      modifies this`bytesUsed, this`readIndex, this`writeIndex, this`readers, this`writers, buffer
      ensures Sound()
      ensures var free := buffer.Length - old(bytesUsed);
        var left := After(data, Total(Rooms(old(readers))));
        var served := Offer(old(readers), data);
        && readers == Unserved(served) && woken == Served(served)
        && SharedOut(old(readers), data, woken, readers)
        && Contents() == old(Contents()) + First(left, free)
        && written == |data| - |After(left, free)|
        && code == (if WaitsForMore(written, |data|, min, noWait) then Pended else Done)
        && writers == if code == Pended then Pend(old(writers), Waiter(me, prio, After(left, free))) else old(writers)
    {
      hide Total, Flatten, Ring, Rooms, First, After, Offer, Served, Unserved, SharedOut, QueuesOk, AllWant, Pend, Wrap, Outcome, WaitsForMore;
      ghost var wanted := Total(Rooms(readers));
      QueuesSay(buffer.Length, bytesUsed, readers, writers);
      OfferShares(readers, data);
      PutServes(readers, data);
      FirstAfter(data, wanted);
      FirstAfter(After(data, wanted), buffer.Length - bytesUsed);
      var rest;
      rest, woken := HandOut(data, k);
      PutKeeps(buffer.Length, old(bytesUsed), old(readers), writers, readers, After(data, wanted), Waiter(me, prio, rest));
      written := |data| - |rest|;
      OutcomeIs(written, |data|, min, noWait);
      code := Outcome(written, |data|, min, noWait);
      if code == Pended {
        writers := Pend(writers, Waiter(me, prio, rest));
      }
    }

    /** `k_pipe_put`. */
    method Put(me: Thread, prio: int, data: Bytes, min: nat, noWait: bool)
      returns (code: Code, written: nat, woken: seq<Reader>)
      requires Valid()
      modifies this, buffer
      ensures Valid() && Abs() == PutStep(old(Abs()), me, prio, data, min, noWait)
      ensures PutDone(old(Abs()), Abs(), me, prio, data, min, noWait, code, written, woken)
    {
      hide PutDone, SharedOut, Outcome, WaitsForMore, Total, Ring, Rooms, First, After, Offer, Served, Unserved, QueuesOk, Pend, Wrap, Conserved, Outranked, Inserted, Flatten;
      ghost var s := Abs();
      PutStepKeeps(s, me, prio, data, min, noWait);
      PutMeets(s, me, prio, data, min, noWait);
      code, written, woken := EInval, 0, [];
      if min > |data| { return; }
      var rooms := Rooms(readers);
      var k, avail := WalkWaiters(rooms, |data|);
      WalkTells(rooms, k, |data|);
      if avail + (buffer.Length - bytesUsed) < min && noWait {
        code := EIo;
        return;
      }
      FirstAfter(data, Total(rooms));
      FirstAfter(After(data, Total(rooms)), buffer.Length - bytesUsed);
      code, written, woken := Accept(me, prio, data, min, noWait, k);
      OutcomeIs(written, |data|, min, noWait);
      ghost var s' := PutStep(s, me, prio, data, min, noWait);
      sent, got := s'.sent, s'.got;
    }

    /** The stretches of the ring that hold data, none when it is empty. */
    method UsedSegments() returns (segs: seq<nat>)
      requires RingOk()
      ensures Fits(buffer.Length, readIndex, bytesUsed, segs)
      ensures Total(segs) == bytesUsed && (segs != [] ==> buffer.Length > 0)
    {
      segs := [];
      if bytesUsed != 0 {
        SegmentsFit(buffer.Length, readIndex, bytesUsed);
        segs := Segments(buffer.Length, readIndex, writeIndex);
      }
    }

    /** The read loop: from the ring first, then from the listed writers. */
    method Collect(segs: seq<nat>, sources: seq<Bytes>, n: nat) returns (out: Bytes, left: seq<Bytes>)
      requires RingOk() && Fits(buffer.Length, readIndex, bytesUsed, segs)
      requires Total(segs) == bytesUsed && (segs != [] ==> buffer.Length > 0)
      modifies this`bytesUsed, this`readIndex
      ensures RingOk() && bytesUsed == Excess(old(bytesUsed), n) && Contents() == After(old(Contents()), n)
      ensures out == First(old(Contents()) + Flatten(sources), n)
      ensures left == Drop(sources, Excess(n, old(bytesUsed)))
    {
      hide Reading, Ring, First, Flatten, Drop, Total;
      ghost var all := Contents();
      var gs, ds, room := segs, sources, n;
      out, left := [], [];
      ReadStart(all, sources, n);
      while gs != [] || ds != []
        invariant RingOk() && Reading(all, sources, n, Contents(), ds, out, room, left)
        invariant gs != [] ==> buffer.Length > 0
        invariant room > 0 ==> Fits(buffer.Length, readIndex, bytesUsed, gs) && Total(gs) == bytesUsed
        decreases |gs| + |ds|
      {
        if gs != [] {
          var m := Min(room, gs[0]);
          TotalUnfold(gs);
          var chunk := RingRead(m);
          ReadRing(all, sources, n, chunk, Contents(), ds, out, room, left);
          out, room, gs := out + chunk, room - m, gs[1..];
        } else {
          var m := Min(room, |ds[0]|);
          TotalNone();
          ReadWriter(all, sources, n, Contents(), ds, out, room, left);
          left := left + [ds[0][m..]];
          out, room, ds := out + ds[0][..m], room - m, ds[1..];
        }
      }
      TotalNone();
      ReadDone(all, sources, n, Contents(), out, room, left);
    }

    /** Tops the ring up from the blocked writers. */
    method Refill()
      requires RingOk()
      modifies this`bytesUsed, this`writeIndex, this`writers, buffer
      ensures RingOk()
      ensures var free := buffer.Length - old(bytesUsed); var ds := Data(old(writers));
        && Contents() == old(Contents()) + First(Flatten(ds), free)
        && bytesUsed == old(bytesUsed) + |First(Flatten(ds), free)|
        && writers == WithData(old(writers), Drop(ds, free))
    {
      hide Deal, Drop, Total, Flatten, Ring, Fits, Lengths, WalkCount, First, Data, WithData;
      var ds := Data(writers);
      DataWith(writers, ds);
      if bytesUsed != buffer.Length {
        var k, _ := WalkWaiters(Lengths(ds), buffer.Length - bytesUsed);
        var segs := FreeSegments();
        RefillCopies(ds, segs);
        var rest, _ := PipeWrite(ds[..k], [], segs);
        writers := WithData(writers, rest + ds[k..]);
      } else {
        DropNothing(ds);
        FirstNone(Flatten(ds));
      }
    }

    /** Steps 1 and 2 of a get: serves the reader from the ring and then from the blocked
        writers, and releases the writers found with nothing left. */
    method Take(n: nat, k: nat) returns (out: Bytes, woken: seq<Writer>)
      requires RingOk() && k == WalkCount(Lengths(Data(writers)), n)
      modifies this`bytesUsed, this`readIndex, this`writers
      ensures RingOk() && bytesUsed == Excess(old(bytesUsed), n)
      ensures out == First(old(Stream()), n) && Stream() == After(old(Stream()), n)
      ensures Contents() == After(old(Contents()), n)
      ensures var ws := WithData(old(writers), Drop(Data(old(writers)), Excess(n, old(bytesUsed))));
        && k <= |ws| && woken == Sent(ws[..k]) && writers == Unsent(ws[..k]) + ws[k..]
    {
      hide Drop, Total, Flatten, Ring, Fits, Lengths, WalkCount, Sent, Unsent, First, After;
      var ds := Data(writers);
      ghost var taken := Excess(n, bytesUsed);
      WalkDrops(ds, n, taken);
      FlattenNone(ds[k..]);
      FirstEnough(Contents(), Flatten(ds[..k]), Flatten(ds[k..]), n);
      AfterSplit(Contents(), Flatten(ds), n);
      DropLeaves(ds, taken);
      var segs := UsedSegments();
      var left;
      out, left := Collect(segs, ds[..k], n);
      var ws := WithData(writers, left + ds[k..]);
      DataWith(writers, left + ds[k..]);
      ReleaseData(ws, k);
      woken, writers := Sent(ws[..k]), Unsent(ws[..k]) + ws[k..];
    }

    /** A get that is not refused: copies, releases writers, refills the ring and, when
        too little has arrived, blocks the caller. */
    method Deliver(me: Thread, prio: int, n: nat, min: nat, noWait: bool, k: nat)
      returns (code: Code, out: Bytes, woken: seq<Writer>)
      requires Sound() && k == WalkCount(Lengths(Data(writers)), n)
      modifies this`bytesUsed, this`readIndex, this`writeIndex, this`readers, this`writers, buffer
      ensures Sound()
      ensures out == First(old(Stream()), n) && Stream() == After(old(Stream()), n)
      ensures Contents() == First(After(old(Stream()), n), buffer.Length)
      ensures code == (if WaitsForMore(|out|, n, min, noWait) then Pended else Done) && |out| <= n
      ensures readers == (if code == Pended then Pend(old(readers), Waiter(me, prio, Want(out, n - |out|))) else old(readers))
      ensures writers == WritersAfter(old(writers), n, Excess(n, old(bytesUsed)), buffer.Length - Excess(old(bytesUsed), n))
      ensures woken == GetWakes(old(writers), n, Excess(n, old(bytesUsed)))
    {
      hide Drop, Total, Flatten, Ring, Fits, Lengths, WalkCount, Sent, Unsent, First, After, QueuesOk, Released, Data, WithData, Rank, Pend, Wrap;
      ghost var ws, s := writers, Stream();
      ghost var taken := Excess(n, bytesUsed);
      FirstAfter(s, n);
      QueuesSay(buffer.Length, bytesUsed, readers, writers);
      ReleasedIs(ws, n, taken);
      if |s| < n || readers != [] { ReleasedAll(ws, n, taken); }
      out, woken := Take(n, k);
      code := Outcome(|out|, n, min, noWait);
      if code == Pended {
        PendWants(readers, Waiter(me, prio, Want(out, n - |out|)));
        readers := Pend(readers, Waiter(me, prio, Want(out, n - |out|)));
      }
      RefillStream(Contents(), writers, buffer.Length - bytesUsed);
      GetKeeps(buffer.Length, bytesUsed, readers, writers);
      FirstOf(Contents(), Flatten(Data(writers)), buffer.Length);
      Refill();
    }

    /** `k_pipe_get`: delivers the front of the stream and leaves exactly the rest of it,
        byte for byte. */
    method Get(me: Thread, prio: int, n: nat, min: nat, noWait: bool)
      returns (code: Code, out: Bytes, woken: seq<Writer>)
      requires Valid()
      modifies this, buffer
      ensures Valid() && Abs() == GetStep(old(Abs()), me, prio, n, min, noWait)
      ensures GetDone(old(Abs()), Abs(), me, prio, n, min, noWait, code, out, woken)
    {
      hide GetDone, Drop, Total, Flatten, Ring, Lengths, WalkCount, First, After, QueuesOk, Data, WritersAfter, GetWakes, Pend, Wrap, Conserved;
      ghost var s := Abs();
      GetStepKeeps(s, me, prio, n, min, noWait);
      GetMeets(s, me, prio, n, min, noWait);
      code, out, woken := EInval, [], [];
      if min > n { return; }
      ghost var ds := Data(writers);
      var k, avail := WalkWaiters(Lengths(Data(writers)), n);
      WalkDrops(ds, n, n);
      FlattenNone(ds[k..]);
      FirstAfter(Stream(), n);
      if bytesUsed + avail < min && noWait {
        code := EIo;
        return;
      }
      code, out, woken := Deliver(me, prio, n, min, noWait, k);
      got := got + out;
    }

    /** A blocked reader's timeout expires. It keeps what it has received. */
    method ReaderTimeout(k: nat, min: nat) returns (code: Code, out: Bytes)
      requires Valid() && k < |readers|
      modifies this`readers
      ensures Valid() && Abs() == ReaderTimeoutStep(old(Abs()), k)
      ensures out == old(readers)[k].info.got && code == if |out| >= min then Done else EAgain
    {
      hide QueuesOk, Conserved, Ring;
      TimeoutKeeps(Abs(), k);
      out := readers[k].info.got;
      code := if |out| >= min then Done else EAgain;
      readers := RemoveAt(readers, k);
    }

    /** A blocked writer's timeout expires. Its unsent bytes leave the stream. */
    method WriterTimeout(k: nat, asked: nat, min: nat) returns (code: Code, written: nat)
      requires Valid() && k < |writers| && |writers[k].info| <= asked
      modifies this`writers, this`sent
      ensures Valid() && Abs() == WriterTimeoutStep(old(Abs()), k)
      ensures written == asked - |old(writers)[k].info| && code == if written >= min then Done else EAgain
    {
      hide QueuesOk, Conserved, Ring;
      TimeoutKeeps(Abs(), k);
      written := asked - |writers[k].info|;
      code := if written >= min then Done else EAgain;
      sent := WriterTimeoutStep(Abs(), k).sent;
      writers := RemoveAt(writers, k);
    }

    /** `k_pipe_flush`: a get of the largest size into nowhere. */
    method Flush(max: nat) returns (woken: seq<Writer>)
      requires Valid() && |Stream()| <= max
      modifies this, buffer
      ensures Valid() && Stream() == [] && Abs() == GetStep(old(Abs()), 0, 0, max, 0, true) && readers == old(readers)
      ensures GetDone(old(Abs()), Abs(), 0, 0, max, 0, true, Done, old(Stream()), woken)
    {
      hide GetDone, QueuesOk, WritersAfter, GetWakes, Flatten, Ring, Conserved;
      FirstAfter(Stream(), max);
      var code, out, w := Get(0, 0, max, 0, true);
      GetAll(old(Abs()), Abs(), max, code, out, w);
      woken := w;
    }

    method ReadAvail() returns (n: nat)
      requires RingOk()
      ensures n == bytesUsed
    {
      if buffer.Length == 0 {
        n := 0;
      } else if readIndex == writeIndex {
        n := bytesUsed;
      } else if readIndex < writeIndex {
        n := writeIndex - readIndex;
      } else {
        n := buffer.Length - (readIndex - writeIndex);
      }
    }

    method WriteAvail() returns (n: nat)
      requires RingOk()
      ensures n == buffer.Length - bytesUsed
    {
      if buffer.Length == 0 {
        n := 0;
      } else if writeIndex == readIndex {
        n := buffer.Length - bytesUsed;
      } else if writeIndex < readIndex {
        n := readIndex - writeIndex;
      } else {
        n := buffer.Length - (writeIndex - readIndex);
      }
    }
  }
}
