/**
 The order in which Zephyr modules are processed (`parse_modules` in scripts/zephyr_module.py):
 every module after the modules it depends on.
 */
module ModuleSort {

  datatype Name = Name(text: string)

  /** What each module depends on. */
  type Graph = map<Name, seq<Name>>

  // ----- what can stand in the way of an order -----

  ghost predicate Missing(g: Graph) {
    exists m, d :: m in g && d in g[m] && d !in g
  }

  ghost predicate Distinct(q: seq<Name>) {
    forall i, j :: 0 <= i < j < |q| ==> q[i] != q[j]
  }

  ghost predicate Repeats(g: Graph) {
    exists m :: m in g && !Distinct(g[m])
  }

  ghost predicate Arc(g: Graph, p: seq<Name>, i: nat)
    requires i < |p| - 1
  {
    p[i] in g && p[i + 1] in g[p[i]]
  }

  /** Each module on the walk depends on the next one. */
  ghost predicate Walk(g: Graph, p: seq<Name>) {
    && (forall i :: 0 <= i < |p| ==> p[i] in g)
    && (forall i :: 0 <= i < |p| - 1 ==> Arc(g, p, i))
  }

  ghost predicate OnCycle(g: Graph, m: Name) {
    exists p :: |p| >= 2 && Walk(g, p) && p[0] == m == p[|p| - 1]
  }

  ghost predicate Cyclic(g: Graph) {
    exists m :: OnCycle(g, m)
  }

  ghost predicate Incomplete(g: Graph, m: Name) {
    m in g && ((exists d :: d in g[m] && d !in g) || !Distinct(g[m]))
  }

  ghost predicate Reaches(g: Graph, m: Name, x: Name) {
    exists p :: |p| >= 1 && Walk(g, p) && p[0] == m && p[|p| - 1] == x
  }

  /** Following dependencies from `m` one can come to one that is missing, repeated or cyclic. */
  ghost predicate Doomed(g: Graph, m: Name) {
    exists x :: Reaches(g, m, x) && (Incomplete(g, x) || OnCycle(g, x))
  }

  lemma DoomedItself(g: Graph, m: Name)
    requires Incomplete(g, m) || OnCycle(g, m)
    ensures Doomed(g, m) && m in g
  {
    assert Walk(g, [m]) by {
      if OnCycle(g, m) {
        var p :| |p| >= 2 && Walk(g, p) && p[0] == m == p[|p| - 1];
      }
    }
    assert Reaches(g, m, m);
  }

  lemma SomeoneDoomed(g: Graph)
    ensures Missing(g) || Repeats(g) || Cyclic(g) <==> exists m :: m in g && Doomed(g, m)
  {
    hide Walk;
    forall m | Incomplete(g, m) || OnCycle(g, m) ensures m in g && Doomed(g, m) {
      DoomedItself(g, m);
    }
    if Missing(g) {
      var m, d :| m in g && d in g[m] && d !in g;
      assert Incomplete(g, m);
    }
    if Repeats(g) {
      var m :| m in g && !Distinct(g[m]);
      assert Incomplete(g, m);
    }
  }

  /** All modules, once each, each after everything it depends on. */
  ghost predicate IsOrder(g: Graph, r: seq<Name>) {
    && Distinct(r) && (forall n :: n in r <==> n in g)
    && (forall i :: 0 <= i < |r| ==> r[i] in g && forall d :: d in g[r[i]] ==> d in r[..i])
  }

  // ----- what has been sorted is not doomed -----

  ghost predicate SettledAt(g: Graph, r: seq<Name>, i: nat)
    requires i < |r|
  {
    r[i] in g && Distinct(g[r[i]]) && forall d :: d in g[r[i]] ==> d in r[..i]
  }

  /** A beginning of an order. */
  ghost predicate Settled(g: Graph, r: seq<Name>) {
    Distinct(r) && forall i :: 0 <= i < |r| ==> SettledAt(g, r, i)
  }

  /** Along a walk an order goes backwards, by at least one place for each step. */
  lemma {:induction false} WalkGoesBack(g: Graph, r: seq<Name>, p: seq<Name>, a: nat) returns (b: nat)
    requires Settled(g, r) && Walk(g, p) && |p| >= 1 && a < |r| && r[a] == p[0]
    ensures b < |r| && r[b] == p[|p| - 1] && b + |p| - 1 <= a
    decreases |p|
  {
    if |p| == 1 {
      return a;
    }
    assert Arc(g, p, 0) && SettledAt(g, r, a);
    var c :| 0 <= c < a && r[c] == p[1];
    forall i | 0 <= i < |p[1..]| - 1 ensures Arc(g, p[1..], i) {
      assert Arc(g, p, i + 1);
    }
    b := WalkGoesBack(g, r, p[1..], c);
  }

  lemma SettledIsSafe(g: Graph, r: seq<Name>, a: nat)
    requires Settled(g, r) && a < |r|
    ensures !Doomed(g, r[a])
  {
    if Doomed(g, r[a]) {
      var x :| Reaches(g, r[a], x) && (Incomplete(g, x) || OnCycle(g, x));
      var p :| |p| >= 1 && Walk(g, p) && p[0] == r[a] && p[|p| - 1] == x;
      var b := WalkGoesBack(g, r, p, a);
      NotFaulty(g, r, b);
    }
  }

  lemma NotFaulty(g: Graph, r: seq<Name>, b: nat)
    requires Settled(g, r) && b < |r|
    ensures !Incomplete(g, r[b]) && !OnCycle(g, r[b])
  {
    assert SettledAt(g, r, b);
    forall d | d in g[r[b]] ensures d in g {
      var c :| 0 <= c < b && r[c] == d;
      assert SettledAt(g, r, c);
    }
    if OnCycle(g, r[b]) {
      var p :| |p| >= 2 && Walk(g, p) && p[0] == r[b] == p[|p| - 1];
      var c := WalkGoesBack(g, r, p, b);
      assert false;
    }
  }

  // ----- what is stuck is doomed -----

  /** The module depends on one in `s`, unless its list is wrong anyway. */
  ghost predicate HeldBack(g: Graph, s: set<Name>, m: Name) {
    m in g && (Incomplete(g, m) || exists d :: d in g[m] && d in s)
  }

  ghost predicate Stuck(g: Graph, s: set<Name>) {
    forall m {:trigger HeldBack(g, s, m)} :: m in s ==> HeldBack(g, s, m)
  }

  lemma WalkLonger(g: Graph, m: Name, q: seq<Name>)
    requires Walk(g, q) && |q| >= 1 && m in g && q[0] in g[m]
    ensures Walk(g, [m] + q)
  {
    var p := [m] + q;
    forall i | 0 <= i < |p| - 1 ensures Arc(g, p, i) {
      if i > 0 {
        assert Arc(g, q, i - 1);
      }
    }
  }

  /** From a module of a stuck set there is a walk in it, as long as one likes or to a module
      whose list is wrong. */
  lemma {:induction false} LongWalk(g: Graph, s: set<Name>, m: Name, n: nat) returns (p: seq<Name>)
    requires Stuck(g, s) && m in s && n > 0
    ensures 1 <= |p| <= n && p[0] == m && Walk(g, p) && forall i :: 0 <= i < |p| ==> p[i] in s
    ensures |p| == n || Incomplete(g, p[|p| - 1])
    decreases n
  {
    hide Incomplete;
    assert HeldBack(g, s, m);
    if n == 1 || Incomplete(g, m) {
      return [m];
    }
    var d :| d in g[m] && d in s;
    var q := LongWalk(g, s, d, n - 1);
    WalkLonger(g, m, q);
    p := [m] + q;
  }

  lemma {:induction false} Pigeonhole(p: seq<Name>, s: set<Name>) returns (i: nat, j: nat)
    requires |p| > |s| && forall k :: 0 <= k < |p| ==> p[k] in s
    ensures i < j < |p| && p[i] == p[j]
    decreases |p|
  {
    j := |p| - 1;
    if k :| 0 <= k < j && p[k] == p[j] {
      i := k;
    } else {
      i, j := Pigeonhole(p[..j], s - {p[j]});
    }
  }

  /** Part of a walk is a walk. */
  lemma Stretch(g: Graph, p: seq<Name>, i: nat, j: nat)
    requires Walk(g, p) && i <= j < |p|
    ensures Walk(g, p[i..j + 1])
  {
    var c := p[i..j + 1];
    forall k | 0 <= k < |c| - 1 ensures Arc(g, c, k) {
      assert Arc(g, p, i + k);
    }
  }

  lemma StuckIsDoomed(g: Graph, s: set<Name>, m: Name)
    requires Stuck(g, s) && m in s
    ensures Doomed(g, m)
  {
    hide Walk, Stuck, Incomplete;
    var p := LongWalk(g, s, m, |s| + 1);
    if |p| == |s| + 1 {
      var i, j := Pigeonhole(p, s);
      Stretch(g, p, 0, i);
      Stretch(g, p, i, j);
      assert p[i..j + 1][0] == p[i] && p[0..i + 1][0] == m;
      assert OnCycle(g, p[i]) && Reaches(g, m, p[i]);
    } else {
      assert Reaches(g, m, p[|p| - 1]);
    }
  }

  // ----- the sort -----

  /** `list.remove`: the first occurrence goes. */
  function RemoveFirst(q: seq<Name>, x: Name): seq<Name> {
    if q == [] then [] else if q[0] == x then q[1..] else [q[0]] + RemoveFirst(q[1..], x)
  }

  lemma {:induction false} RemoveFirstCounts(q: seq<Name>, x: Name)
    ensures multiset(RemoveFirst(q, x)) == multiset(q) - multiset{x}
    decreases |q|
  {
    if q != [] {
      assert q == [q[0]] + q[1..];
      if q[0] != x {
        RemoveFirstCounts(q[1..], x);
      }
    }
  }

  lemma Joined(a: seq<Name>, b: seq<Name>)
    requires Distinct(a) && Distinct(b) && forall n :: n in a ==> n !in b
    ensures Distinct(a + b)
  {
    var c := a + b;
    forall i, j | 0 <= i < j < |c| ensures c[i] != c[j] {
      if i < |a| <= j {
        assert c[i] in a && c[j] in b;
      }
    }
  }

  /** How far the sort has come: `sorted` is done, `start` can follow, `dep` still waits. */
  ghost predicate Partition(g: Graph, start: seq<Name>, dep: seq<Name>, sorted: seq<Name>) {
    && Distinct(start) && Distinct(dep) && Distinct(sorted)
    && (forall n :: n in g <==> n in start || n in dep || n in sorted)
    && (forall n :: n in start ==> n !in dep && n !in sorted)
    && (forall n :: n in dep ==> n !in sorted)
  }

  /** Each name that has been sorted has been struck out once. */
  ghost predicate StruckOut(g: Graph, left: Graph, dep: seq<Name>, sorted: seq<Name>) {
    left.Keys == g.Keys && forall m :: m in dep && m in g ==> multiset(left[m]) == multiset(g[m]) - multiset(sorted)
  }

  ghost predicate Met(g: Graph, m: Name, sorted: seq<Name>) {
    m in g && multiset(g[m]) <= multiset(sorted)
  }

  ghost predicate AllMet(g: Graph, start: seq<Name>, sorted: seq<Name>) {
    && (forall m :: m in start ==> Met(g, m, sorted))
    && (forall i :: 0 <= i < |sorted| ==> Met(g, sorted[i], sorted[..i]))
  }

  lemma OnceEach(q: seq<Name>)
    requires Distinct(q)
    ensures forall n :: multiset(q)[n] <= 1
    decreases |q|
  {
    if q != [] {
      assert q == [q[0]] + q[1..];
      OnceEach(q[1..]);
    }
  }

  lemma {:induction false} Twice(q: seq<Name>, i: nat, j: nat)
    requires i < j < |q| && q[i] == q[j]
    ensures multiset(q)[q[i]] >= 2
  {
    assert q == q[..j] + [q[j]] + q[j + 1..];
    assert q[i] in q[..j];
  }

  /** What has been sorted is the beginning of an order. */
  lemma SortedIsSettled(g: Graph, start: seq<Name>, sorted: seq<Name>)
    requires Distinct(sorted) && AllMet(g, start, sorted)
    ensures Settled(g, sorted)
  {
    hide Distinct, Met;
    forall i | 0 <= i < |sorted| ensures SettledAt(g, sorted, i) {
      MetBy(g, sorted[i], sorted[..i]);
      Prefix(sorted, i);
      MetOnce(g, sorted[i], sorted[..i]);
    }
  }

  /** When nothing waits any more, the result is an order. */
  lemma DoneIsOrder(g: Graph, sorted: seq<Name>)
    requires Partition(g, [], [], sorted) && AllMet(g, [], sorted)
    ensures IsOrder(g, sorted)
  {
    hide AllMet, Distinct;
    SortedIsSettled(g, [], sorted);
    forall i | 0 <= i < |sorted| ensures sorted[i] in g && forall d :: d in g[sorted[i]] ==> d in sorted[..i] {
      assert SettledAt(g, sorted, i);
    }
  }

  lemma MetBy(g: Graph, m: Name, q: seq<Name>)
    requires Met(g, m, q)
    ensures m in g && forall d :: d in g[m] ==> d in q
  {
    forall d | d in g[m] ensures d in q {
      assert d in multiset(g[m]) && d in multiset(q);
    }
  }

  lemma MetOnce(g: Graph, m: Name, q: seq<Name>)
    requires Met(g, m, q) && Distinct(q)
    ensures Distinct(g[m])
  {
    hide Distinct;
    OnceEach(q);
    if !Distinct(g[m]) {
      var j, k := SomePair(g[m]);
      Twice(g[m], j, k);
      assert false;
    }
  }

  lemma SomePair(q: seq<Name>) returns (j: nat, k: nat)
    requires !Distinct(q)
    ensures j < k < |q| && q[j] == q[k]
  {
    j, k :| 0 <= j < k < |q| && q[j] == q[k];
  }

  lemma Prefix(q: seq<Name>, i: nat)
    requires Distinct(q) && i <= |q|
    ensures Distinct(q[..i])
  {
  }

  /** When nothing can follow, what still waits is stuck. */
  lemma WaitingIsStuck(g: Graph, left: Graph, dep: seq<Name>, sorted: seq<Name>)
    requires Partition(g, [], dep, sorted) && StruckOut(g, left, dep, sorted)
    requires forall m :: m in dep && m in left ==> left[m] != []
    ensures Stuck(g, (set m | m in dep))
  {
    var s := set m | m in dep;
    forall m | m in s ensures HeldBack(g, s, m) {
      var d := left[m][0];
      assert d in multiset(left[m]);
      assert d in multiset(g[m]);
      if d in sorted {
        assert multiset(g[m])[d] >= 2;
        NotOnce(g[m], d);
      } else if d in g {
        assert d in g[m] && d in s;
      }
    }
  }

  lemma NotOnce(q: seq<Name>, d: Name)
    requires multiset(q)[d] >= 2
    ensures !Distinct(q)
  {
    if Distinct(q) {
      OnceEach(q);
    }
  }

  /** So the modules that are left are those that are doomed. */
  lemma LeftIsDoomed(g: Graph, left: Graph, dep: seq<Name>, sorted: seq<Name>)
    requires Partition(g, [], dep, sorted) && StruckOut(g, left, dep, sorted) && AllMet(g, [], sorted)
    requires forall m :: m in dep && m in left ==> left[m] != []
    ensures forall m :: m in dep <==> m in g && Doomed(g, m)
  {
    hide Doomed, Stuck, Settled, StruckOut, AllMet;
    WaitingIsStuck(g, left, dep, sorted);
    SortedIsSettled(g, [], sorted);
    forall m | m in dep ensures Doomed(g, m) {
      StuckIsDoomed(g, (set x | x in dep), m);
    }
    forall m | m in sorted ensures !Doomed(g, m) {
      var a :| 0 <= a < |sorted| && sorted[a] == m;
      SettledIsSafe(g, sorted, a);
    }
  }

  // ----- the source's loops -----

  function Struck(q: seq<Name>, x: Name): seq<Name> {
    if x in q then RemoveFirst(q, x) else q
  }

  lemma StruckCounts(q: seq<Name>, x: Name)
    ensures multiset(Struck(q, x)) == multiset(q) - multiset{x}
  {
    if x in q {
      RemoveFirstCounts(q, x);
    } else {
      assert x !in multiset(q);
    }
  }

  /** Striking a sorted name out of the lists of those that wait: the inner loop. */
  method StrikeOut(node: Name, dep: seq<Name>, depends: Graph) returns (depends': Graph, freed: seq<Name>)
    requires Distinct(dep) && forall m :: m in dep ==> m in depends && depends[m] != []
    ensures depends'.Keys == depends.Keys && forall m :: m in dep ==> depends'[m] == Struck(depends[m], node)
    ensures Distinct(freed) && forall m :: m in freed <==> m in dep && m in depends' && depends'[m] == []
  {
    hide RemoveFirst, Distinct;
    Prefix(dep, 0);
    assert dep[..0] == [];
    depends', freed := depends, [];
    var k := 0;
    while k < |dep|
      invariant k <= |dep| && depends'.Keys == depends.Keys
      invariant forall m :: m in depends ==> depends'[m] == if m in dep[..k] then Struck(depends[m], node) else depends[m]
      invariant Distinct(freed) && forall m :: m in freed <==> m in dep[..k] && m in depends && depends'[m] == []
    {
      var m := dep[k];
      assert dep[..k + 1] == dep[..k] + [m];
      NotBefore(dep, k);
      if node in depends'[m] {
        depends' := depends'[m := RemoveFirst(depends'[m], node)];
        if depends'[m] == [] {
          Append(freed, m);
          freed := freed + [m];
        }
      }
      k := k + 1;
    }
    assert dep[..k] == dep;
  }

  lemma NotBefore(q: seq<Name>, k: nat)
    requires Distinct(q) && k < |q|
    ensures q[k] !in q[..k]
  {
  }

  lemma Append(q: seq<Name>, x: Name)
    requires Distinct(q) && x !in q
    ensures Distinct(q + [x])
  {
    Joined(q, [x]);
  }

  lemma StruckOutNext(g: Graph, left: Graph, left': Graph, dep: seq<Name>, sorted: seq<Name>, node: Name)
    requires StruckOut(g, left, dep, sorted) && left'.Keys == left.Keys
    requires forall m :: m in dep ==> m in g && m in left && left'[m] == Struck(left[m], node)
    ensures StruckOut(g, left', dep, sorted + [node])
  {
    hide Struck;
    assert multiset(sorted + [node]) == multiset(sorted) + multiset{node};
    forall m | m in dep ensures multiset(left'[m]) == multiset(g[m]) - multiset(sorted + [node]) {
      StruckCounts(left[m], node);
    }
  }

  /** Taking what has become free off the waiting list. */
  method RemoveAll(dep: seq<Name>, freed: seq<Name>) returns (dep': seq<Name>)
    requires Distinct(dep) && Distinct(freed) && forall m :: m in freed ==> m in dep
    ensures Distinct(dep') && |dep'| == |dep| - |freed|
    ensures forall m :: m in dep' <==> m in dep && m !in freed
  {
    hide RemoveFirst;
    dep' := dep;
    var k := 0;
    while k < |freed|
      invariant k <= |freed| && Distinct(dep') && |dep'| == |dep| - k
      invariant forall m :: m in dep' <==> m in dep && m !in freed[..k]
    {
      assert freed[..k + 1] == freed[..k] + [freed[k]];
      RemoveDistinct(dep', freed[k]);
      dep' := RemoveFirst(dep', freed[k]);
      k := k + 1;
    }
    assert freed[..k] == freed;
  }

  lemma {:induction false} RemoveDistinct(q: seq<Name>, x: Name)
    requires Distinct(q) && x in q
    ensures Distinct(RemoveFirst(q, x)) && |RemoveFirst(q, x)| == |q| - 1
    ensures forall m :: m in RemoveFirst(q, x) <==> m in q && m != x
    decreases |q|
  {
    assert q == [q[0]] + q[1..];
    if q[0] == x {
      forall m | m in q && m != x ensures m in q[1..] {
      }
    } else {
      RemoveDistinct(q[1..], x);
      Joined([q[0]], RemoveFirst(q[1..], x));
    }
  }

  datatype Result = Sorted(order: seq<Name>) | Unmet(modules: seq<Name>, depends: Graph)

  /** The topological sort: it ends with an order exactly if there is nothing in the way. */
  method Sort(names: seq<Name>, g: Graph) returns (result: Result)
    requires Distinct(names) && forall n :: n in names <==> n in g
    ensures result.Sorted? <==> !Missing(g) && !Repeats(g) && !Cyclic(g)
    ensures result.Sorted? ==> IsOrder(g, result.order)
    ensures result.Unmet? ==> forall m :: m in result.modules <==> m in g && Doomed(g, m)
    ensures result.Unmet? ==> forall m :: m in result.modules ==> m in result.depends && result.depends[m] != []
  {
    hide Missing, Repeats, Cyclic, Doomed, IsOrder;
    var start, dep, sorted: seq<Name> := [], [], [];
    var depends := g;
    var k := 0;
    while k < |names|
      invariant k <= |names| && Distinct(start) && Distinct(dep)
      invariant forall n :: n in names[..k] <==> n in start || n in dep
      invariant forall n :: n in start ==> n in g && g[n] == [] && n !in dep
      invariant forall n :: n in dep ==> n in g && g[n] != []
    {
      assert names[..k + 1] == names[..k] + [names[k]];
      if g[names[k]] == [] {
        start := start + [names[k]];
      } else {
        dep := dep + [names[k]];
      }
      k := k + 1;
    }
    assert names[..k] == names;
    while start != []
      invariant Partition(g, start, dep, sorted) && StruckOut(g, depends, dep, sorted) && AllMet(g, start, sorted)
      invariant forall m :: m in dep && m in depends ==> depends[m] != []
      decreases |start| + |dep|
    {
      ghost var start0, dep0 := start, dep;
      var node := start[0];
      start := start[1..];
      assert start0 == [node] + start;
      var freed: seq<Name>;
      ghost var left := depends;
      depends, freed := StrikeOut(node, dep, depends);
      StruckOutNext(g, left, depends, dep, sorted, node);
      dep := RemoveAll(dep, freed);
      NextRound(g, start0, dep0, sorted, freed, dep);
      NextMet(g, start0, dep0, sorted, depends, freed);
      sorted := sorted + [node];
      start := start + freed;
    }
    LeftIsDoomed(g, depends, dep, sorted);
    SomeoneDoomed(g);
    if dep != [] {
      assert dep[0] in dep;
      return Unmet(dep, depends);
    }
    DoneIsOrder(g, sorted);
    return Sorted(sorted);
  }

  lemma NextRound(g: Graph, start: seq<Name>, dep: seq<Name>, sorted: seq<Name>, freed: seq<Name>, dep': seq<Name>)
    requires start != [] && Partition(g, start, dep, sorted) && Distinct(freed) && Distinct(dep')
    requires forall m :: m in freed ==> m in dep
    requires forall m :: m in dep' <==> m in dep && m !in freed
    ensures Partition(g, start[1..] + freed, dep', sorted + [start[0]])
  {
    hide Distinct;
    FirstApart(start);
    Joined(start[1..], freed);
    Append(sorted, start[0]);
  }

  lemma FirstApart(q: seq<Name>)
    requires q != [] && Distinct(q)
    ensures Distinct(q[1..]) && forall n :: n in q <==> n == q[0] || n in q[1..]
    ensures q[0] !in q[1..]
  {
    assert q == [q[0]] + q[1..];
  }

  lemma NextMet(g: Graph, start: seq<Name>, dep: seq<Name>, sorted: seq<Name>, depends: Graph, freed: seq<Name>)
    requires start != [] && AllMet(g, start, sorted) && StruckOut(g, depends, dep, sorted + [start[0]])
    requires forall m :: m in freed ==> m in dep && m in g && m in depends && depends[m] == []
    ensures AllMet(g, start[1..] + freed, sorted + [start[0]])
  {
    var node := start[0];
    var sorted' := sorted + [node];
    assert multiset(sorted') == multiset(sorted) + multiset{node};
    forall m | m in start[1..] ensures Met(g, m, sorted') {
      assert m in start && Met(g, m, sorted);
    }
    forall m | m in freed ensures Met(g, m, sorted') {
      assert multiset(depends[m]) == multiset(g[m]) - multiset(sorted');
    }
    forall i | 0 <= i < |sorted'| ensures Met(g, sorted'[i], sorted'[..i]) {
      if i < |sorted| {
        assert sorted'[..i] == sorted[..i] && Met(g, sorted[i], sorted[..i]);
      } else {
        assert sorted'[..i] == sorted && node in start;
      }
    }
  }
}
