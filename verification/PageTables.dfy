/**
 The x86 page-table builder (arch/x86/gen_mmu.py). A radix tree of tables, filled one
 4 KB page at a time, is proved to implement a flat map from virtual pages to entries.

 Addresses are counted in pages of 4096 bytes. An entry is kept as its frame number and
 its flags; `PackWord` shows that packing the two into one word loses neither.
 */
module PageTables {
  import opened Arithmetic
  import opened Options

  type Positive = n: int | n > 0 witness 1

  datatype Flag = P | RW | US | CD | SZ | G | XD | Ignored0 | Ignored1 | Ignored2

  datatype Entry = Entry(frame: nat, flags: set<Flag>)

  const EMPTY: Entry := Entry(0, {})
  const INT_FLAGS: set<Flag> := {P, RW, US}

  /** A table class: number of entries, how many frame numbers its address mask can
      hold, and the flags it supports. */
  datatype Level = Level(num: Positive, frames: Positive, flags: set<Flag>)

  /** The paging levels, the top-level table first. */
  type Format = seq<Level>

  type Table = seq<Entry>

  /** Combining an address and flags with disjoint masks, as `MMUTable.map` does, keeps
      both parts readable. */
  lemma PackWord(phys: bv64, flags: bv64, mask: bv64, supported: bv64)
    requires mask & supported == 0
    ensures ((phys & mask) | (flags & supported)) & mask == phys & mask
    ensures ((phys & mask) | (flags & supported)) & supported == flags & supported
  {
  }

  // ----- radix arithmetic -----

  /** Pages covered by the tables from level `l` down. */
  function Span(fmt: Format, l: nat): Positive
    requires l <= |fmt|
    decreases |fmt| - l
  {
    if l == |fmt| then 1 else Times(fmt[l].num, Span(fmt, l + 1))
  }

  function Times(a: Positive, b: Positive): Positive {
    a * b
  }

  /** `MMUTable.entry_index`. */
  function Index(fmt: Format, l: nat, page: nat): (i: nat)
    requires l < |fmt|
    ensures i < fmt[l].num
  {
    page / Span(fmt, l + 1) % fmt[l].num
  }

  function Path(fmt: Format, page: nat): (p: seq<nat>)
    ensures |p| == |fmt|
  {
    seq(|fmt|, l requires 0 <= l < |fmt| => Index(fmt, l, page))
  }

  lemma Regroup(a: int, b: int, q: int, i: int, n: int, d: int)
    requires a == q * n + i
    ensures a * d + b == q * (n * d) + (i * d + b)
  {
    assert a * d == (q * n) * d + i * d;
  }

  lemma TwoDigits(i: nat, b: nat, n: Positive, d: Positive)
    requires i < n && b < d
    ensures 0 <= i * d + b < n * d
  {
    MulAtLeast(n - i, d);
    assert (n - i) * d == n * d - i * d;
  }

  lemma ModSplit(x: nat, n: Positive, d: Positive)
    ensures x % Times(n, d) == (x / d % n) * d + x % d
  {
    var a, b := x / d, x % d;
    var q, i := a / n, a % n;
    Regroup(a, b, q, i, n, d);
    TwoDigits(i, b, n, d);
    Quotient(x, q, i * d + b, n * d);
  }

  lemma DigitsUnique(i: nat, b: nat, j: nat, c: nat, d: Positive)
    requires b < d && c < d
    ensures i * d + b == j * d + c <==> i == j && b == c
  {
    if i * d + b == j * d + c {
      Quotient(i * d + b, i, b, d);
      Quotient(j * d + c, j, c, d);
    }
  }

  /** The indices at the levels from `l` down tell a page up to multiples of their span. */
  lemma {:induction false} PathDetermines(fmt: Format, l: nat, v: nat, w: nat)
    requires l <= |fmt|
    ensures (forall k :: l <= k < |fmt| ==> Index(fmt, k, v) == Index(fmt, k, w)) <==> v % Span(fmt, l) == w % Span(fmt, l)
    decreases |fmt| - l
  {
    if l < |fmt| {
      PathDetermines(fmt, l + 1, v, w);
      var n, d := fmt[l].num, Span(fmt, l + 1);
      ModSplit(v, n, d);
      ModSplit(w, n, d);
      DigitsUnique(Index(fmt, l, v), v % d, Index(fmt, l, w), w % d, d);
    }
  }

  /** The index at a level is the digit of the page number at that level. */
  lemma IndexIsDigit(fmt: Format, l: nat, page: nat)
    requires l < |fmt|
    ensures page % Span(fmt, l) == Index(fmt, l, page) * Span(fmt, l + 1) + page % Span(fmt, l + 1)
    ensures l == 0 && page < Span(fmt, 0) ==> Index(fmt, 0, page) == page / Span(fmt, 1)
  {
    ModSplit(page, fmt[l].num, Span(fmt, l + 1));
    if l == 0 && page < Span(fmt, 0) {
      Small(page, Span(fmt, 0));
      Quotient(page, Index(fmt, 0, page), page % Span(fmt, 1), Span(fmt, 1));
    }
  }

  lemma PathEqual(fmt: Format, v: nat, w: nat)
    ensures Path(fmt, v) == Path(fmt, w) <==> v % Span(fmt, 0) == w % Span(fmt, 0)
  {
    hide Index, Span;
    PathDetermines(fmt, 0, v, w);
    if Path(fmt, v) == Path(fmt, w) {
      forall k | 0 <= k < |fmt| ensures Index(fmt, k, v) == Index(fmt, k, w) {
        assert Path(fmt, v)[k] == Path(fmt, w)[k];
      }
    }
  }

  // ----- the tree of tables -----

  /** The top-level table, and the others by their physical address. */
  datatype Tree = Tree(top: Table, tables: map<nat, Table>)

  /** The index path that leads to each table, with the table's address. */
  type Places = map<seq<nat>, nat>

  function TableAt(t: Tree, where: Places, p: seq<nat>): Table {
    if p == [] then t.top
    else if p in where && where[p] in t.tables then t.tables[where[p]] else []
  }

  ghost predicate Known(where: Places, p: seq<nat>) {
    p == [] || p in where
  }

  /** A table has the size of its level, and its present entries lead to exactly the
      tables below it and restrict no access. */
  ghost predicate NodeOk(fmt: Format, t: Tree, where: Places, p: seq<nat>)
    requires |p| < |fmt|
  {
    var table := TableAt(t, where, p);
    && |table| == fmt[|p|].num
    && (|p| + 1 < |fmt| ==>
          forall i :: 0 <= i < |table| ==>
            && (P in table[i].flags <==> p + [i] in where)
            && (P in table[i].flags ==> table[i].frame == where[p + [i]] && fmt[|p|].flags * {RW, US} <= table[i].flags))
  }

  ghost predicate PlaceOk(fmt: Format, t: Tree, where: Places, p: seq<nat>)
    requires p in where
  {
    0 < |p| < |fmt| && where[p] in t.tables && Known(where, p[..|p| - 1])
  }

  /** Every table has one place, and so one parent slot; places are closed under prefixes. */
  ghost predicate TreeOk(fmt: Format, t: Tree, where: Places) {
    && (forall p :: p in where ==> PlaceOk(fmt, t, where, p))
    && (forall p, q :: p in where && q in where && where[p] == where[q] ==> p == q)
    && (forall p :: Known(where, p) && |p| < |fmt| ==> NodeOk(fmt, t, where, p))
  }

  /** What the processor finds for a page, starting with `table` at level `l`. */
  function Walk(fmt: Format, t: Tree, table: Table, l: nat, page: nat): Option<Entry>
    requires l < |fmt|
    decreases |fmt| - l
  {
    var i := Index(fmt, l, page);
    if i >= |table| || P !in table[i].flags then None
    else if l == |fmt| - 1 then Some(table[i])
    else if table[i].frame !in t.tables then None
    else Walk(fmt, t, t.tables[table[i].frame], l + 1, page)
  }

  function Translate(fmt: Format, t: Tree, page: nat): Option<Entry>
    requires |fmt| > 0
  {
    Walk(fmt, t, t.top, 0, page)
  }

  /** The leaf entry for a path, looked up by place instead of by walking. */
  function Leaf(t: Tree, where: Places, path: seq<nat>): Option<Entry>
    requires path != []
  {
    var n := |path| - 1;
    var table := TableAt(t, where, path[..n]);
    if path[n] < |table| && P in table[path[n]].flags then Some(table[path[n]]) else None
  }

  lemma NodeIs(fmt: Format, t: Tree, where: Places, p: seq<nat>)
    requires TreeOk(fmt, t, where) && Known(where, p) && |p| < |fmt|
    ensures NodeOk(fmt, t, where, p)
  {
  }

  lemma PlaceIs(fmt: Format, t: Tree, where: Places, p: seq<nat>)
    requires TreeOk(fmt, t, where) && p in where
    ensures PlaceOk(fmt, t, where, p)
  {
  }

  lemma {:induction false} PrefixKnown(fmt: Format, t: Tree, where: Places, p: seq<nat>, k: nat)
    requires TreeOk(fmt, t, where) && Known(where, p) && k <= |p|
    ensures Known(where, p[..k])
    decreases |p| - k
  {
    hide TreeOk;
    if k < |p| {
      PlaceIs(fmt, t, where, p);
      PrefixKnown(fmt, t, where, p[..|p| - 1], k);
      assert p[..|p| - 1][..k] == p[..k];
    } else {
      assert p[..k] == p;
    }
  }

  /** Walking finds the leaf entry of the page's path. */
  lemma {:induction false} WalkIsLeaf(fmt: Format, t: Tree, where: Places, l: nat, page: nat)
    requires TreeOk(fmt, t, where) && l < |fmt| && Known(where, Path(fmt, page)[..l])
    ensures Walk(fmt, t, TableAt(t, where, Path(fmt, page)[..l]), l, page) == Leaf(t, where, Path(fmt, page))
    decreases |fmt| - l
  {
    hide Index, TreeOk;
    var path := Path(fmt, page);
    var p := path[..l];
    var table := TableAt(t, where, p);
    var i := Index(fmt, l, page);
    NodeIs(fmt, t, where, p);
    assert path[l] == i && path[..l + 1] == p + [i];
    if l + 1 < |fmt| {
      var n := |fmt| - 1;
      if P in table[i].flags {
        PlaceIs(fmt, t, where, p + [i]);
        WalkIsLeaf(fmt, t, where, l + 1, page);
      } else {
        assert path[..n][..l + 1] == path[..l + 1];
        if path[..n] in where {
          PrefixKnown(fmt, t, where, path[..n], l + 1);
        }
      }
    }
  }

  /** Writing one entry of the table at a place. */
  function SetEntry(t: Tree, where: Places, p: seq<nat>, i: nat, e: Entry): Tree
    requires i < |TableAt(t, where, p)|
  {
    if p == [] then t.(top := t.top[i := e])
    else t.(tables := t.tables[where[p] := t.tables[where[p]][i := e]])
  }

  lemma SetEntryTables(fmt: Format, t: Tree, where: Places, p: seq<nat>, i: nat, e: Entry, q: seq<nat>)
    requires TreeOk(fmt, t, where) && Known(where, p) && i < |TableAt(t, where, p)| && Known(where, q)
    ensures TableAt(SetEntry(t, where, p, i, e), where, q)
         == if q == p then TableAt(t, where, p)[i := e] else TableAt(t, where, q)
  {
  }

  /** Filling in a leaf entry changes the translation of its own path only. */
  lemma LeafSet(fmt: Format, t: Tree, where: Places, p: seq<nat>, i: nat, e: Entry, path: seq<nat>)
    requires TreeOk(fmt, t, where) && Known(where, p) && |p| + 1 == |fmt| == |path| && i < |TableAt(t, where, p)|
    ensures Leaf(SetEntry(t, where, p, i, e), where, path)
         == if path == p + [i] then (if P in e.flags then Some(e) else None) else Leaf(t, where, path)
  {
    hide TreeOk, SetEntry;
    var n := |path| - 1;
    assert path == path[..n] + [path[n]];
    if Known(where, path[..n]) {
      SetEntryTables(fmt, t, where, p, i, e, path[..n]);
    }
  }

  lemma SetEntryPlace(fmt: Format, t: Tree, where: Places, p: seq<nat>, i: nat, e: Entry, q: seq<nat>)
    requires TreeOk(fmt, t, where) && Known(where, p) && i < |TableAt(t, where, p)| && q in where
    ensures PlaceOk(fmt, SetEntry(t, where, p, i, e), where, q)
  {
    hide TreeOk;
    PlaceIs(fmt, t, where, q);
  }

  lemma LeafSetOk(fmt: Format, t: Tree, where: Places, p: seq<nat>, i: nat, e: Entry)
    requires TreeOk(fmt, t, where) && Known(where, p) && |p| + 1 == |fmt| && i < |TableAt(t, where, p)|
    ensures TreeOk(fmt, SetEntry(t, where, p, i, e), where)
  {
    hide NodeOk, PlaceOk;
    var t' := SetEntry(t, where, p, i, e);
    forall q | q in where ensures PlaceOk(fmt, t', where, q) {
      SetEntryPlace(fmt, t, where, p, i, e, q);
    }
    forall q | Known(where, q) && |q| < |fmt| ensures NodeOk(fmt, t', where, q) {
      NodeSame(fmt, t, t', where, p, i, e, q);
    }
  }

  lemma NodeSame(fmt: Format, t: Tree, t': Tree, where: Places, p: seq<nat>, i: nat, e: Entry, q: seq<nat>)
    requires TreeOk(fmt, t, where) && Known(where, p) && |p| + 1 == |fmt| && i < |TableAt(t, where, p)|
    requires Known(where, q) && |q| < |fmt| && t' == SetEntry(t, where, p, i, e)
    ensures NodeOk(fmt, t', where, q)
  {
    hide TreeOk, SetEntry;
    NodeIs(fmt, t, where, q);
    SetEntryTables(fmt, t, where, p, i, e, q);
  }

  function BlankTable(n: nat): Table {
    seq(n, _ => EMPTY)
  }

  /** `PtableSet.new_child_table`: an empty table at a fresh address, linked in. */
  function NewChild(fmt: Format, t: Tree, where: Places, p: seq<nat>, i: nat, a: nat, e: Entry): Tree
    requires |p| + 1 < |fmt| && i < |TableAt(t, where, p)|
  {
    var t' := SetEntry(t, where, p, i, e);
    t'.(tables := t'.tables[a := BlankTable(fmt[|p| + 1].num)])
  }

  ghost predicate CanLink(fmt: Format, t: Tree, where: Places, p: seq<nat>, i: nat, a: nat, e: Entry) {
    && TreeOk(fmt, t, where) && Known(where, p) && |p| + 1 < |fmt| && i < |TableAt(t, where, p)|
    && p + [i] !in where && a !in t.tables && e.frame == a && P in e.flags && fmt[|p|].flags * {RW, US} <= e.flags
  }

  lemma NewChildTables(fmt: Format, t: Tree, where: Places, p: seq<nat>, i: nat, a: nat, e: Entry, q: seq<nat>)
    requires CanLink(fmt, t, where, p, i, a, e) && Known(where[p + [i] := a], q)
    ensures TableAt(NewChild(fmt, t, where, p, i, a, e), where[p + [i] := a], q)
         == if q == p + [i] then BlankTable(fmt[|p| + 1].num)
            else if q == p then TableAt(t, where, p)[i := e] else TableAt(t, where, q)
  {
  }

  /** Linking in an empty table changes no translation. */
  lemma NewChildLeaf(fmt: Format, t: Tree, where: Places, p: seq<nat>, i: nat, a: nat, e: Entry, path: seq<nat>)
    requires CanLink(fmt, t, where, p, i, a, e) && |path| == |fmt|
    ensures Leaf(NewChild(fmt, t, where, p, i, a, e), where[p + [i] := a], path) == Leaf(t, where, path)
  {
    hide TreeOk, NewChild;
    var n := |path| - 1;
    var q := path[..n];
    if Known(where[p + [i] := a], q) {
      NewChildTables(fmt, t, where, p, i, a, e, q);
    }
  }

  lemma NewChildNode(fmt: Format, t: Tree, where: Places, p: seq<nat>, i: nat, a: nat, e: Entry, q: seq<nat>)
    requires CanLink(fmt, t, where, p, i, a, e) && Known(where[p + [i] := a], q) && |q| < |fmt|
    ensures NodeOk(fmt, NewChild(fmt, t, where, p, i, a, e), where[p + [i] := a], q)
  {
    hide TreeOk, NewChild;
    NewChildTables(fmt, t, where, p, i, a, e, q);
    var where' := where[p + [i] := a];
    if q == p + [i] {
      forall j ensures q + [j] !in where' {
        assert (q + [j])[..|q|] == q;
        if q + [j] in where { PlaceIs(fmt, t, where, q + [j]); }
      }
    } else {
      NodeIs(fmt, t, where, q);
      assert forall j :: q + [j] == p + [i] ==> q == p && j == i by {
        forall j | q + [j] == p + [i] ensures q == p && j == i {
          assert (q + [j])[..|q|] == q && (p + [i])[..|p|] == p;
        }
      }
    }
  }

  lemma PlaceTable(fmt: Format, t: Tree, where: Places, q: seq<nat>)
    requires TreeOk(fmt, t, where) && q in where
    ensures where[q] in t.tables
  {
    PlaceIs(fmt, t, where, q);
  }

  lemma NewChildPlace(fmt: Format, t: Tree, where: Places, p: seq<nat>, i: nat, a: nat, e: Entry, q: seq<nat>)
    requires CanLink(fmt, t, where, p, i, a, e) && q in where[p + [i] := a]
    ensures PlaceOk(fmt, NewChild(fmt, t, where, p, i, a, e), where[p + [i] := a], q)
  {
    hide TreeOk;
    if q == p + [i] {
      assert q[..|q| - 1] == p;
    } else {
      PlaceIs(fmt, t, where, q);
    }
    if p != [] { PlaceIs(fmt, t, where, p); }
  }

  lemma NewChildOk(fmt: Format, t: Tree, where: Places, p: seq<nat>, i: nat, a: nat, e: Entry)
    requires CanLink(fmt, t, where, p, i, a, e)
    ensures TreeOk(fmt, NewChild(fmt, t, where, p, i, a, e), where[p + [i] := a])
  {
    hide NodeOk, PlaceOk;
    var t', where' := NewChild(fmt, t, where, p, i, a, e), where[p + [i] := a];
    forall q | q in where' ensures PlaceOk(fmt, t', where', q) {
      NewChildPlace(fmt, t, where, p, i, a, e, q);
    }
    forall q | q in where ensures where[q] != a {
      PlaceTable(fmt, t, where, q);
    }
    forall q | Known(where', q) && |q| < |fmt| ensures NodeOk(fmt, t', where', q) {
      NewChildNode(fmt, t, where, p, i, a, e, q);
    }
  }

  /** `MMUTable.map`: the address and the supported flags. */
  function MakeEntry(level: Level, frame: nat, flags: set<Flag>): Entry {
    Entry(frame % level.frames, flags * level.flags)
  }

  /** What links a table in leads to it and restricts no access. */
  lemma LinkEntry(level: Level, a: nat)
    requires a < level.frames && P in level.flags
    ensures var e := MakeEntry(level, a, INT_FLAGS); e.frame == a && P in e.flags && level.flags * {RW, US} <= e.flags
  {
    Small(a, level.frames);
  }

  function Visible(e: Entry): Option<Entry> {
    if P in e.flags then Some(e) else None
  }

  /** Two trees translate every path alike. */
  ghost predicate SameLeaves(n: nat, t: Tree, where: Places, t': Tree, where': Places)
    requires n > 0
  {
    forall path: seq<nat> :: |path| == n ==> Leaf(t', where', path) == Leaf(t, where, path)
  }

  lemma TranslateIs(fmt: Format, t: Tree, where: Places, page: nat)
    requires |fmt| > 0 && TreeOk(fmt, t, where)
    ensures Translate(fmt, t, page) == Leaf(t, where, Path(fmt, page))
  {
    WalkIsLeaf(fmt, t, where, 0, page);
  }

  /** What page `w` translates to after `n` pages from `phys` have been mapped, one after
      the other, at `virt`; `before` is what it translated to. Page 0 is left out of an
      identity mapping. */
  function AfterMap(fmt: Format, phys: nat, virt: nat, n: nat, identity: bool, flags: set<Flag>, w: nat, before: Option<Entry>): Option<Entry>
    requires |fmt| > 0
  {
    if n == 0 then before
    else if !(identity && phys + n - 1 == 0) && w % Span(fmt, 0) == (virt + n - 1) % Span(fmt, 0)
      then Visible(MakeEntry(fmt[|fmt| - 1], phys + n - 1, flags))
    else AfterMap(fmt, phys, virt, n - 1, identity, flags, w, before)
  }

  /** What a page mapped to `frame` translates to: nothing unless it is to be present; else
      that frame, as far as the address mask goes, with the flags asked for and supported. */
  ghost predicate Wanted(level: Level, frame: nat, flags: set<Flag>, r: Option<Entry>) {
    && (r.Some? <==> P in flags && P in level.flags)
    && (r.Some? ==> (frame < level.frames ==> r.value.frame == frame) && (r.value.frame - frame) % level.frames == 0)
    && (r.Some? ==> r.value.frame < level.frames && forall f :: f in r.value.flags <==> f in flags && f in level.flags)
  }

  lemma EntryWanted(level: Level, frame: nat, flags: set<Flag>)
    ensures Wanted(level, frame, flags, Visible(MakeEntry(level, frame, flags)))
  {
    var n := level.frames;
    assert frame == frame / n * n + frame % n;
    Quotient(frame % n - frame, -(frame / n), 0, n);
    if frame < n { Small(frame, n); }
  }

  /** The table entries on the way to a page let every access pass that their format knows. */
  lemma WayAllows(fmt: Format, t: Tree, where: Places, page: nat, l: nat)
    requires TreeOk(fmt, t, where) && l + 1 < |fmt| && Known(where, Path(fmt, page)[..l + 1])
    ensures var table := TableAt(t, where, Path(fmt, page)[..l]); var i := Index(fmt, l, page);
      i < |table| && P in table[i].flags && fmt[l].flags * {RW, US} <= table[i].flags
  {
    hide TreeOk, Index;
    var path := Path(fmt, page);
    PrefixKnown(fmt, t, where, path[..l + 1], l);
    assert path[..l + 1][..l] == path[..l] && path[..l + 1] == path[..l] + [Index(fmt, l, page)];
    NodeIs(fmt, t, where, path[..l]);
  }

  /** Within the address space that is: the requested frame and the supported flags for
      every page in range except an identity-mapped page 0, and no change elsewhere. */
  lemma {:induction false} AfterMapExact(fmt: Format, phys: nat, virt: nat, n: nat, identity: bool, flags: set<Flag>, w: nat, before: Option<Entry>)
    requires |fmt| > 0 && virt + n <= Span(fmt, 0) && w < Span(fmt, 0)
    ensures var r := AfterMap(fmt, phys, virt, n, identity, flags, w, before);
      if virt <= w < virt + n && !(identity && phys + (w - virt) == 0)
      then Wanted(fmt[|fmt| - 1], phys + (w - virt), flags, r) else r == before
  {
    hide Wanted, MakeEntry;
    if n > 0 {
      EntryWanted(fmt[|fmt| - 1], phys + n - 1, flags);
      Small(w, Span(fmt, 0));
      Small(virt + n - 1, Span(fmt, 0));
      AfterMapExact(fmt, phys, virt, n - 1, identity, flags, w, before);
    }
  }

  lemma Small(x: nat, d: Positive)
    requires x < d
    ensures x % d == x
  {
  }

  const PD_FLAGS: set<Flag> := {P, RW, US, SZ, CD}

  /** `Ptables32bit`: Pd, Pt. */
  const PTABLES_32BIT: Format := [
    Level(1024, 0x100000, PD_FLAGS),
    Level(1024, 0x100000, {P, RW, US, G, CD, Ignored0, Ignored1})]

  const PTXD: Level := Level(512, 0x8000_0000_0000, {P, RW, US, G, XD, CD, Ignored0, Ignored1, Ignored2})

  /** `PtablesPAE`: PdptPAE, PdXd, PtXd. */
  const PTABLES_PAE: Format := [
    Level(4, 0x8_0000_0000_0000, PD_FLAGS), Level(512, 0x8_0000_0000_0000, PD_FLAGS), PTXD]

  /** `PtablesIA32e`: Pml4, Pdpt, PdXd, PtXd. */
  const PTABLES_IA32E: Format := [
    Level(512, 0x8_0000_0000_0000, INT_FLAGS), Level(512, 0x8_0000_0000_0000, PD_FLAGS),
    Level(512, 0x8_0000_0000_0000, PD_FLAGS), PTXD]

  /** The spans are those of the shifts 22, 30, 21 and 39 less the 12 bits of a page, and
      the address spaces are of 32, 32 and 48 bits. */
  lemma FormatSpans()
    ensures Span(PTABLES_32BIT, 1) == 0x400 && Span(PTABLES_32BIT, 0) == 0x10_0000
    ensures Span(PTABLES_PAE, 2) == 0x200 && Span(PTABLES_PAE, 1) == 0x4_0000 && Span(PTABLES_PAE, 0) == 0x10_0000
    ensures Span(PTABLES_IA32E, 3) == 0x200 && Span(PTABLES_IA32E, 2) == 0x4_0000
    ensures Span(PTABLES_IA32E, 1) == 0x800_0000 && Span(PTABLES_IA32E, 0) == 0x10_0000_0000
  {
    assert Span(PTABLES_32BIT, 2) == 1;
    assert Span(PTABLES_PAE, 3) == 1;
    assert Span(PTABLES_IA32E, 4) == 1;
    assert Span(PTABLES_IA32E, 3) == 0x200;
    assert Span(PTABLES_IA32E, 2) == 0x4_0000;
  }

  lemma Steps(j: nat, k: nat)
    ensures (j + 1) * k == j * k + k && j * k >= 0
  {
  }

  lemma StepsMonotone(j: nat, n: nat, k: nat)
    requires j < n
    ensures (j + 1) * k <= n * k
  {
  }

  class PtableSet {
    const fmt: Format
    var toplevel: Table
    var tables: map<nat, Table>
    var pagePos: nat
    ghost var where: Places

    ghost function Abs(): Tree
      reads this
    {
      Tree(toplevel, tables)
    }

    ghost predicate Valid()
      reads this
    {
      && |fmt| >= 2 && (forall l :: 0 <= l < |fmt| - 1 ==> P in fmt[l].flags)
      && TreeOk(fmt, Abs(), where)
      && (forall a :: a in tables ==> a < pagePos)
    }

    /** The address mask of every table class can hold the next `n` table addresses. */
    ghost predicate Room(n: nat)
      reads this
    {
      forall l :: 0 <= l < |fmt| - 1 ==> pagePos + n <= fmt[l].frames
    }

    constructor (fmt: Format, pagesStart: nat)
      requires |fmt| >= 2 && (forall l :: 0 <= l < |fmt| - 1 ==> P in fmt[l].flags)
      ensures Valid() && this.fmt == fmt && pagePos == pagesStart
      ensures forall w: nat :: Translate(fmt, Abs(), w) == None
    {
      this.fmt := fmt;
      toplevel, tables, pagePos, where := BlankTable(fmt[0].num), map[], pagesStart, map[];
    }

    /** `PtableSet.new_child_table`, for entry `i` of the table at `key`. */
    method NewChildTable(key: Option<nat>, i: nat, depth: nat, ghost p: seq<nat>) returns (child: nat)
      requires Valid() && Room(1) && depth == |p| + 1 < |fmt|
      requires Known(where, p) && key == (if p == [] then None else Some(where[p]))
      requires i < |TableAt(Abs(), where, p)| && p + [i] !in where
      modifies this
      ensures Valid() && pagePos == old(pagePos) + 1
      ensures where == old(where)[p + [i] := child] && SameLeaves(|fmt|, old(Abs()), old(where), Abs(), where)
    {
      hide TreeOk, Leaf, MakeEntry;
      child := pagePos;
      var e := MakeEntry(fmt[depth - 1], child, INT_FLAGS);
      LinkEntry(fmt[depth - 1], child);
      NewChildOk(fmt, Abs(), where, p, i, child, e);
      forall path: seq<nat> | |path| == |fmt|
        ensures Leaf(NewChild(fmt, Abs(), where, p, i, child, e), where[p + [i] := child], path) == Leaf(Abs(), where, path)
      {
        NewChildLeaf(fmt, Abs(), where, p, i, child, e, path);
      }
      pagePos := pagePos + 1;
      if key == None {
        toplevel := toplevel[i := e];
      } else {
        PlaceIs(fmt, Abs(), where, p);
        tables := tables[key.value := tables[key.value][i := e]];
      }
      tables := tables[child := BlankTable(fmt[depth].num)];
      where := where[p + [i] := child];
      assert Abs() == NewChild(fmt, old(Abs()), old(where), p, i, child, e);
    }

    /** The walk of `map_page` that creates the missing tables on the way to a page. */
    method Descend(page: nat) returns (key: nat)
      requires Valid() && Room(|fmt| - 1)
      modifies this
      ensures Valid() && old(pagePos) <= pagePos <= old(pagePos) + |fmt| - 1
      ensures SameLeaves(|fmt|, old(Abs()), old(where), Abs(), where) && old(where).Keys <= where.Keys
      ensures var p := Path(fmt, page)[..|fmt| - 1]; p in where && key == where[p] && key in tables
    {
      hide TreeOk, Leaf, Index;
      ghost var path := Path(fmt, page);
      var at: Option<nat> := None;
      var depth := 1;
      while depth < |fmt|
        invariant 1 <= depth <= |fmt| && Valid()
        invariant Known(where, path[..depth - 1])
        invariant at == if depth == 1 then None else Some(where[path[..depth - 1]])
        invariant old(pagePos) <= pagePos <= old(pagePos) + depth - 1
        invariant SameLeaves(|fmt|, old(Abs()), old(where), Abs(), where) && old(where).Keys <= where.Keys
      {
        ghost var p := path[..depth - 1];
        NodeIs(fmt, Abs(), where, p);
        if p != [] { PlaceIs(fmt, Abs(), where, p); }
        var table := if at == None then toplevel else tables[at.value];
        var i := Index(fmt, depth - 1, page);
        assert path[..depth] == p + [i];
        if P !in table[i].flags {
          var child := NewChildTable(at, i, depth, p);
          at := Some(child);
        } else {
          at := Some(table[i].frame);
        }
        depth := depth + 1;
      }
      key := at.value;
      PlaceIs(fmt, Abs(), where, path[..|fmt| - 1]);
    }

    /** `PtableSet.map_page`. The tree behaves like a flat map: the page gets the entry
        asked for, every other page translates as before. */
    method MapPage(page: nat, frame: nat, flags: set<Flag>, reserve: bool)
      requires Valid() && Room(|fmt| - 1)
      modifies this
      ensures Valid() && old(pagePos) <= pagePos <= old(pagePos) + |fmt| - 1
      ensures forall w: nat ::
        Translate(fmt, Abs(), w) ==
          if !reserve && w % Span(fmt, 0) == page % Span(fmt, 0) then Visible(MakeEntry(fmt[|fmt| - 1], frame, flags))
          else old(Translate(fmt, Abs(), w))
      ensures !reserve ==> Wanted(fmt[|fmt| - 1], frame, flags, Translate(fmt, Abs(), page))
      ensures Path(fmt, page)[..|fmt| - 1] in where && old(where).Keys <= where.Keys
    {
      hide TreeOk, Leaf, Index, Span, Translate, Path, MakeEntry, Wanted;
      EntryWanted(fmt[|fmt| - 1], frame, flags);
      ghost var t0, where0 := Abs(), where;
      var key := Descend(page);
      ghost var t1, where1 := Abs(), where;
      ghost var path := Path(fmt, page);
      ghost var p := path[..|fmt| - 1];
      if !reserve {
        NodeIs(fmt, Abs(), where, p);
        IndexIs(page);
        var i := Index(fmt, |fmt| - 1, page);
        var e := MakeEntry(fmt[|fmt| - 1], frame, flags);
        LeafSetOk(fmt, t1, where, p, i, e);
        tables := tables[key := tables[key][i := e]];
        assert Abs() == SetEntry(t1, where, p, i, e);
        forall w: nat ensures Translate(fmt, Abs(), w) ==
          if w % Span(fmt, 0) == page % Span(fmt, 0) then Visible(e) else Translate(fmt, t0, w)
        {
          LeafSet(fmt, t1, where, p, i, e, Path(fmt, w));
          PathEqual(fmt, w, page);
          TranslateIs(fmt, Abs(), where, w);
          TranslateIs(fmt, t0, where0, w);
        }
      } else {
        forall w: nat ensures Translate(fmt, Abs(), w) == Translate(fmt, t0, w) {
          TranslateIs(fmt, Abs(), where, w);
          TranslateIs(fmt, t0, where0, w);
        }
      }
    }

    lemma IndexIs(page: nat)
      requires |fmt| >= 2
      ensures var path := Path(fmt, page); var n := |fmt| - 1;
        path == path[..n] + [path[n]] && path[n] == Index(fmt, n, page)
    {
    }

    /** `PtableSet.map` at the 4 KB level. Misaligned requests end the program; here they
        return false and change nothing. */
    method Map(physBase: nat, virtBase: Option<nat>, size: nat, flags: set<Flag>) returns (ok: bool)
      requires Valid() && Room(size / 4096 * (|fmt| - 1))
      modifies this
      ensures Valid()
      ensures var v := if virtBase == None then physBase else virtBase.value;
        ok == (physBase % 4096 == 0 && v % 4096 == 0 && size % 4096 == 0)
      ensures !ok ==> Abs() == old(Abs())
      ensures ok ==> var v := if virtBase == None then physBase else virtBase.value;
        forall w: nat ::
          Translate(fmt, Abs(), w) ==
            AfterMap(fmt, physBase / 4096, v / 4096, size / 4096, v == physBase, flags, w, old(Translate(fmt, Abs(), w)))
    {
      hide TreeOk, Span, Translate, Path, MakeEntry, Visible;
      var identity := virtBase == None || virtBase.value == physBase;
      var v := if virtBase == None then physBase else virtBase.value;
      if physBase % 4096 != 0 || size % 4096 != 0 || v % 4096 != 0 { return false; }
      ok := true;
      var phys, virt, n := physBase / 4096, v / 4096, size / 4096;
      var j := 0;
      while j < n
        invariant j <= n && Valid() && old(pagePos) <= pagePos <= old(pagePos) + j * (|fmt| - 1)
        invariant forall w: nat ::
          Translate(fmt, Abs(), w) == AfterMap(fmt, phys, virt, j, identity, flags, w, old(Translate(fmt, Abs(), w)))
      {
        Steps(j, |fmt| - 1);
        StepsMonotone(j, n, |fmt| - 1);
        if !(identity && phys + j == 0) {
          MapPage(virt + j, phys + j, flags, false);
        }
        j := j + 1;
      }
    }

    /** `PtableSet.reserve`: leaf tables for the whole range come to exist, no translation
        changes. Misaligned requests end the program; here they return false. */
    method Reserve(virtBase: nat, size: nat) returns (ok: bool)
      requires Valid() && Room(Off(Pieces(size / 4096, Span(fmt, |fmt| - 1)), |fmt| - 1))
      modifies this
      ensures Valid()
      ensures ok == (virtBase % 4096 == 0 && size % 4096 == 0 && virtBase % Off(4096, Span(fmt, |fmt| - 1)) == 0)
      ensures !ok ==> Abs() == old(Abs())
      ensures forall w: nat :: Translate(fmt, Abs(), w) == old(Translate(fmt, Abs(), w))
      ensures ok ==>
        forall j :: 0 <= j < Pieces(size / 4096, Span(fmt, |fmt| - 1)) ==> HasTable(virtBase / 4096, j)
    {
      hide TreeOk, Span, Translate, Path, MakeEntry, Visible, Pieces, Off;
      var scope := Span(fmt, |fmt| - 1);
      OffBounds(4096, scope);
      ok := virtBase % 4096 == 0 && size % 4096 == 0 && virtBase % Off(4096, scope) == 0;
      if ok {
        ReservePieces(virtBase / 4096, size / 4096, scope);
      }
    }

    method ReservePieces(base: nat, n: nat, scope: Positive)
      requires Valid() && scope == Span(fmt, |fmt| - 1) && Room(Off(Pieces(n, scope), |fmt| - 1))
      modifies this
      ensures Valid()
      ensures forall w: nat :: Translate(fmt, Abs(), w) == old(Translate(fmt, Abs(), w))
      ensures forall j :: 0 <= j < Pieces(n, scope) ==> HasTable(base, j)
    {
      hide TreeOk, Span, Translate, Path, MakeEntry, Visible, Pieces, Off;
      ghost var count := Pieces(n, scope);
      ghost var j := 0;
      var page := base;
      OffBounds(0, scope);
      OffBounds(0, |fmt| - 1);
      while page < base + n
        invariant page == base + Off(j, scope) && j <= count && Valid()
        invariant old(pagePos) <= pagePos <= old(pagePos) + Off(j, |fmt| - 1)
        invariant forall w: nat :: Translate(fmt, Abs(), w) == old(Translate(fmt, Abs(), w))
        invariant forall i :: 0 <= i < j ==> HasTable(base, i)
        decreases base + n - page
      {
        PiecesLeft(n, scope, j);
        OffNext(j, scope, count);
        OffNext(j, |fmt| - 1, count);
        label Before:
        MapPage(page, 0, {}, true);
        forall i | 0 <= i <= j ensures HasTable(base, i) {
          assert i < j ==> old@Before(HasTable(base, i));
        }
        page := page + scope;
        j := j + 1;
      }
      PiecesDone(n, scope, j);
    }

    /** There is a leaf table for the `j`-th piece from page `base` on. */
    ghost predicate HasTable(base: nat, j: nat)
      requires |fmt| >= 1
      reads this
    {
      Path(fmt, base + Off(j, Span(fmt, |fmt| - 1)))[..|fmt| - 1] in where
    }
  }

  function Off(j: nat, k: nat): nat {
    j * k
  }

  lemma OffBounds(j: nat, k: nat)
    ensures Off(0, k) == 0 && (j > 0 && k > 0 ==> Off(j, k) > 0)
  {
    if j > 0 && k > 0 {
      MulAtLeast(j, k);
    }
  }

  lemma OffNext(j: nat, k: nat, n: nat)
    ensures Off(j + 1, k) == Off(j, k) + k && (j < n ==> Off(j + 1, k) <= Off(n, k))
  {
    if j < n {
      assert Off(n, k) - Off(j + 1, k) == (n - (j + 1)) * k;
    }
  }

  /** How many steps of `scope` it takes to cover `n`. */
  function Pieces(n: nat, scope: Positive): nat {
    (n + scope - 1) / scope
  }

  lemma PiecesAre(n: nat, scope: Positive)
    ensures var c := Pieces(n, scope); Off(c, scope) >= n && Off(c, scope) - scope < n
  {
    var m := n + scope - 1;
    assert m == (m / scope) * scope + m % scope;
  }

  lemma OffDistance(c: nat, j: nat, k: nat)
    requires k > 0
    ensures c > j ==> Off(c, k) >= Off(j, k) + k
  {
    assert Off(c, k) - Off(j, k) == (c - j) * k;
    MulAtLeast(c - j, k);
  }

  lemma PiecesLeft(n: nat, scope: Positive, j: nat)
    requires Off(j, scope) < n
    ensures j < Pieces(n, scope)
  {
    hide Off, Pieces;
    PiecesAre(n, scope);
    OffDistance(j, Pieces(n, scope), scope);
  }

  lemma PiecesDone(n: nat, scope: Positive, j: nat)
    requires Off(j, scope) >= n
    ensures Pieces(n, scope) <= j
  {
    hide Off, Pieces;
    PiecesAre(n, scope);
    OffDistance(Pieces(n, scope), j, scope);
  }
}
