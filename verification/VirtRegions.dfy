/**
 The allocator of virtual address regions (kernel/mmu.c): a bitmap with one bit per page
 in which bit 0 is the highest page. Over-allocated pages are trimmed off at both ends
 to get an aligned region.
 */
module VirtRegions {
  import opened Arithmetic
  import opened Options

  // ----- arithmetic -----

  function Bytes(n: int, page: nat): int {
    n * page
  }

  function Count(size: int, page: nat): int
    requires page > 0
  {
    size / page
  }

  /** Start address of the region of `size` bytes whose highest page is at `offset`. */
  function FromOffset(end: int, page: nat, offset: int, size: int): int {
    end - Bytes(offset, page) - size
  }

  /** Bit of the highest page of a region. */
  function ToOffset(end: int, page: nat, vaddr: int, size: int): int
    requires page > 0
  {
    Count(end - vaddr - size, page)
  }

  function RoundUp(x: int, align: nat): int
    requires align > 0
  {
    (x + align - 1) / align * align
  }

  lemma DivExact(k: int, page: nat)
    requires page > 0
    ensures (k * page) / page == k && (k * page) % page == 0
  {
    Quotient(k * page, k, 0, page);
  }

  lemma CountBytes(k: int, page: nat)
    requires page > 0
    ensures Count(Bytes(k, page), page) == k && Bytes(k, page) % page == 0
  {
    DivExact(k, page);
  }

  lemma Distribute(a: int, b: int, page: nat)
    ensures Bytes(a + b, page) == Bytes(a, page) + Bytes(b, page)
    ensures Bytes(a - b, page) == Bytes(a, page) - Bytes(b, page)
  {
  }

  lemma Monotone(a: int, b: int, page: nat)
    requires a <= b
    ensures Bytes(a, page) <= Bytes(b, page) && Bytes(0, page) == 0
  {
  }

  lemma StrictlyMonotone(a: int, b: int, page: nat)
    requires page > 0
    ensures a < b <==> Bytes(a, page) < Bytes(b, page)
  {
    MulAtLeast(b - a, page);
    Distribute(b, a, page);
  }

  /** The two conversions undo each other: from bits always, from addresses exactly when
      the region ends on a page boundary. */
  lemma OffsetsInvert(end: int, page: nat, offset: int, size: int, vaddr: int)
    requires page > 0
    ensures ToOffset(end, page, FromOffset(end, page, offset, size), size) == offset
    ensures FromOffset(end, page, ToOffset(end, page, vaddr, size), size) == vaddr <==> (end - vaddr - size) % page == 0
  {
    CountBytes(offset, page);
    var x := end - vaddr - size;
    assert x == (x / page) * page + x % page;
  }

  lemma RoundUpIs(x: int, a: nat)
    requires a > 0
    ensures RoundUp(x, a) % a == 0 && x <= RoundUp(x, a) < x + a
  {
    var y := x + a - 1;
    assert y == (y / a) * a + y % a;
    DivExact(y / a, a);
  }

  /** A difference of two page boundaries is a whole number of pages. */
  lemma PageDifference(x: int, y: int, page: nat)
    requires page > 0 && x % page == 0 && y % page == 0
    ensures x - y == Bytes(Count(x - y, page), page)
  {
    var a, b := x / page, y / page;
    assert x == a * page && y == b * page;
    Distribute(a, b, page);
    CountBytes(a - b, page);
  }

  lemma MultipleOfMultiple(x: int, a: nat, page: nat)
    requires page > 0 && a > 0 && Bytes(a, page) > 0 && x % Bytes(a, page) == 0
    ensures x % page == 0
  {
    var q := x / (a * page);
    assert x == q * (a * page) == (q * a) * page;
    DivExact(q * a, page);
  }

  /** Rounding the start of a run of pages up to a multiple of `a` pages skips fewer than
      `a` whole pages. */
  lemma RoundUpPages(end: int, page: nat, m: int, a: nat)
    requires page > 0 && a > 0 && end % page == 0 && Bytes(a, page) > 0
    ensures var dest := end - Bytes(m, page); var aligned := RoundUp(dest, Bytes(a, page));
      var g := Count(aligned - dest, page);
      aligned % Bytes(a, page) == 0 && 0 <= g < a && aligned == dest + Bytes(g, page)
  {
    hide Bytes, Count, RoundUp;
    var dest := end - Bytes(m, page);
    var aligned := RoundUp(dest, Bytes(a, page));
    var g := Count(aligned - dest, page);
    CountBytes(m, page);
    PageDifference(end, Bytes(m, page), page);
    CountBytes(Count(dest, page), page);
    RoundUpIs(dest, Bytes(a, page));
    MultipleOfMultiple(aligned, a, page);
    PageDifference(aligned, dest, page);
    StrictlyMonotone(g, a, page);
    Zero(page);
    StrictlyMonotone(g, 0, page);
  }

  lemma Zero(page: nat)
    ensures Bytes(0, page) == 0
  {
  }

  /** Where trimming cuts: an over-allocation of `s + a - 1` pages at bit `off`, cut by `g`
      pages at the low addresses and by the rest at the high ones, leaves `s` pages. */
  lemma TrimOffsets(end: int, page: nat, off: int, s: int, a: int, g: int)
    requires page > 0
    ensures var dest := end - Bytes(off + s + a - 1, page); var aligned := dest + Bytes(g, page);
      && dest + Bytes(s + a - 1, page) - (aligned + Bytes(s, page)) == Bytes(a - 1 - g, page)
      && ToOffset(end, page, dest, Bytes(g, page)) == off + s + a - 1 - g
      && ToOffset(end, page, aligned + Bytes(s, page), Bytes(a - 1 - g, page)) == off
      && aligned == end - Bytes(off + a - 1 - g + s, page)
  {
    hide Bytes, Count;
    var n := off + s + a - 1;
    Distribute(s, a - 1, page);
    Distribute(a - 1, g, page);
    Distribute(n, g, page);
    Distribute(n - g, s, page);
    Distribute(off + a - 1 - g, s, page);
    Distribute(off, a - 1 - g, page);
    Distribute(off + s, a - 1, page);
    Distribute(off, s, page);
    CountBytes(n - g, page);
    CountBytes(off, page);
  }

  // ----- bitmaps -----

  /** Some page of the run is taken. */
  ghost predicate Blocked(s: seq<bool>, o: int, n: int) {
    exists b :: 0 <= b < |s| && o <= b < o + n && s[b]
  }

  /** Nowhere are `n` pages in a row free. */
  ghost predicate NoRun(s: seq<bool>, n: int) {
    forall o :: 0 <= o <= |s| - n ==> Blocked(s, o, n)
  }

  ghost predicate Clear(s: seq<bool>, o: int, n: int) {
    0 <= o && o + n <= |s| && forall b :: o <= b < o + n ==> !s[b]
  }

  /** The bitmap with a run added. */
  function Marked(s: seq<bool>, off: int, n: int): (r: seq<bool>)
    ensures |r| == |s|
  {
    seq(|s|, b requires 0 <= b < |s| => s[b] || off <= b < off + n)
  }

  /** The bitmap after a request to clear a run: nothing happens unless all of it is set. */
  function Cleared(s: seq<bool>, off: int, n: int): (r: seq<bool>)
    ensures |r| == |s|
  {
    if n > 0 && 0 <= off && off + n <= |s| && (forall b :: off <= b < off + n ==> s[b])
    then seq(|s|, b requires 0 <= b < |s| => s[b] && !(off <= b < off + n)) else s
  }

  /** Marking `n` pages and clearing both ends again marks the middle. */
  lemma TrimBits(before: seq<bool>, off: int, n: int, k: int, s: int)
    requires Clear(before, off, n) && off <= k && 0 <= s && k + s <= off + n
    ensures Cleared(Cleared(Marked(before, off, n), k + s, off + n - k - s), off, k - off) == Marked(before, k, s)
  {
  }

  lemma ClearNone(s: seq<bool>, off: int)
    ensures Cleared(s, off, 0) == s
  {
  }

  lemma ClearPart(s: seq<bool>, off: int, n: int, k: int, m: int)
    requires Clear(s, off, n) && off <= k && k + m <= off + n
    ensures Clear(s, k, m)
  {
  }

  lemma One(page: nat)
    ensures Bytes(1, page) == page
  {
  }

  /** Pages of the bitmap that belong to a live region. */
  ghost predicate Covered(live: map<nat, nat>, b: int) {
    exists o :: o in live && o <= b < o + live[o]
  }

  /** The fixed layout: `pages` of virtual memory below `end`, the lowest `low` and the
      highest `high` of them never handed out. */
  datatype Layout = Layout(page: nat, end: int, pages: nat, low: nat, high: nat) {
    ghost predicate Ok() {
      page > 0 && end % page == 0 && low + high <= pages && Bytes(pages, page) <= end
    }

    predicate Reserved(b: int) {
      b < high || b >= pages - low
    }

    /** First address that may be handed out, and the end of the last such page. */
    function Start(): int {
      end - Bytes(pages - low, page)
    }

    function End(): int {
      end - Bytes(high, page)
    }

    /** Live regions do not overlap each other or the reserved pages. */
    ghost predicate LiveOk(live: map<nat, nat>) {
      && (forall o :: o in live ==> high <= o && 0 < live[o] && o + live[o] <= pages - low)
      && (forall o, p :: o in live && p in live && o < p ==> o + live[o] <= p)
    }

    /** Exactly the reserved pages and those of live regions are marked. */
    ghost predicate Exact(s: seq<bool>, live: map<nat, nat>) {
      |s| == pages && forall b :: 0 <= b < pages ==> (s[b] <==> Reserved(b) || Covered(live, b))
    }

    lemma AddLive(s: seq<bool>, live: map<nat, nat>, k: nat, n: nat)
      requires LiveOk(live) && Exact(s, live) && n > 0 && Clear(s, k, n)
      ensures k !in live && high <= k && k + n <= pages - low
      ensures LiveOk(live[k := n]) && Exact(Marked(s, k, n), live[k := n])
    {
      var live' := live[k := n];
      assert !Covered(live, k) && !Reserved(k) && !Reserved(k + n - 1);
      forall o | o in live ensures o + live[o] <= k || k + n <= o {
        assert k < o < k + n ==> !Covered(live, o);
      }
      forall b | 0 <= b < pages ensures Marked(s, k, n)[b] <==> Reserved(b) || Covered(live', b) {
        if Covered(live, b) {
          var o :| o in live && o <= b < o + live[o];
          assert o in live' && live'[o] == live[o];
        }
        assert k in live' && live'[k] == n;
      }
    }

    lemma RemoveLive(s: seq<bool>, live: map<nat, nat>, k: nat)
      requires LiveOk(live) && Exact(s, live) && k in live
      ensures LiveOk(live - {k}) && Exact(Cleared(s, k, live[k]), live - {k})
    {
      var live' := live - {k};
      forall b | k <= b < k + live[k] ensures s[b] { assert Covered(live, b); }
      forall b | 0 <= b < pages ensures Cleared(s, k, live[k])[b] <==> Reserved(b) || Covered(live', b) {
        if Covered(live, b) && !(k <= b < k + live[k]) {
          var o :| o in live && o <= b < o + live[o];
          assert o in live' && live'[o] == live[o];
        }
      }
    }

    /** Addresses of a run of pages that avoids the reserved ones. */
    lemma RunAddresses(off: int, n: int)
      requires Ok() && high <= off && 0 <= n && off + n <= pages - low
      ensures Start() <= end - Bytes(off + n, page) && end - Bytes(off, page) <= End()
      ensures 0 <= end - Bytes(off + n, page)
    {
      Monotone(off + n, pages - low, page);
      Monotone(high, off, page);
      Monotone(off + n, pages, page);
    }
  }

  class RegionAllocator {
    const lay: Layout
    const bits: array<bool>
    var inited: bool
    ghost var live: map<nat, nat>

    /** The bitmap, with the reserved pages counted as marked before they are. */
    ghost function Used(): seq<bool>
      reads this, bits
    {
      if inited then bits[..] else seq(bits.Length, b => lay.Reserved(b))
    }

    ghost predicate Valid()
      reads this, bits
    {
      && lay.Ok() && bits.Length == lay.pages
      && lay.LiveOk(live) && lay.Exact(Used(), live)
      && (!inited ==> forall b :: 0 <= b < bits.Length ==> !bits[b])
    }

    constructor (lay: Layout)
      requires lay.Ok()
      ensures Valid() && live == map[] && this.lay == lay
    {
      this.lay := lay;
      bits := new bool[lay.pages](_ => false);
      inited, live := false, map[];
    }

    /** Sets or clears a run of bits. */
    method SetRegion(off: nat, n: nat, value: bool)
      requires off + n <= bits.Length
      modifies bits
      ensures forall b :: 0 <= b < bits.Length ==> bits[b] == if off <= b < off + n then value else old(bits[b])
    {
      for i := 0 to n
        invariant forall b :: 0 <= b < bits.Length ==> bits[b] == if off <= b < off + i then value else old(bits[b])
      {
        bits[off + i] := value;
      }
    }

    /** `sys_bitarray_alloc`: the lowest run of `n` clear bits. */
    method AllocBits(n: int) returns (off: Option<nat>)
      modifies bits
      ensures off.Some? ==> n > 0 && Clear(old(bits[..]), off.value, n) && bits[..] == Marked(old(bits[..]), off.value, n)
      ensures off.None? ==> bits[..] == old(bits[..])
      ensures off.None? && n > 0 ==> NoRun(bits[..], n)
    {
      if n <= 0 || n > bits.Length { return None; }
      var start := 0;
      while start + n <= bits.Length
        invariant bits[..] == old(bits[..])
        invariant forall o :: 0 <= o < start && o <= bits.Length - n ==> Blocked(bits[..], o, n)
        decreases bits.Length - start
      {
        var i := 0;
        while i < n && !bits[start + i]
          invariant i <= n && forall b :: start <= b < start + i ==> !bits[b]
        {
          i := i + 1;
        }
        if i == n {
          SetRegion(start, n, true);
          return Some(start);
        }
        assert bits[..][start + i];
        start := start + i + 1;
      }
      off := None;
    }

    /** `sys_bitarray_free`: clears a run of bits provided all of them are set. */
    method FreeBits(n: int, off: int)
      modifies bits
      ensures bits[..] == Cleared(old(bits[..]), off, n)
    {
      if n <= 0 || off < 0 || off + n > bits.Length { return; }
      var i := 0;
      while i < n
        invariant i <= n && forall b :: off <= b < off + i ==> bits[b]
      {
        if !bits[off + i] {
          assert !bits[..][off + i];
          return;
        }
        i := i + 1;
      }
      SetRegion(off, n, false);
    }

    /** `virt_region_init`: marks the pages that must never be handed out. */
    method Init()
      requires Valid() && !inited
      modifies this`inited, bits
      ensures inited && bits[..] == old(Used())
    {
      hide Bytes, Count;
      var ramStart := lay.end - Bytes(lay.pages, lay.page);
      Distribute(lay.pages, lay.low, lay.page);
      CountBytes(lay.pages - lay.low, lay.page);
      CountBytes(lay.low, lay.page);
      if lay.high > 0 { SetRegion(0, lay.high, true); }
      var size := Bytes(lay.low, lay.page);
      var off := ToOffset(lay.end, lay.page, ramStart, size);
      SetRegion(off, Count(size, lay.page), true);
      inited := true;
    }

    /** `virt_region_free`, without direct mappings. */
    method Free(vaddr: int, size: int)
      requires lay.Ok() && (!inited ==> Valid())
      modifies this`inited, bits
      ensures inited
      ensures bits[..] == if lay.Start() <= vaddr && vaddr + size - 1 < lay.End()
                          then Cleared(old(Used()), ToOffset(lay.end, lay.page, vaddr, size), Count(size, lay.page))
                          else old(Used())
    {
      hide Bytes, Count, ToOffset, Cleared;
      if !inited { Init(); }
      if !(vaddr >= lay.Start() && vaddr + size - 1 < lay.End()) { return; }
      FreeBits(Count(size, lay.page), ToOffset(lay.end, lay.page, vaddr, size));
    }

    /** Gives back the pages around the aligned part of an over-allocation. */
    method TrimRegion(dest: int, size: int, align: nat, allocSize: int,
                      ghost off: int, ghost s: nat, ghost a: nat, ghost before: seq<bool>)
      returns (aligned: int, ghost k: int)
      requires lay.Ok() && bits.Length == lay.pages == |before| && inited && s > 0 && a > 0
      requires size == Bytes(s, lay.page) && align == Bytes(a, lay.page) > 0 && allocSize == Bytes(s + a - 1, lay.page)
      requires lay.high <= off && off + s + a - 1 <= lay.pages - lay.low && Clear(before, off, s + a - 1)
      requires dest == lay.end - Bytes(off + s + a - 1, lay.page) && bits[..] == Marked(before, off, s + a - 1)
      modifies this`inited, bits
      ensures inited && aligned % align == 0 && off <= k && k + s <= off + s + a - 1
      ensures aligned == lay.end - Bytes(k + s, lay.page) && bits[..] == Marked(before, k, s)
    {
      hide Bytes, Count, ToOffset, Cleared, Marked, RoundUp, Clear;
      RoundUpPages(lay.end, lay.page, off + s + a - 1, a);
      ghost var g := Count(RoundUp(dest, align) - dest, lay.page);
      k := off + a - 1 - g;
      StrictlyMonotone(s, s + a - 1, lay.page);
      Zero(lay.page);
      aligned := dest;
      if allocSize > size {
        aligned := RoundUp(dest, align);
        TrimOffsets(lay.end, lay.page, off, s, a, g);
        TrimBits(before, off, s + a - 1, k, s);
        lay.RunAddresses(off, s + a - 1);
        lay.RunAddresses(k, s);
        CountBytes(a - 1 - g, lay.page);
        Distribute(k, s, lay.page);
        Distribute(off, s + a - 1, lay.page);
        StrictlyMonotone(0, s, lay.page);
        Free(dest, aligned - dest);
        var rest := (dest + allocSize) - (aligned + size);
        if rest > 0 {
          Free(aligned + size, rest);
        } else {
          StrictlyMonotone(0, a - 1 - g, lay.page);
          ClearNone(bits[..], off);
        }
      }
    }

    /** `virt_region_alloc` for `s` pages aligned to `a` pages: an aligned region whose
        pages were all free, and nothing else newly marked; it fails only when no run of
        free pages is long enough for the over-allocation. */
    method Alloc(s: nat, a: nat) returns (r: Option<int>, ghost k: nat)
      requires Valid() && s > 0 && a > 0
      modifies this, bits
      ensures Valid() && inited
      ensures r.Some? ==>
        && r.value % Bytes(a, lay.page) == 0
        && lay.Start() <= r.value && r.value + Bytes(s, lay.page) <= lay.End()
        && r.value == FromOffset(lay.end, lay.page, k, Bytes(s, lay.page))
        && Clear(old(Used()), k, s) && bits[..] == Marked(old(Used()), k, s)
        && k !in old(live) && live == old(live)[k := s]
      ensures r.None? ==> bits[..] == old(Used()) && live == old(live)
      ensures r.None? ==> NoRun(bits[..], s + a - 1)
    {
      hide Bytes, Count, ToOffset, Cleared, Marked, Clear, Covered, NoRun;
      if !inited { Init(); }
      k := 0;
      ghost var before := bits[..];
      var page := lay.page;
      var size, align := Bytes(s, page), Bytes(a, page);
      Distribute(s + a, 1, page);
      Distribute(s, a, page);
      One(page);
      CountBytes(s + a - 1, page);
      StrictlyMonotone(0, a, page);
      Zero(page);
      var numBits := Count(size + align - page, page);
      var allocSize := Bytes(numBits, page);
      var got := AllocBits(numBits);
      if got.None? { return None, 0; }
      var off := got.value;
      lay.AddLive(before, live, off, numBits);
      var dest := FromOffset(lay.end, page, off, allocSize);
      Distribute(off, numBits, page);
      var aligned;
      aligned, k := TrimRegion(dest, size, align, allocSize, off, s, a, before);
      ClearPart(before, off, numBits, k, s);
      lay.AddLive(before, live, k, s);
      lay.RunAddresses(k, s);
      Distribute(k, s, page);
      if aligned < lay.Start() {
        assert false;
      }
      live := live[k := s];
      r := Some(aligned);
    }

    /** Freeing a live region makes exactly its pages available again. */
    method Release(vaddr: int, size: int, ghost k: nat)
      requires Valid() && inited && k in live
      requires size == Bytes(live[k], lay.page) && vaddr == FromOffset(lay.end, lay.page, k, size)
      modifies this, bits
      ensures Valid() && inited && live == old(live) - {k}
      ensures bits[..] == Cleared(old(bits[..]), k, old(live)[k])
    {
      hide Bytes, Count, Cleared, Covered, ToOffset;
      ghost var n := live[k];
      OffsetsInvert(lay.end, lay.page, k, size, vaddr);
      CountBytes(n, lay.page);
      Distribute(k, n, lay.page);
      lay.RunAddresses(k, n);
      lay.RemoveLive(bits[..], live, k);
      Free(vaddr, size);
      live := live - {k};
    }
  }
}
