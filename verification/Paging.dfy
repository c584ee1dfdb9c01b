/**
 Demand paging (kernel/mmu.c). Page frames, the free list, the page tables and the
 backing store are proved to implement one flat memory: paging is invisible.

 The eviction algorithm and the backing store are code the kernel calls. Their choices
 are parameters; what their interface promises is required of those parameters.
 */
module Paging {
  import opened Memory
  import opened Options

  type Virt = nat
  type Frame = nat
  type Location = nat

  /** The contents of a page. */
  type Page = Bytes

  /** `struct k_mem_page_frame`: the flags and the virtual address mapped to the frame. */
  datatype Info = Info(mapped: bool, pinned: bool, backed: bool, va: Virt)

  /** Where the page tables say a data page is. The hardware sets `dirty` on a write. */
  datatype Entry = Loaded(frame: Frame, dirty: bool) | Stored(location: Location)

  const FREE: Info := Info(false, false, false, 0)

  /** `home` is the backing store's note of the location that holds a copy of a loaded
      page whose frame has BACKED set. */
  datatype State = State(
    frames: map<Frame, Info>,
    freeList: seq<Frame>,
    evictable: set<Frame>,
    table: map<Virt, Entry>,
    ram: map<Frame, Page>,
    store: map<Location, Page>,
    home: map<Frame, Location>)

  // ----- the flat memory -----

  /** What a read of a mapped page delivers, wherever the page is. */
  function Content(s: State, v: Virt): Page
    requires v in s.table
  {
    match s.table[v]
    case Loaded(f, _) => if f in s.ram then s.ram[f] else []
    case Stored(l) => if l in s.store then s.store[l] else []
  }

  /** The memory as its users see it. */
  function View(s: State): map<Virt, Page> {
    map v | v in s.table :: Content(s, v)
  }

  // ----- what every reachable state keeps -----

  /** A loaded page and its frame point at each other. */
  ghost predicate EntryOk(s: State, v: Virt)
    requires v in s.table
  {
    match s.table[v]
    case Loaded(f, _) => f in s.frames && s.frames[f].mapped && s.frames[f].va == v && f in s.ram
    case Stored(l) => l in s.store
  }

  ghost predicate FrameOk(s: State, f: Frame)
    requires f in s.frames
  {
    var i := s.frames[f];
    && (i.mapped ==> i.va in s.table && s.table[i.va].Loaded? && s.table[i.va].frame == f && f in s.ram)
    && (i.mapped <==> f !in s.freeList)
    && (f in s.evictable <==> i.mapped && !i.pinned)
    && (!i.mapped ==> i == FREE)
    && (i.backed ==> f in s.home && s.home[f] in s.store && (!s.table[i.va].dirty ==> s.store[s.home[f]] == s.ram[f]))
  }

  /** No two data pages share a location, and none uses a copy's location. */
  ghost predicate LocationsOk(s: State) {
    && (forall v, w :: v in s.table && w in s.table && s.table[v].Stored? && s.table[v] == s.table[w] ==> v == w)
    && (forall v, f :: v in s.table && f in s.frames && s.frames[f].backed && f in s.home && s.table[v].Stored? ==>
          s.table[v].location != s.home[f])
    && (forall f, g :: f in s.frames && g in s.frames && s.frames[f].backed && s.frames[g].backed ==>
          f in s.home && g in s.home && s.home[f] == s.home[g] ==> f == g)
  }

  ghost predicate Entries(s: State) {
    forall v :: v in s.table ==> EntryOk(s, v)
  }

  ghost predicate Frames(s: State) {
    && (forall f :: f in s.frames ==> FrameOk(s, f))
    && (forall f :: f in s.freeList || f in s.evictable ==> f in s.frames)
    && (forall f :: f in s.frames ==> f in s.ram)
    && (forall i, j :: 0 <= i < j < |s.freeList| ==> s.freeList[i] != s.freeList[j])
  }

  ghost predicate Inv(s: State) {
    Entries(s) && Frames(s) && LocationsOk(s)
  }

  /** What `k_mem_paging_backing_store_location_get` may return for a frame: the place of
      the copy when there is one, otherwise a location that is not in use. */
  ghost predicate LocationFor(s: State, f: Frame, l: Location) {
    if f in s.frames && s.frames[f].backed then f in s.home && l == s.home[f]
    else
      && (forall v :: v in s.table ==> s.table[v] != Stored(l))
      && (forall g :: g in s.frames && s.frames[g].backed && g in s.home ==> s.home[g] != l)
  }

  lemma LocationsShrink(s: State, s': State)
    requires LocationsOk(s) && s'.home == s.home
    requires forall v :: v in s'.table && s'.table[v].Stored? ==> v in s.table && s.table[v] == s'.table[v]
    requires forall f :: f in s'.frames && s'.frames[f].backed ==> f in s.frames && s.frames[f].backed
    ensures LocationsOk(s')
  {
  }

  // ----- steps -----

  /** A data page leaves its frame: written out when dirty or without a copy, its table
      entry pointed at the location, the frame not tracked any more. */
  function PageOut(s: State, f: Frame, l: Location): State
    requires f in s.frames && s.frames[f].va in s.table && s.table[s.frames[f].va].Loaded? && f in s.ram
  {
    var i := s.frames[f];
    s.(evictable := s.evictable - {f},
       table := s.table[i.va := Stored(l)],
       store := if s.table[i.va].dirty || !i.backed then s.store[l := s.ram[f]] else s.store)
  }

  /** A frame without a page joins the free list. */
  function FreeFrame(s: State, f: Frame): State {
    s.(frames := s.frames[f := FREE], freeList := s.freeList + [f])
  }

  function Evict(s: State, f: Frame, l: Location): State
    requires f in s.frames && s.frames[f].va in s.table && s.table[s.frames[f].va].Loaded? && f in s.ram
  {
    FreeFrame(PageOut(s, f, l), f)
  }

  ghost predicate FramesBut(s: State, f: Frame) {
    && (forall g :: g in s.frames && g != f ==> FrameOk(s, g))
    && (forall g :: g in s.freeList || g in s.evictable ==> g in s.frames)
    && (forall g :: g in s.frames ==> g in s.ram)
    && (forall i, j :: 0 <= i < j < |s.freeList| ==> s.freeList[i] != s.freeList[j])
  }

  /** The invariant with one frame on its way to the free list: no page is in it any more,
      but its flags are still the old ones. */
  ghost predicate Leaving(s: State, f: Frame) {
    && f in s.frames && f !in s.freeList && f !in s.evictable
    && (forall v :: v in s.table && s.table[v].Loaded? ==> s.table[v].frame != f)
    && Entries(s) && FramesBut(s, f) && LocationsOk(s.(frames := s.frames[f := FREE]))
  }

  lemma FreeFrameEntries(s: State, f: Frame)
    requires Entries(s) && forall v :: v in s.table && s.table[v].Loaded? ==> s.table[v].frame != f
    ensures Entries(FreeFrame(s, f)) && View(FreeFrame(s, f)) == View(s)
  {
    var s' := FreeFrame(s, f);
    forall v | v in s'.table ensures EntryOk(s', v) && Content(s', v) == Content(s, v) {
      assert EntryOk(s, v);
    }
  }

  /** Freeing such a frame restores the invariant, and no address notices. */
  lemma FreeFrameKeeps(s: State, f: Frame)
    requires Leaving(s, f)
    ensures Inv(FreeFrame(s, f)) && View(FreeFrame(s, f)) == View(s)
  {
    hide Entries;
    FreeFrameEntries(s, f);
    var s' := FreeFrame(s, f);
    forall g | g in s'.frames ensures FrameOk(s', g) {
      if g != f { assert FrameOk(s, g); }
    }
    assert LocationsOk(s') by {
      LocationsShrink(s.(frames := s.frames[f := FREE]), s');
    }
  }

  /** What the eviction algorithm may choose, with a location for its page. */
  ghost predicate CanEvict(s: State, f: Frame, l: Location) {
    f in s.frames && f in s.evictable && LocationFor(s, f, l)
  }

  lemma PageOutLocations(s: State, f: Frame, l: Location)
    requires Inv(s) && CanEvict(s, f, l) && FrameOk(s, f)
    ensures LocationsOk(PageOut(s, f, l).(frames := s.frames[f := FREE]))
  {
    hide EntryOk;
  }

  lemma PageOutEntries(s: State, f: Frame, l: Location)
    requires Inv(s) && CanEvict(s, f, l) && FrameOk(s, f)
    ensures Entries(PageOut(s, f, l)) && View(PageOut(s, f, l)) == View(s)
    ensures var s' := PageOut(s, f, l);
      forall v :: v in s'.table && s'.table[v].Loaded? ==> s'.table[v].frame != f
  {
    hide Frames;
    var s' := PageOut(s, f, l);
    forall v | v in s'.table
      ensures EntryOk(s', v) && Content(s', v) == Content(s, v) && (s'.table[v].Loaded? ==> s'.table[v].frame != f)
    {
      assert EntryOk(s, v);
    }
  }

  lemma PageOutFrames(s: State, f: Frame, l: Location)
    requires Inv(s) && CanEvict(s, f, l) && FrameOk(s, f)
    ensures FramesBut(PageOut(s, f, l), f)
  {
    hide Entries;
    var s' := PageOut(s, f, l);
    forall g | g in s'.frames && g != f ensures FrameOk(s', g) {
      assert FrameOk(s, g);
    }
  }

  lemma PageOutLeaves(s: State, f: Frame, l: Location)
    requires Inv(s) && CanEvict(s, f, l) && FrameOk(s, f)
    ensures Leaving(PageOut(s, f, l), f) && View(PageOut(s, f, l)) == View(s)
  {
    hide Entries, Frames, FramesBut, LocationsOk, LocationFor, View;
    PageOutLocations(s, f, l);
    PageOutEntries(s, f, l);
    PageOutFrames(s, f, l);
  }

  lemma EvictKeeps(s: State, f: Frame, l: Location)
    requires Inv(s) && CanEvict(s, f, l) && FrameOk(s, f)
    ensures Inv(Evict(s, f, l)) && View(Evict(s, f, l)) == View(s)
  {
    hide Inv, Leaving, LocationFor, View, PageOut, FreeFrame;
    PageOutLeaves(s, f, l);
    FreeFrameKeeps(PageOut(s, f, l), f);
  }

  /** Bringing a stored page into the first free frame. `keep` says whether the backing
      store keeps its copy, which is what BACKED means from then on. */
  function Load(s: State, v: Virt, pin: bool, keep: bool): State
    requires v in s.table && s.table[v].Stored? && s.table[v].location in s.store && s.freeList != []
  {
    var f, l := s.freeList[0], s.table[v].location;
    s.(frames := s.frames[f := Info(true, pin, keep, v)],
       freeList := s.freeList[1..],
       evictable := if pin then s.evictable else s.evictable + {f},
       table := s.table[v := Loaded(f, false)],
       ram := s.ram[f := s.store[l]],
       home := s.home[f := l])
  }

  lemma HeadIsFree(s: State)
    requires Frames(s) && s.freeList != []
    ensures s.freeList[0] in s.frames && FrameOk(s, s.freeList[0]) && s.frames[s.freeList[0]] == FREE
    ensures forall f :: f in s.freeList[1..] <==> f in s.freeList && f != s.freeList[0]
  {
    var l := s.freeList;
    assert l == [l[0]] + l[1..];
    assert FrameOk(s, l[0]);
  }

  lemma LoadLocations(s: State, v: Virt, pin: bool, keep: bool)
    requires Inv(s) && v in s.table && EntryOk(s, v) && s.table[v].Stored? && s.freeList != []
    ensures LocationsOk(Load(s, v, pin, keep))
  {
    hide Entries, Frames;
    HeadIsFree(s);
  }

  lemma LoadEntries(s: State, v: Virt, pin: bool, keep: bool)
    requires Inv(s) && v in s.table && EntryOk(s, v) && s.table[v].Stored? && s.freeList != []
    ensures Entries(Load(s, v, pin, keep)) && View(Load(s, v, pin, keep)) == View(s)
  {
    hide Frames, LocationsOk;
    HeadIsFree(s);
    var s' := Load(s, v, pin, keep);
    forall w | w in s'.table ensures EntryOk(s', w) && Content(s', w) == Content(s, w) {
      assert EntryOk(s, w);
    }
  }

  lemma LoadFrames(s: State, v: Virt, pin: bool, keep: bool)
    requires Inv(s) && v in s.table && EntryOk(s, v) && s.table[v].Stored? && s.freeList != []
    ensures Frames(Load(s, v, pin, keep))
  {
    hide Entries, LocationsOk;
    HeadIsFree(s);
    var s' := Load(s, v, pin, keep);
    forall g | g in s'.frames ensures FrameOk(s', g) {
      assert FrameOk(s, g);
    }
  }

  lemma LoadKeeps(s: State, v: Virt, pin: bool, keep: bool)
    requires Inv(s) && v in s.table && EntryOk(s, v) && s.table[v].Stored? && s.freeList != []
    ensures Inv(Load(s, v, pin, keep)) && View(Load(s, v, pin, keep)) == View(s)
  {
    hide Entries, Frames, LocationsOk;
    LoadLocations(s, v, pin, keep);
    LoadEntries(s, v, pin, keep);
    LoadFrames(s, v, pin, keep);
  }

  /** Mapping a new page to the first free frame. */
  function MapNew(s: State, v: Virt, lock: bool): State
    requires s.freeList != []
  {
    var f := s.freeList[0];
    s.(frames := s.frames[f := Info(true, lock, false, v)],
       freeList := s.freeList[1..],
       evictable := if lock then s.evictable else s.evictable + {f},
       table := s.table[v := Loaded(f, false)])
  }

  lemma MapNewFrames(s: State, v: Virt, lock: bool)
    requires Inv(s) && v !in s.table && s.freeList != []
    ensures Frames(MapNew(s, v, lock))
  {
    hide Entries, LocationsOk;
    HeadIsFree(s);
    var s' := MapNew(s, v, lock);
    forall g | g in s'.frames ensures FrameOk(s', g) {
      assert FrameOk(s, g);
    }
  }

  lemma MapNewKeeps(s: State, v: Virt, lock: bool)
    requires Inv(s) && v !in s.table && s.freeList != []
    ensures Inv(MapNew(s, v, lock))
    ensures forall w :: w in s.table ==> w in View(MapNew(s, v, lock)) && View(MapNew(s, v, lock))[w] == View(s)[w]
    ensures View(MapNew(s, v, lock)).Keys == View(s).Keys + {v}
  {
    hide LocationsOk, Frames;
    HeadIsFree(s);
    HaveRam(s, s.freeList[0]);
    MapNewFrames(s, v, lock);
    var s' := MapNew(s, v, lock);
    LocationsShrink(s, s');
    forall w | w in s'.table ensures EntryOk(s', w) && (w != v ==> Content(s', w) == Content(s, w)) {
      if w != v { assert EntryOk(s, w); }
    }
  }

  lemma HaveRam(s: State, f: Frame)
    requires Frames(s) && f in s.frames
    ensures f in s.ram && FrameOk(s, f)
  {
  }

  function SetPinned(s: State, f: Frame, pinned: bool): State
    requires f in s.frames
  {
    s.(frames := s.frames[f := s.frames[f].(pinned := pinned)],
       evictable := if pinned then s.evictable - {f} else s.evictable + {f})
  }

  /** Flags other than MAPPED do not change what the page tables and the memory say. */
  lemma FlagsUnseen(s: State, s': State)
    requires Entries(s) && s'.table == s.table && s'.ram == s.ram && s'.store == s.store
    requires forall f :: f in s.frames ==>
      f in s'.frames && s'.frames[f].mapped == s.frames[f].mapped && s'.frames[f].va == s.frames[f].va
    ensures Entries(s') && View(s') == View(s)
  {
    forall w | w in s'.table ensures EntryOk(s', w) && Content(s', w) == Content(s, w) {
      assert EntryOk(s, w);
    }
  }

  lemma SetPinnedFrames(s: State, f: Frame, pinned: bool)
    requires Frames(s) && f in s.frames && s.frames[f].mapped
    ensures Frames(SetPinned(s, f, pinned))
  {
    var s' := SetPinned(s, f, pinned);
    forall g | g in s'.frames ensures FrameOk(s', g) {
      assert FrameOk(s, g);
    }
  }

  lemma SetPinnedKeeps(s: State, f: Frame, pinned: bool)
    requires Inv(s) && f in s.frames && s.frames[f].mapped
    ensures Inv(SetPinned(s, f, pinned)) && View(SetPinned(s, f, pinned)) == View(s)
  {
    hide Entries, Frames, LocationsOk, View;
    var s' := SetPinned(s, f, pinned);
    LocationsShrink(s, s');
    FlagsUnseen(s, s');
    SetPinnedFrames(s, f, pinned);
  }

  /** A store instruction hits a loaded page. */
  function Write(s: State, v: Virt, p: Page): State
    requires v in s.table && s.table[v].Loaded?
  {
    s.(table := s.table[v := s.table[v].(dirty := true)], ram := s.ram[s.table[v].frame := p])
  }

  lemma WriteEntries(s: State, v: Virt, p: Page)
    requires Entries(s) && v in s.table && s.table[v].Loaded?
    ensures Entries(Write(s, v, p)) && View(Write(s, v, p)) == View(s)[v := p]
  {
    var s' := Write(s, v, p);
    assert EntryOk(s, v);
    forall w | w in s'.table ensures EntryOk(s', w) && Content(s', w) == (if w == v then p else Content(s, w)) {
      assert EntryOk(s, w);
    }
  }

  lemma WriteFrames(s: State, v: Virt, p: Page)
    requires Frames(s) && v in s.table && s.table[v].Loaded? && EntryOk(s, v)
    ensures Frames(Write(s, v, p))
  {
    var s' := Write(s, v, p);
    forall g | g in s'.frames ensures FrameOk(s', g) {
      assert FrameOk(s, g);
    }
  }

  lemma WriteKeeps(s: State, v: Virt, p: Page)
    requires Inv(s) && v in s.table && s.table[v].Loaded?
    ensures Inv(Write(s, v, p)) && View(Write(s, v, p)) == View(s)[v := p]
  {
    hide Frames, LocationsOk, View;
    LocationsShrink(s, Write(s, v, p));
    assert EntryOk(s, v);
    WriteEntries(s, v, p);
    WriteFrames(s, v, p);
  }

  /** The backing store gives up the copy of a loaded page to make room. */
  function Forget(s: State, f: Frame): State
    requires f in s.frames
  {
    s.(frames := s.frames[f := s.frames[f].(backed := false)])
  }

  lemma ForgetFrames(s: State, f: Frame)
    requires Frames(s) && f in s.frames
    ensures Frames(Forget(s, f))
  {
    var s' := Forget(s, f);
    forall g | g in s'.frames ensures FrameOk(s', g) {
      assert FrameOk(s, g);
    }
  }

  lemma ForgetKeeps(s: State, f: Frame)
    requires Inv(s) && f in s.frames
    ensures Inv(Forget(s, f)) && View(Forget(s, f)) == View(s)
  {
    hide Entries, Frames, LocationsOk, View;
    LocationsShrink(s, Forget(s, f));
    FlagsUnseen(s, Forget(s, f));
    ForgetFrames(s, f);
  }

  /** Unmapping a page: its frame, if it has one, goes back to the free list. */
  function Unmap(s: State, v: Virt): State
    requires v in s.table
  {
    var s1 := s.(table := s.table - {v});
    match s.table[v]
    case Stored(_) => s1
    case Loaded(f, _) => s1.(frames := s.frames[f := FREE], freeList := s.freeList + [f], evictable := s.evictable - {f})
  }

  lemma UnmapFrames(s: State, v: Virt)
    requires Inv(s) && v in s.table && EntryOk(s, v)
    ensures Frames(Unmap(s, v))
  {
    hide Entries, LocationsOk;
    var s' := Unmap(s, v);
    forall g | g in s'.frames ensures FrameOk(s', g) {
      assert FrameOk(s, g);
    }
  }

  lemma UnmapKeeps(s: State, v: Virt)
    requires Inv(s) && v in s.table && EntryOk(s, v)
    ensures Inv(Unmap(s, v)) && View(Unmap(s, v)) == View(s) - {v}
  {
    hide LocationsOk, Frames;
    UnmapFrames(s, v);
    var s' := Unmap(s, v);
    LocationsShrink(s, s');
    forall w | w in s'.table ensures EntryOk(s', w) && Content(s', w) == Content(s, w) {
      assert EntryOk(s, w);
    }
  }

  // ----- every run -----

  datatype Step =
    | DoEvict(f: Frame, l: Location)
    | DoLoad(v: Virt, pin: bool, keep: bool)
    | DoMap(v: Virt, lock: bool)
    | DoPin(f: Frame, pinned: bool)
    | DoWrite(v: Virt, p: Page)
    | DoForget(f: Frame)
    | DoUnmap(v: Virt)

  ghost predicate Enabled(s: State, step: Step) {
    match step
    case DoEvict(f, l) => CanEvict(s, f, l) && FrameOk(s, f)
    case DoLoad(v, _, _) => v in s.table && EntryOk(s, v) && s.table[v].Stored? && s.freeList != []
    case DoMap(v, _) => v !in s.table && s.freeList != []
    case DoPin(f, _) => f in s.frames && s.frames[f].mapped
    case DoWrite(v, _) => v in s.table && s.table[v].Loaded?
    case DoForget(f) => f in s.frames
    case DoUnmap(v) => v in s.table && EntryOk(s, v)
  }

  ghost function Do(s: State, step: Step): State {
    if !Enabled(s, step) then s
    else
      match step
      case DoEvict(f, l) => Evict(s, f, l)
      case DoLoad(v, pin, keep) => Load(s, v, pin, keep)
      case DoMap(v, lock) => MapNew(s, v, lock)
      case DoPin(f, pinned) => SetPinned(s, f, pinned)
      case DoWrite(v, p) => Write(s, v, p)
      case DoForget(f) => Forget(s, f)
      case DoUnmap(v) => Unmap(s, v)
  }

  ghost function RunAll(s: State, steps: seq<Step>): State
    decreases |steps|
  {
    if steps == [] then s else RunAll(Do(s, steps[0]), steps[1..])
  }

  /** A step keeps the invariant, and it changes what an address holds only when it is a
      write to that address or ends its mapping. */
  lemma StepTransparent(s: State, step: Step)
    requires Inv(s)
    ensures Inv(Do(s, step))
    ensures forall v :: v in s.table && (forall p :: step != DoWrite(v, p)) && step != DoUnmap(v) ==>
      v in Do(s, step).table && Content(Do(s, step), v) == Content(s, v)
    ensures step.DoWrite? && Enabled(s, step) ==>
      step.v in Do(s, step).table && Content(Do(s, step), step.v) == step.p
  {
    hide Inv, EntryOk, FrameOk, LocationFor, Content;
    if Enabled(s, step) {
      var s' := Do(s, step);
      match step
      case DoEvict(f, l) => EvictKeeps(s, f, l); SameView(s, s');
      case DoLoad(v, pin, keep) => LoadKeeps(s, v, pin, keep); SameView(s, s');
      case DoMap(v, lock) => MapNewKeeps(s, v, lock); SameView(s, s');
      case DoPin(f, pinned) => SetPinnedKeeps(s, f, pinned); SameView(s, s');
      case DoWrite(v, p) => WriteKeeps(s, v, p); SameView(s, s');
      case DoForget(f) => ForgetKeeps(s, f); SameView(s, s');
      case DoUnmap(v) => UnmapKeeps(s, v); SameView(s, s');
    }
  }

  lemma SameView(s: State, s': State)
    ensures forall v :: v in s.table && v in View(s') && View(s')[v] == View(s)[v] ==>
      v in s'.table && Content(s', v) == Content(s, v)
    ensures View(s).Keys == s.table.Keys && forall v :: v in s'.table ==> v in View(s') && Content(s', v) == View(s')[v]
  {
  }

  /** Paging is transparent. Whatever evictions, faults, pins, mappings, writes to other
      addresses and changes inside the backing store happen, in any order, an address
      holds what it held. */
  lemma {:induction false} RunTransparent(s: State, steps: seq<Step>, v: Virt)
    requires Inv(s) && v in s.table
    requires forall i :: 0 <= i < |steps| ==> !(steps[i].DoWrite? && steps[i].v == v) && steps[i] != DoUnmap(v)
    ensures Inv(RunAll(s, steps)) && v in RunAll(s, steps).table
    ensures Content(RunAll(s, steps), v) == Content(s, v)
    decreases |steps|
  {
    hide Inv, Do, Content;
    if steps != [] {
      StepTransparent(s, steps[0]);
      RunTransparent(Do(s, steps[0]), steps[1..], v);
    }
  }

  /** And the last write counts: it is what the address holds from then on. */
  lemma WriteThenRun(s: State, v: Virt, p: Page, steps: seq<Step>)
    requires Inv(s) && v in s.table && s.table[v].Loaded?
    requires forall i :: 0 <= i < |steps| ==> !(steps[i].DoWrite? && steps[i].v == v) && steps[i] != DoUnmap(v)
    ensures v in RunAll(Write(s, v, p), steps).table
    ensures Content(RunAll(Write(s, v, p), steps), v) == p
  {
    hide Inv, Do, Content;
    WriteKeeps(s, v, p);
    SameView(s, Write(s, v, p));
    RunTransparent(Write(s, v, p), steps, v);
  }

  /** In every reachable state the frames the eviction algorithm may choose from are exactly
      the mapped ones that are not pinned, and the free ones exactly those not mapped. */
  lemma {:induction false} TrackedExactly(s: State, steps: seq<Step>, f: Frame)
    requires Inv(s)
    ensures var s' := RunAll(s, steps);
      Inv(s') && (f in s'.frames ==>
        && (f in s'.evictable <==> s'.frames[f].mapped && !s'.frames[f].pinned)
        && (f in s'.freeList <==> !s'.frames[f].mapped))
    decreases |steps|
  {
    hide Do, LocationsOk, Entries;
    if steps == [] {
      assert f in s.frames ==> FrameOk(s, f);
    } else {
      StepTransparent(s, steps[0]);
      TrackedExactly(Do(s, steps[0]), steps[1..], f);
    }
  }

  ghost predicate PinnedAt(s: State, v: Virt, f: Frame) {
    v in s.table && s.table[v].Loaded? && s.table[v].frame == f && f in s.frames && s.frames[f].mapped
    && s.frames[f].pinned && s.frames[f].va == v
  }

  lemma StepKeepsPinned(s: State, step: Step, v: Virt, f: Frame)
    requires Inv(s) && PinnedAt(s, v, f) && step != DoPin(f, false) && step != DoUnmap(v)
    ensures PinnedAt(Do(s, step), v, f)
  {
    hide LocationFor, LocationsOk, Content;
    assert FrameOk(s, f);
    if step.DoUnmap? && step.v in s.table { assert EntryOk(s, step.v); }
    if (step.DoLoad? || step.DoMap?) && s.freeList != [] { HeadIsFree(s); }
  }

  /** A pinned page stays where it is: no run evicts or moves it before it is unpinned. */
  lemma {:induction false} RunKeepsPinned(s: State, steps: seq<Step>, v: Virt, f: Frame)
    requires Inv(s) && PinnedAt(s, v, f)
    requires forall i :: 0 <= i < |steps| ==> steps[i] != DoPin(f, false) && steps[i] != DoUnmap(v)
    ensures PinnedAt(RunAll(s, steps), v, f)
    decreases |steps|
  {
    hide Inv, Do, PinnedAt, Content;
    if steps != [] {
      StepTransparent(s, steps[0]);
      StepKeepsPinned(s, steps[0], v, f);
      RunKeepsPinned(Do(s, steps[0]), steps[1..], v, f);
    }
  }

  /** A page that was loaded, mapped or pinned to stay does so: from then on no run without an
      unpin of its frame or an unmap of the page evicts or moves it. */
  lemma PinnedFromThenOn(s: State, step: Step, v: Virt, steps: seq<Step>)
    requires Inv(s) && Enabled(s, step)
    requires match step
      case DoLoad(w, pin, _) => w == v && pin
      case DoMap(w, lock) => w == v && lock
      case DoPin(f, pinned) => s.frames[f].va == v && pinned
      case _ => false
    ensures var s1 := Do(s, step);
      v in s1.table && s1.table[v].Loaded? &&
      var f := s1.table[v].frame;
      && PinnedAt(s1, v, f) && f !in s1.evictable
      && ((forall i :: 0 <= i < |steps| ==> steps[i] != DoPin(f, false) && steps[i] != DoUnmap(v)) ==>
            PinnedAt(RunAll(s1, steps), v, f) && f !in RunAll(s1, steps).evictable)
  {
    hide RunAll, LocationsOk, Entries, Content;
    var s1 := Do(s, step);
    StepTransparent(s, step);
    if step.DoPin? { HaveRam(s, step.f); }
    var f := s1.table[v].frame;
    HaveRam(s1, f);
    if forall i :: 0 <= i < |steps| ==> steps[i] != DoPin(f, false) && steps[i] != DoUnmap(v) {
      RunKeepsPinned(s1, steps, v, f);
      TrackedExactly(s1, steps, f);
    }
  }

  /** And one that is not to stay can be evicted at once. */
  lemma NotPinnedIsTracked(s: State, step: Step, v: Virt)
    requires Inv(s) && Enabled(s, step)
    requires match step
      case DoLoad(w, pin, _) => w == v && !pin
      case DoMap(w, lock) => w == v && !lock
      case DoPin(f, pinned) => s.frames[f].va == v && !pinned
      case _ => false
    ensures var s1 := Do(s, step); v in s1.table && s1.table[v].Loaded? && s1.table[v].frame in s1.evictable
  {
    hide LocationsOk, Entries, Content;
    StepTransparent(s, step);
    if step.DoPin? { HaveRam(s, step.f); }
  }

  /** No page but that of `v` and of the frame that had to be vacated is touched. */
  ghost predicate Elsewhere(s: State, s': State, v: Virt, victim: Frame) {
    forall w :: w in s.table && w != v ==>
      w in s'.table && (s'.table[w] == s.table[w] || (s.freeList == [] && s.table[w].Loaded? && s.table[w].frame == victim))
  }

  /** The page is loaded, pinned if asked for and tracked otherwise. */
  ghost predicate LoadedAs(s: State, v: Virt, pin: bool) {
    v in s.table && s.table[v].Loaded? &&
    (if pin then PinnedAt(s, v, s.table[v].frame) && s.table[v].frame !in s.evictable else s.table[v].frame in s.evictable)
  }

  // ----- the source's operations -----

  /** The state in which a free frame is at hand: evicting the victim if none was. */
  function Vacated(s: State, victim: Frame, answer: Option<Location>): State {
    if s.freeList == [] && answer.Some? && victim in s.frames && s.frames[victim].va in s.table
       && s.table[s.frames[victim].va].Loaded? && victim in s.ram
    then Evict(s, victim, answer.value) else s
  }

  lemma VacatedKeeps(s: State, victim: Frame, answer: Option<Location>, v: Virt)
    requires Inv(s) && (s.freeList != [] || answer.Some?)
    requires s.freeList == [] ==> victim in s.evictable && LocationFor(s, victim, answer.value)
    ensures var s' := Vacated(s, victim, answer);
      && Inv(s') && View(s') == View(s) && s'.freeList != [] && s'.table.Keys == s.table.Keys
      && (v in s.table && s.table[v].Stored? ==> s'.table[v] == s.table[v])
  {
    hide Inv, LocationFor, View;
    if s.freeList == [] {
      TrackedFrame(s, victim);
      EvictKeeps(s, victim, answer.value);
    }
  }

  function Pinned(s: State, f: Frame): State {
    if f in s.frames && !s.frames[f].pinned then SetPinned(s, f, true) else s
  }

  function Unpinned(s: State, f: Frame): State {
    if f in s.frames && s.frames[f].pinned then SetPinned(s, f, false) else s
  }

  class MemoryManager {
    var frames: map<Frame, Info>
    var freeList: seq<Frame>
    var evictable: set<Frame>
    var table: map<Virt, Entry>
    var ram: map<Frame, Page>
    var store: map<Location, Page>
    ghost var home: map<Frame, Location>

    ghost function Abs(): State
      reads this
    {
      State(frames, freeList, evictable, table, ram, store, home)
    }

    ghost predicate Valid()
      reads this
    {
      Inv(Abs())
    }

    constructor (pages: map<Frame, Page>, order: seq<Frame>)
      requires forall f :: f in order <==> f in pages
      requires forall i, j :: 0 <= i < j < |order| ==> order[i] != order[j]
      ensures Valid() && table == map[] && freeList == order
    {
      frames := map f | f in pages :: FREE;
      freeList, evictable, table, ram, store, home := order, {}, map[], pages, map[], map[];
    }

    /** `free_page_frame_list_get`: no page is in the frame handed out, so that one can be
        put there; taking it off the list changes nothing else, not even its flags. */
    method FreeListGet() returns (f: Option<Frame>)
      requires Valid()
      modifies this`freeList, this`frames
      ensures f.None? <==> old(freeList) == []
      ensures f.Some? ==> f.value in frames && !frames[f.value].mapped && f.value !in evictable && f.value !in freeList
      ensures f.Some? ==> forall v :: v in table && table[v].Loaded? ==> table[v].frame != f.value
      ensures frames == old(frames) && old(freeList) == (if f.Some? then [f.value] else []) + freeList
    {
      if freeList == [] { return None; }
      HeadIsFree(Abs());
      NoPageIn(Abs(), freeList[0]);
      f := Some(freeList[0]);
      freeList := freeList[1..];
      frames := frames[f.value := FREE];
    }

    /** `page_frame_free_locked`, for a frame whose page has left it: all is as it should be
        again, and no address notices. */
    method FrameFree(f: Frame)
      requires Leaving(Abs(), f)
      modifies this`freeList, this`frames
      ensures Valid() && View(Abs()) == old(View(Abs())) && freeList == old(freeList) + [f]
      ensures Abs() == FreeFrame(old(Abs()), f)
    {
      hide Inv, Leaving, View;
      FreeFrameKeeps(Abs(), f);
      frames := frames[f := FREE];
      freeList := freeList + [f];
    }

    /** `page_frame_prepare_locked` for a mapped frame. `answer` is what the backing store
        says when asked for a location. No address leads to the frame any more; a page that
        is said not to need writing can be read from its location already. */
    method Prepare(f: Frame, dirty: bool, answer: Option<Location>) returns (ok: bool, dirty': bool)
      requires Valid() && f in frames && f in evictable && FrameOk(Abs(), f) && dirty == table[frames[f].va].dirty
      requires answer.Some? ==> LocationFor(Abs(), f, answer.value)
      modifies this`table, this`evictable
      ensures ok == answer.Some? && (!ok ==> Abs() == old(Abs()))
      ensures ok ==> forall v :: v in table && table[v].Loaded? ==> table[v].frame != f
      ensures ok && !dirty' ==> answer.value in store && store[answer.value] == Content(old(Abs()), frames[f].va)
      ensures ok ==>
        PageOut(old(Abs()), f, answer.value) == Abs().(store := if dirty' then store[answer.value := ram[f]] else store)
    {
      hide LocationsOk;
      if answer.Some? { PageOutEntries(Abs(), f, answer.value); }
      dirty' := dirty || !frames[f].backed;
      ok := answer.Some?;
      if ok {
        table := table[frames[f].va := Stored(answer.value)];
        evictable := evictable - {f};
      }
    }

    /** Evicts the page in a frame: `do_mem_evict` and `k_mem_page_frame_evict` past the
        checks they make first. */
    method EvictMapped(f: Frame, answer: Option<Location>) returns (ok: bool)
      requires Valid() && f in frames && frames[f].mapped && !frames[f].pinned
      requires answer.Some? ==> LocationFor(Abs(), f, answer.value)
      modifies this
      ensures Valid() && ok == answer.Some? && View(Abs()) == old(View(Abs()))
      ensures ok ==> Enabled(old(Abs()), DoEvict(f, answer.value)) && Abs() == Evict(old(Abs()), f, answer.value)
      ensures !ok ==> Abs() == old(Abs())
    {
      hide Entries, Frames, LocationsOk, LocationFor, View, Leaving, PageOut;
      HaveRam(Abs(), f);
      if answer.Some? { PageOutLeaves(Abs(), f, answer.value); }
      var dirty;
      ok, dirty := Prepare(f, table[frames[f].va].dirty, answer);
      if ok {
        if dirty { store := store[answer.value := ram[f]]; }
        assert Abs() == PageOut(old(Abs()), f, answer.value);
        FrameFree(f);
      }
    }

    /** `do_mem_evict`. */
    method EvictPage(v: Virt, answer: Option<Location>) returns (ok: bool)
      requires Valid() && v in table
      requires table[v].Loaded? ==> table[v].frame in frames && !frames[table[v].frame].pinned
      requires table[v].Loaded? && answer.Some? ==> LocationFor(Abs(), table[v].frame, answer.value)
      modifies this
      ensures Valid() && View(Abs()) == old(View(Abs())) && v in table
      ensures ok == (old(table)[v].Stored? || answer.Some?)
      ensures ok ==> table[v].Stored?
      ensures !ok || old(table)[v].Stored? ==> Abs() == old(Abs())
    {
      hide Frames, LocationsOk, LocationFor, View;
      assert EntryOk(Abs(), v);
      ok := true;
      if table[v].Loaded? {
        ok := EvictMapped(table[v].frame, answer);
      }
    }

    /** `k_mem_page_frame_evict`. */
    method EvictFrame(f: Frame, answer: Option<Location>) returns (ok: bool)
      requires Valid() && f in frames
      requires frames[f].mapped ==> !frames[f].pinned && (answer.Some? ==> LocationFor(Abs(), f, answer.value))
      modifies this
      ensures Valid() && View(Abs()) == old(View(Abs())) && f in frames
      ensures ok == (!old(frames)[f].mapped || answer.Some?)
      ensures ok ==> !frames[f].mapped
      ensures !ok || !old(frames)[f].mapped ==> Abs() == old(Abs())
    {
      hide Inv, LocationFor, View, FrameOk;
      ok := true;
      if frames[f].mapped {
        ok := EvictMapped(f, answer);
      }
    }

    /** Gets a frame to put a page in: a free one, or else the victim's. */
    method ObtainFrame(victim: Frame, answer: Option<Location>) returns (f: Option<Frame>)
      requires Valid()
      requires freeList == [] ==> victim in evictable && (answer.Some? ==> LocationFor(Abs(), victim, answer.value))
      modifies this
      ensures f.None? <==> old(freeList) == [] && answer.None?
      ensures f.None? ==> Abs() == old(Abs())
      ensures f.Some? && old(freeList) == [] ==> Enabled(old(Abs()), DoEvict(victim, answer.value))
      ensures f.Some? ==>
        var s := Vacated(old(Abs()), victim, answer);
        s.freeList != [] && f.value == s.freeList[0] && Abs() == s.(freeList := s.freeList[1..])
    {
      hide Entries, Frames, LocationsOk, LocationFor;
      if freeList == [] { TrackedFrame(Abs(), victim); } else { HeadIsFree(Abs()); }
      f := FreeListGet();
      if f.None? {
        var ok, dirty := Prepare(victim, table[frames[victim].va].dirty, answer);
        if ok {
          if dirty { store := store[answer.value := ram[victim]]; }
          frames := frames[victim := FREE];
          f := Some(victim);
        }
      }
    }

    /** `do_page_fault`. `victim` and `answer` are what the eviction algorithm and the
        backing store choose when no frame is free, `keep` whether the store keeps its
        copy of the page it delivers. */
    method PageFault(v: Virt, pin: bool, victim: Frame, answer: Location, keep: bool) returns (result: bool)
      requires Valid()
      requires v in table && table[v].Stored? && freeList == [] ==> victim in evictable && LocationFor(Abs(), victim, answer)
      modifies this
      ensures Valid() && View(Abs()) == old(View(Abs())) && result == (v in old(table))
      ensures result ==> v in table && table[v].Loaded? && Elsewhere(old(Abs()), Abs(), v, victim)
      ensures result && (pin || old(table)[v].Stored?) ==> LoadedAs(Abs(), v, pin)
      ensures (result ==> !pin && old(table)[v].Loaded?) ==> Abs() == old(Abs())
      ensures result && old(table)[v].Loaded? ==>
        Abs() == if pin then Pinned(old(Abs()), old(table)[v].frame) else old(Abs())
      ensures result && old(table)[v].Stored? ==>
        var s := Vacated(old(Abs()), victim, Some(answer));
        Enabled(s, DoLoad(v, pin, keep)) && Abs() == Load(s, v, pin, keep)
    {
      hide Entries, Frames, LocationsOk, LocationFor, View;
      if v !in table { return false; }
      result := true;
      MappedEntry(Abs(), v);
      match table[v] {
        case Loaded(f, _) =>
          HaveRam(Abs(), f);
          if pin && !frames[f].pinned {
            SetPinnedKeeps(Abs(), f, true);
            evictable := evictable - {f};
            frames := frames[f := frames[f].(pinned := true)];
          }
        case Stored(source) => LoadPage(v, source, pin, victim, answer, keep);
      }
    }

    /** The part of `do_page_fault` that brings the page in. */
    method LoadPage(v: Virt, source: Location, pin: bool, victim: Frame, answer: Location, keep: bool)
      requires Valid() && v in table && table[v] == Stored(source)
      requires freeList == [] ==> victim in evictable && LocationFor(Abs(), victim, answer)
      modifies this
      ensures Valid() && View(Abs()) == old(View(Abs())) && LoadedAs(Abs(), v, pin) && Elsewhere(old(Abs()), Abs(), v, victim)
      ensures var s := Vacated(old(Abs()), victim, Some(answer));
        Enabled(s, DoLoad(v, pin, keep)) && Abs() == Load(s, v, pin, keep)
    {
      hide Entries, Frames, LocationsOk, LocationFor, View, Evict, LoadedAs, Elsewhere;
      ghost var s := Vacated(Abs(), victim, Some(answer));
      VacatedKeeps(Abs(), victim, Some(answer), v);
      MappedEntry(s, v);
      LoadKeeps(s, v, pin, keep);
      LoadedIs(s, v, pin, keep);
      VacatedElsewhere(Abs(), victim, Some(answer), v);
      OnlyThere(Abs(), s, Load(s, v, pin, keep), v, victim);
      var got := ObtainFrame(victim, Some(answer));
      var f := got.value;
      ram := ram[f := store[source]];
      frames := frames[f := Info(true, pin, keep, v)];
      table := table[v := Loaded(f, false)];
      home := home[f := source];
      if !pin { evictable := evictable + {f}; }
      assert Abs() == Load(s, v, pin, keep);
    }

    /** `map_anon_page`. */
    method MapAnon(v: Virt, lock: bool, victim: Frame, answer: Option<Location>) returns (ok: bool)
      requires Valid() && v !in table
      requires freeList == [] ==> victim in evictable && (answer.Some? ==> LocationFor(Abs(), victim, answer.value))
      modifies this
      ensures Valid() && ok == (old(freeList) != [] || answer.Some?)
      ensures !ok ==> Abs() == old(Abs())
      ensures ok ==> LoadedAs(Abs(), v, lock) && Elsewhere(old(Abs()), Abs(), v, victim) && View(Abs()) - {v} == old(View(Abs()))
      ensures ok ==>
        var s := Vacated(old(Abs()), victim, answer);
        Enabled(s, DoMap(v, lock)) && Abs() == MapNew(s, v, lock)
    {
      hide Entries, Frames, LocationsOk, LocationFor, View, Evict, LoadedAs, Elsewhere;
      ghost var s := Vacated(Abs(), victim, answer);
      if freeList != [] || answer.Some? {
        VacatedKeeps(Abs(), victim, answer, v);
        MapNewKeeps(s, v, lock);
        MapNewView(s, v, lock);
        MappedIs(s, v, lock);
        VacatedElsewhere(Abs(), victim, answer, v);
        OnlyThere(Abs(), s, MapNew(s, v, lock), v, victim);
      }
      var got := ObtainFrame(victim, answer);
      ok := got.Some?;
      if ok {
        var f := got.value;
        frames := frames[f := Info(true, lock, false, v)];
        table := table[v := Loaded(f, false)];
        if !lock { evictable := evictable + {f}; }
        assert Abs() == MapNew(s, v, lock);
      }
    }

    /** `do_mem_unpin`. */
    method Unpin(v: Virt)
      requires Valid() && v in table
      modifies this`frames, this`evictable
      ensures Valid() && View(Abs()) == old(View(Abs()))
      ensures table[v].Loaded? ==> Abs() == Unpinned(old(Abs()), table[v].frame) && LoadedAs(Abs(), v, false)
      ensures table[v].Stored? ==> Abs() == old(Abs())
    {
      hide Entries, Frames, LocationsOk, View;
      MappedEntry(Abs(), v);
      if table[v].Loaded? {
        var f := table[v].frame;
        HaveRam(Abs(), f);
        if frames[f].pinned {
          SetPinnedKeeps(Abs(), f, false);
          frames := frames[f := frames[f].(pinned := false)];
          evictable := evictable + {f};
        }
      }
    }
  }

  lemma LoadedIs(s: State, v: Virt, pin: bool, keep: bool)
    requires Frames(s) && v in s.table && s.table[v].Stored? && s.table[v].location in s.store && s.freeList != []
    ensures LoadedAs(Load(s, v, pin, keep), v, pin)
  {
    HeadIsFree(s);
  }

  lemma MappedIs(s: State, v: Virt, lock: bool)
    requires Frames(s) && s.freeList != []
    ensures LoadedAs(MapNew(s, v, lock), v, lock)
  {
    HeadIsFree(s);
  }

  lemma OnlyThere(s0: State, s: State, s': State, v: Virt, victim: Frame)
    requires Elsewhere(s0, s, v, victim) && v in s'.table && s'.table == s.table[v := s'.table[v]]
    ensures Elsewhere(s0, s', v, victim)
  {
  }

  lemma VacatedElsewhere(s: State, victim: Frame, answer: Option<Location>, v: Virt)
    requires Inv(s) && (s.freeList == [] ==> victim in s.evictable)
    ensures Elsewhere(s, Vacated(s, victim, answer), v, victim)
  {
    hide LocationsOk;
    if s.freeList == [] { TrackedFrame(s, victim); }
  }

  lemma MappedEntry(s: State, v: Virt)
    requires Inv(s) && v in s.table
    ensures EntryOk(s, v)
  {
  }

  lemma NoPageIn(s: State, f: Frame)
    requires Inv(s) && f in s.freeList
    ensures f !in s.evictable && forall v :: v in s.table && s.table[v].Loaded? ==> s.table[v].frame != f
  {
    assert f in s.frames && FrameOk(s, f);
    forall v | v in s.table && s.table[v].Loaded? ensures s.table[v].frame != f {
      assert EntryOk(s, v);
    }
  }

  lemma TrackedFrame(s: State, f: Frame)
    requires Inv(s) && f in s.evictable
    ensures f in s.frames && FrameOk(s, f) && s.frames[f].mapped && !s.frames[f].pinned
  {
    assert FrameOk(s, f);
  }

  lemma MapNewView(s: State, v: Virt, lock: bool)
    requires Inv(s) && v !in s.table && s.freeList != []
    ensures View(MapNew(s, v, lock)) - {v} == View(s)
  {
    hide Inv, Content, MapNew;
    MapNewKeeps(s, v, lock);
  }
}
