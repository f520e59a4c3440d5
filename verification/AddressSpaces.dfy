/**
 Over every run of Brk, stack faults, Fork, Exec, Exit and context switches: frames have one
 owner, processes are isolated from each other, Fork copies, and a process that is switched
 out finds its kernel stack, contexts and page table again when it is switched back in.
 */
module AddressSpaces {
  import opened Memory
  import opened Frames

  // ----- the invariant ---------------------------------------------------------------

  /** The kernel's own frames stay put: frame 0 (so that a grabbed 0 means "none left"), the
      running kernel stack, and the saved initial stack. */
  ghost predicate Anchored(m: Mem)
    requires KernelPages(m)
  {
    && m.kpt[0].valid && m.kpt[0].pfn == 0
    && m.kpt[STACK0].valid && m.kpt[STACK0 + 1].valid
    && m.initial[0].valid && m.initial[1].valid
  }

  /** A live process has both kernel stack pages or, before its first turn, neither, and its
      saved kernel context is its own; an exited one has nothing. */
  ghost predicate SpaceOk(m: Mem, p: int)
    requires Shape(m) && 0 <= p < |m.spaces|
  {
    var x := m.spaces[p];
    && (x.alive ==> x.kst[0].valid == x.kst[1].valid == (x.kst[0].pfn != 0))
    && (x.kctx.InSwitch? ==> x.kctx.owner == p)
    && (!x.alive ==> !x.kst[0].valid && !x.kst[1].valid && forall i :: 0 <= i < TABLE ==> !x.upt[i].valid)
  }

  ghost predicate FrameInv(m: Mem) {
    && Shape(m) && Exclusive(m) && Anchored(m)
    && forall p :: 0 <= p < |m.spaces| ==> SpaceOk(m, p)
  }

  /** The running process is alive, has a kernel stack, and its page table is installed. */
  ghost predicate MemInv(m: Mem) {
    && FrameInv(m)
    && m.spaces[m.active].alive && m.spaces[m.active].kst[0].valid && m.installed == m.active
  }

  ghost predicate NoMore(m: Mem, r: Mem) {
    forall f :: Uses(r, f) <= Uses(m, f)
  }

  ghost predicate NoneLost(m: Mem, r: Mem) {
    forall f :: Uses(r, f) == Uses(m, f)
  }

  /** The 0 that `grab_a_frame` returns means exactly "no frame left". */
  lemma ZeroMeansEmpty(m: Mem)
    requires FrameInv(m)
    ensures FrameTaken(m) == 0 <==> m.free == []
    ensures 0 !in m.free
  {
    OwnedNotFree(m, KernelPage(0), 0);
  }

  /** A change confined to the page table of a live process. */
  lemma TableChangeKeeps(m: Mem, r: Mem, p: int)
    requires FrameInv(m) && OnlyTable(m, r, p) && m.spaces[p].alive && NoMore(m, r)
    ensures FrameInv(r) && (MemInv(m) ==> MemInv(r))
  {
    hide Uses;
    forall f ensures Uses(r, f) <= 1 {
      assert Uses(m, f) <= 1;
    }
    forall q | 0 <= q < |r.spaces| ensures SpaceOk(r, q) {
      assert SpaceOk(m, q);
    }
  }

  /** A change of bounds and contexts only. */
  lemma BoundsChangeKeeps(m: Mem, p: int, x: Space)
    requires FrameInv(m) && 0 <= p < |m.spaces|
    requires x == m.spaces[p].(nextHeap := x.nextHeap, nextStack := x.nextStack, uctx := x.uctx, kctx := x.kctx)
    requires 0 <= x.nextHeap <= TABLE && -1 <= x.nextStack < TABLE
    requires x.kctx == m.spaces[p].kctx || x.kctx == AtStart || (x.kctx.InSwitch? && x.kctx.owner == p)
    ensures FrameInv(SetSpace(m, p, x)) && (MemInv(m) ==> MemInv(SetSpace(m, p, x)))
    ensures NoneLost(m, SetSpace(m, p, x))
  {
    hide Uses;
    var r := SetSpace(m, p, x);
    forall f ensures Uses(r, f) == Uses(m, f) {
      SetSpaceUses(m, p, x, f);
    }
    forall f ensures Uses(r, f) <= 1 {
      assert Uses(m, f) <= 1;
    }
    forall q | 0 <= q < |r.spaces| ensures SpaceOk(r, q) {
      assert SpaceOk(m, q);
    }
  }

  /** A change of memory contents, registers and the installed table only. */
  lemma ContentsChangeKeeps(m: Mem, r: Mem)
    requires FrameInv(m)
    requires r == m.(phys := r.phys, active := r.active, installed := r.installed, uctx := r.uctx, kregs := r.kregs)
    requires 0 <= r.active < |m.spaces|
    ensures FrameInv(r) && NoneLost(m, r)
  {
    hide HeldIn, InSpaces;
    forall f ensures Uses(r, f) == Uses(m, f) {
    }
    forall f ensures Uses(r, f) <= 1 {
      assert Uses(m, f) <= 1;
    }
    forall q | 0 <= q < |r.spaces| ensures SpaceOk(r, q) {
      assert SpaceOk(m, q);
    }
  }

  // ----- Brk, stack growth, kernel heap --------------------------------------------------

  lemma BrkKeeps(m: Mem, addr: int)
    requires MemInv(m) && Enabled(m, EBrk(addr))
    ensures MemInv(Step(m, EBrk(addr))) && NoMore(m, Step(m, EBrk(addr)))
  {
    hide Uses, Exclusive;
    BrkInTable(addr);
    var a := m.active;
    var d := MapUp(m, a, m.spaces[a].nextHeap, BrkPage(addr));
    forall f ensures Uses(d.m, f) <= Uses(m, f) {
      MapUpUses(m, a, m.spaces[a].nextHeap, BrkPage(addr), f);
    }
    TableChangeKeeps(m, d.m, a);
    BoundsChangeKeeps(d.m, a, d.m.spaces[a].(nextHeap := BrkPage(addr)));
  }

  lemma {:induction false} MapUpStops(m: Mem, p: int, i: int, end: int)
    requires 0 <= i && 0 <= p < |m.spaces| && end <= |m.spaces[p].upt| && |m.free| < end - i
    ensures MapUp(m, p, i, end) == Done(MapUp(m, p, i, i + |m.free|).m, false) && MapUp(m, p, i, i + |m.free|).ok
    decreases end - i
  {
    if m.free != [] {
      var m1 := MapUser(m, p, i, READ_WRITE);
      MapUpStops(m1, p, i + 1, end);
      assert i + 1 + |m1.free| == i + |m.free|;
    }
  }

  /** The page above the last one that a Brk gets to map: all it wants, or as many as there are frames. */
  function BrkReaches(m: Mem, addr: int): int
    requires Shape(m)
  {
    var lo := m.spaces[m.active].nextHeap;
    if |m.free| < BrkPage(addr) - lo then lo + |m.free| else BrkPage(addr)
  }

  /** A Brk, successful or not, loses a frame if and only if some page it gets to map is mapped already. */
  lemma BrkLosesIff(m: Mem, addr: int)
    requires MemInv(m) && Enabled(m, EBrk(addr))
    ensures NoneLost(m, Step(m, EBrk(addr))) <==>
            forall i :: m.spaces[m.active].nextHeap <= i < BrkReaches(m, addr) ==> !m.spaces[m.active].upt[i].valid
  {
    hide Uses, Exclusive, SpaceOk;
    BrkInTable(addr);
    var a, lo, hi := m.active, m.spaces[m.active].nextHeap, BrkReaches(m, addr);
    var t := m.spaces[a].upt;
    forall f ensures Uses(Step(m, EBrk(addr)), f) == Uses(m, f) - Range(t, lo, hi, f) {
      BrkUses(m, addr, f);
    }
    if i :| lo <= i < hi && t[i].valid {
      RangeHolds(t, lo, hi, i);
      assert Range(t, lo, hi, t[i].pfn) >= 1;
    } else {
      forall f ensures Range(t, lo, hi, f) == 0 {
        RangeBlank(t, lo, hi, f);
      }
    }
  }

  lemma BrkUses(m: Mem, addr: int, f: int)
    requires MemInv(m) && Enabled(m, EBrk(addr))
    ensures BrkReaches(m, addr) <= TABLE
    ensures Uses(Step(m, EBrk(addr)), f) ==
            Uses(m, f) - Range(m.spaces[m.active].upt, m.spaces[m.active].nextHeap, BrkReaches(m, addr), f)
  {
    hide Uses, Exclusive, SpaceOk, MapUp;
    BrkInTable(addr);
    var a, lo, hi := m.active, m.spaces[m.active].nextHeap, BrkPage(addr);
    if |m.free| < hi - lo {
      MapUpStops(m, a, lo, hi);
    } else if lo <= hi {
      MapUpFree(m, a, lo, hi);
    } else {
      MapUpNothing(m, a, lo, hi);
    }
    MapUpUses(m, a, lo, BrkReaches(m, addr), f);
    var d := MapUp(m, a, lo, BrkReaches(m, addr)).m;
    SetSpaceUses(d, a, d.spaces[a].(nextHeap := hi), f);
  }

  lemma MapUpNothing(m: Mem, p: int, i: int, end: int)
    requires 0 <= i && 0 <= p < |m.spaces| && end <= |m.spaces[p].upt| && end <= i
    ensures MapUp(m, p, i, end) == Done(m, true)
  {
  }

  lemma {:induction false} RangeHolds(s: seq<Pte>, lo: int, hi: int, i: int)
    requires 0 <= lo <= i < hi <= |s| && s[i].valid
    ensures Range(s, lo, hi, s[i].pfn) >= 1
    decreases hi - lo
  {
    if lo < i {
      RangeHolds(s, lo + 1, hi, i);
    }
  }

  lemma GrowKeeps(m: Mem, addr: int)
    requires MemInv(m) && Enabled(m, EGrow(addr))
    ensures MemInv(Step(m, EGrow(addr))) && NoMore(m, Step(m, EGrow(addr)))
  {
    hide Uses, Exclusive;
    var a := m.active;
    var d := MapDown(m, a, m.spaces[a].nextStack, FaultPage(addr));
    forall f ensures Uses(d, f) <= Uses(m, f) {
      MapDownUses(m, a, m.spaces[a].nextStack, FaultPage(addr), f);
    }
    TableChangeKeeps(m, d, a);
    BoundsChangeKeeps(d, a, d.spaces[a].(nextStack := FaultPage(addr)));
  }

  /** When frames run out in the middle of a stack growth the handler maps frame 0, which
      the kernel owns: exclusivity survives exactly when there are frames enough. */
  lemma GrowNeedsFrames(m: Mem, addr: int)
    requires MemInv(m) && GrowsStack(m.spaces[m.active], addr)
    ensures Exclusive(Grow(m, addr)) <==> |m.free| >= m.spaces[m.active].nextStack - FaultPage(addr)
  {
    hide Uses;
    var a, hi, lo := m.active, m.spaces[m.active].nextStack, FaultPage(addr);
    if |m.free| >= hi - lo {
      assert Enabled(m, EGrow(addr));
      GrowKeeps(m, addr);
    } else {
      var r := Grow(m, addr);
      MapDownZero(m, a, hi, lo);
      assert Owns(r, UserPage(a, lo + 1), 0) && Owns(r, KernelPage(0), 0);
      if Exclusive(r) {
        OneOwner(r, UserPage(a, lo + 1), KernelPage(0), 0);
      }
    }
  }

  lemma {:induction false} MapDownZero(m: Mem, p: int, i: int, end: int)
    requires 0 <= end + 1 && 0 <= p < |m.spaces| && i < |m.spaces[p].upt| && |m.free| < i - end
    ensures MapDown(m, p, i, end).spaces[p].upt[end + 1].valid && MapDown(m, p, i, end).spaces[p].upt[end + 1].pfn == 0
    decreases i - end
  {
    var m1 := MapUser(m, p, i, READ_WRITE);
    if i == end + 1 {
      assert m.free == [] && MapDown(m, p, i, end) == MapDown(m1, p, i - 1, end);
    } else {
      MapDownZero(m1, p, i - 1, end);
    }
  }

  lemma {:induction false} MapKernelUpTable(m: Mem, i: int, end: int)
    requires 0 <= i && end <= |m.kpt|
    ensures var r := MapKernelUp(m, i, end).m;
            && r == m.(kpt := r.kpt, free := r.free) && |r.kpt| == |m.kpt|
            && (forall j :: 0 <= j < |m.kpt| && (j < i || j >= end) ==> r.kpt[j] == m.kpt[j])
    decreases end - i
  {
    if i < end && m.free != [] {
      MapKernelUpTable(MapKernel(m, i), i + 1, end);
    }
  }

  lemma KernelBrkKeeps(m: Mem, end: int)
    requires MemInv(m)
    ensures MemInv(Step(m, EKernelBrk(end))) && NoMore(m, Step(m, EKernelBrk(end)))
  {
    hide HeldIn, InSpaces;
    var r := KernelBrk(m, end).m;
    if m.brk < end < STACK0 {
      MapKernelUpTable(m, m.brk, end);
      forall f ensures Uses(r, f) <= Uses(m, f) {
        MapKernelUpUses(m, m.brk, end, f);
      }
      forall f ensures Uses(r, f) <= 1 {
        assert Uses(m, f) <= 1;
      }
      forall q | 0 <= q < |r.spaces| ensures SpaceOk(r, q) {
        assert SpaceOk(m, q);
      }
    }
  }

  // ----- kernel stacks and switching ---------------------------------------------------------

  /** Giving a process without a kernel stack its two pages. */
  lemma InitStackKeeps(m: Mem, p: int)
    requires FrameInv(m) && 0 <= p < |m.spaces| && m.spaces[p].alive && !m.spaces[p].kst[0].valid && |m.free| >= 2
    ensures FrameInv(InitStack(m, p)) && NoneLost(m, InitStack(m, p)) && InitStack(m, p).spaces[p].kst[0].valid
    ensures InitFrame(m, InitStack(m, p), p)
  {
    hide Uses, Exclusive;
    assert SpaceOk(m, p);
    ZeroMeansEmpty(m);
    var m1 := SetSpace(m, p, m.spaces[p].(kctx := AtStart));
    var m2 := MapStack(m1, p, 0);
    var r := MapStack(m2, p, 1);
    BoundsChangeKeeps(m, p, m.spaces[p].(kctx := AtStart));
    forall f ensures Uses(r, f) == Uses(m, f) {
      MapStackUses(m1, p, 0, f);
      MapStackUses(m2, p, 1, f);
    }
    ExclusiveSame(m, r);
    forall q | 0 <= q < |r.spaces| ensures SpaceOk(r, q) {
      assert SpaceOk(m, q);
    }
  }

  lemma ExclusiveSame(m: Mem, r: Mem)
    requires Exclusive(m) && NoMore(m, r)
    ensures Exclusive(r)
  {
    hide Uses;
    forall f ensures Uses(r, f) <= 1 {
      assert Uses(m, f) <= 1;
    }
  }

  /** r is m with kernel stack pages for p, taken off the free list. */
  ghost predicate InitFrame(m: Mem, r: Mem, p: int) {
    && 0 <= p < |m.spaces| && |r.spaces| == |m.spaces| && |m.free| >= 2
    && r == m.(free := m.free[2..], phys := r.phys,
               spaces := m.spaces[p := m.spaces[p].(kst := r.spaces[p].kst, kctx := AtStart)])
    && (forall g :: g !in m.free ==> PageAt(r, g) == PageAt(m, g))
    && |r.spaces[p].kst| == 2 && r.spaces[p].kst[0].pfn == m.free[0] && r.spaces[p].kst[1].pfn == m.free[1]
  }

  /** The state in which the stacks are exchanged: new process active, old one's user context
      saved, new one's kernel stack there. */
  function Prepared(m: Mem, next: int, save: bool): Mem
    requires Shape(m) && 0 <= next < |m.spaces|
  {
    var was := m.active;
    var m1 := m.(active := next);
    var m2 := if save then SetSpace(m1, was, m1.spaces[was].(uctx := m.uctx)) else m1;
    if m2.spaces[next].kst[0].pfn == 0 then InitStack(m2, next) else m2
  }

  lemma PreparedKeeps(m: Mem, next: int, save: bool)
    requires FrameInv(m) && CanSwitch(m, next)
    ensures FrameInv(Prepared(m, next, save)) && NoneLost(m, Prepared(m, next, save))
    ensures var r := Prepared(m, next, save);
            r.active == next && r.spaces[next].kst[0].valid && r.spaces[next].alive && |r.spaces| == |m.spaces|
  {
    hide Uses, Exclusive, InitStack;
    var was := m.active;
    var m1 := m.(active := next);
    ContentsChangeKeeps(m, m1);
    BoundsChangeKeeps(m1, was, m1.spaces[was].(uctx := m.uctx));
    var m2 := if save then SetSpace(m1, was, m1.spaces[was].(uctx := m.uctx)) else m1;
    assert SpaceOk(m2, next);
    if m2.spaces[next].kst[0].pfn == 0 {
      InitStackKeeps(m2, next);
    }
  }

  lemma SwitchKeeps(m: Mem, next: int, save: bool)
    requires FrameInv(m) && CanSwitch(m, next)
    ensures MemInv(SwitchTo(m, next, save)) && NoneLost(m, SwitchTo(m, next, save))
    ensures SwitchTo(m, next, save).active == next
  {
    hide Uses, Exclusive, Prepared;
    PreparedKeeps(m, next, save);
    SwitchIs(m, next, save);
    ExchangeKeeps(Prepared(m, next, save), m.active, next, save);
  }

  lemma SwitchIs(m: Mem, next: int, save: bool)
    requires FrameInv(m) && CanSwitch(m, next)
    ensures var r := Prepared(m, next, save);
            && KernelPages(r) && |r.spaces[next].kst| == 2 && |r.spaces[m.active].kst| == 2
            && SwitchTo(m, next, save) == Exchanged(r, m.active, next, save)
  {
    hide Exclusive, SpaceOk, SaveKernel, RestoreStack, GoOn;
  }

  /** The two stack copies and what follows. */
  function Exchanged(m: Mem, was: int, next: int, save: bool): Mem
    requires KernelPages(m) && 0 <= was < |m.spaces| && 0 <= next < |m.spaces|
    requires |m.spaces[was].kst| == 2 && |m.spaces[next].kst| == 2
  {
    var m4 := if save then SaveKernel(m, was) else m;
    GoOn(RestoreStack(m4, next), m4.spaces[next].kctx)
  }

  lemma ExchangeKeeps(m: Mem, was: int, next: int, save: bool)
    requires FrameInv(m) && m.active == next && 0 <= was < |m.spaces|
    requires m.spaces[next].alive && m.spaces[next].kst[0].valid
    ensures MemInv(Exchanged(m, was, next, save)) && NoneLost(m, Exchanged(m, was, next, save))
    ensures Exchanged(m, was, next, save).active == next
  {
    hide Uses, Exclusive;
    var k := m.spaces[was].(kctx := InSwitch(was, m.kregs));
    BoundsChangeKeeps(m, was, k);
    var m4 := if save then SaveKernel(m, was) else m;
    if save {
      ContentsChangeKeeps(SetSpace(m, was, k), m4);
    }
    assert SpaceOk(m4, next);
    ContentsChangeKeeps(m4, Exchanged(m, was, next, save));
  }

  // ----- Exec ------------------------------------------------------------------------------------

  lemma {:induction false} TryDownIs(m: Mem, p: int, i: int, end: int)
    requires -1 <= end <= i && 0 <= p < |m.spaces| && i < |m.spaces[p].upt|
    ensures if |m.free| >= i - end then TryDown(m, p, i, end) == Done(MapDown(m, p, i, end), true)
            else TryDown(m, p, i, end) == Done(MapDown(m, p, i, i - |m.free|), false)
    decreases i - end
  {
    if i > end && m.free != [] {
      TryDownIs(MapUser(m, p, i, READ_WRITE), p, i - 1, end);
    }
  }

  /** A load succeeds if and only if there are frames for all its pages, those of the old program included. */
  lemma LoadNeedsFrames(m: Mem, p: int, img: Image)
    requires 0 <= p < |m.spaces| && |m.spaces[p].upt| == TABLE && ImageFits(img)
    ensures TryLoad(m, p, img).ok <==> |m.free| + Used(m.spaces[p].upt) >= img.textPages + img.dataPages + img.stackPages
    ensures TryLoad(m, p, img).ok ==> TryLoad(m, p, img).m == Load(m, p, img)
  {
    hide FreeUserFrom, MapUp, MapDown, Protect, TryDown, Used;
    var m1 := FreeUserFrom(m, p, 0);
    FreeUserCount(m, p);
    MapUpFree(m1, p, img.textPage, img.textPage + img.textPages);
    var m2 := MapUp(m1, p, img.textPage, img.textPage + img.textPages).m;
    MapUpFree(m2, p, img.dataPage, img.dataPage + img.dataPages);
    var m3 := MapUp(m2, p, img.dataPage, img.dataPage + img.dataPages).m;
    TryDownIs(m3, p, TABLE - 1, TABLE - 1 - img.stackPages);
  }

  /** Mapping into empty entries loses nothing, however far it gets. */
  lemma TryMapUses(m: Mem, p: int, img: Image, f: int)
    requires 0 <= p < |m.spaces| && |m.spaces[p].upt| == TABLE && ImageFits(img)
    requires forall j :: 0 <= j < TABLE ==> !m.spaces[p].upt[j].valid
    ensures Uses(TryMap(m, p, img).m, f) == Uses(m, f)
  {
    hide Uses, MapUp, TryDown;
    SectionMapped(m, p, img.textPage, img.textPage + img.textPages, f);
    var t := MapUp(m, p, img.textPage, img.textPage + img.textPages);
    SectionMapped(t.m, p, img.dataPage, img.dataPage + img.dataPages, f);
    var d := MapUp(t.m, p, img.dataPage, img.dataPage + img.dataPages);
    var end := TABLE - 1 - img.stackPages;
    TryDownIs(d.m, p, TABLE - 1, end);
    var lo := if |d.m.free| >= img.stackPages then end else TABLE - 1 - |d.m.free|;
    MapDownUses(d.m, p, TABLE - 1, lo, f);
    RangeBlank(d.m.spaces[p].upt, lo + 1, TABLE, f);
  }

  lemma SectionMapped(m: Mem, p: int, lo: int, hi: int, f: int)
    requires 0 <= p < |m.spaces| && |m.spaces[p].upt| == TABLE && 0 <= lo <= hi <= TABLE
    requires forall j :: lo <= j < TABLE ==> !m.spaces[p].upt[j].valid
    ensures Uses(MapUp(m, p, lo, hi).m, f) == Uses(m, f)
    ensures forall j :: hi <= j < TABLE ==> !MapUp(m, p, lo, hi).m.spaces[p].upt[j].valid
  {
    hide Uses, MapUp;
    MapUpUses(m, p, lo, hi, f);
    RangeBlank(m.spaces[p].upt, lo, hi, f);
    forall j | hi <= j < TABLE ensures !MapUp(m, p, lo, hi).m.spaces[p].upt[j].valid {
      MapUpTable(m, p, lo, hi, j);
    }
  }

  /** A load keeps frames exclusive and loses none, also one that runs out of frames half way. */
  lemma LoadKeeps(m: Mem, p: int, img: Image)
    requires FrameInv(m) && 0 <= p < |m.spaces| && m.spaces[p].alive && ImageFits(img)
    ensures var r := TryLoad(m, p, img).m; FrameInv(r) && NoneLost(m, r) && (MemInv(m) ==> MemInv(r))
  {
    hide Uses, Exclusive, FreeUserFrom, TryMap, Used, Protect;
    var m1 := FreeUserFrom(m, p, 0);
    var d := TryMap(m1, p, img);
    var m5 := if d.ok then Protect(d.m, p, img.textPage, img.textPage + img.textPages) else d.m;
    forall j | 0 <= j < TABLE ensures !m1.spaces[p].upt[j].valid {
      FreeUserTable(m, p, 0, j);
    }
    forall f ensures Uses(m5, f) == Uses(m, f) {
      FreeUserUses(m, p, 0, f);
      TryMapUses(m1, p, img, f);
      ProtectUses(d.m, p, img.textPage, img.textPage + img.textPages, f);
    }
    TableChangeKeeps(m, m5, p);
    BoundsChangeKeeps(m5, p, TryLoad(m, p, img).m.spaces[p]);
  }

  lemma MapImageUses(m: Mem, p: int, img: Image, f: int)
    requires 0 <= p < |m.spaces| && |m.spaces[p].upt| == TABLE && ImageFits(img)
    requires |m.free| >= img.textPages + img.dataPages + img.stackPages
    requires forall j :: 0 <= j < TABLE ==> !m.spaces[p].upt[j].valid
    ensures Uses(MapImage(m, p, img), f) == Uses(m, f)
  {
    hide Uses, MapUp, MapDown, Protect;
    var text := img.textPage;
    var m2 := MapUp(m, p, text, text + img.textPages).m;
    SectionUses(m, p, text, text + img.textPages, f);
    var m3 := MapUp(m2, p, img.dataPage, img.dataPage + img.dataPages).m;
    SectionUses(m2, p, img.dataPage, img.dataPage + img.dataPages, f);
    var m4 := MapDown(m3, p, TABLE - 1, TABLE - 1 - img.stackPages);
    MapDownUses(m3, p, TABLE - 1, TABLE - 1 - img.stackPages, f);
    RangeBlank(m3.spaces[p].upt, TABLE - img.stackPages, TABLE, f);
    ProtectUses(m4, p, text, text + img.textPages, f);
  }

  /** Mapping a section into empty entries loses nothing and leaves the later ones empty. */
  lemma SectionUses(m: Mem, p: int, lo: int, hi: int, f: int)
    requires 0 <= p < |m.spaces| && |m.spaces[p].upt| == TABLE && 0 <= lo <= hi <= TABLE && |m.free| >= hi - lo
    requires forall j :: lo <= j < TABLE ==> !m.spaces[p].upt[j].valid
    ensures var r := MapUp(m, p, lo, hi).m;
            && Uses(r, f) == Uses(m, f) && |r.free| == |m.free| - (hi - lo)
            && forall j :: hi <= j < TABLE ==> !r.spaces[p].upt[j].valid
  {
    hide Uses, MapUp;
    MapUpUses(m, p, lo, hi, f);
    MapUpFree(m, p, lo, hi);
    RangeBlank(m.spaces[p].upt, lo, hi, f);
    forall j | hi <= j < TABLE ensures !MapUp(m, p, lo, hi).m.spaces[p].upt[j].valid {
      MapUpTable(m, p, lo, hi, j);
    }
  }

  /** Freeing a table gives back as many frames as it used. */
  lemma FreeUserCount(m: Mem, p: int)
    requires 0 <= p < |m.spaces| && |m.spaces[p].upt| == TABLE
    ensures |FreeUserFrom(m, p, 0).free| == |m.free| + Used(m.spaces[p].upt)
  {
    assert m.spaces[p].upt[0..] == m.spaces[p].upt;
    FreeUserCountFrom(m, p, 0);
  }

  lemma {:induction false} FreeUserCountFrom(m: Mem, p: int, i: nat)
    requires 0 <= p < |m.spaces| && |m.spaces[p].upt| == TABLE && i <= TABLE
    ensures |FreeUserFrom(m, p, i).free| == |m.free| + Used(m.spaces[p].upt[i..])
    decreases TABLE - i
  {
    if i < TABLE {
      var m1 := UnmapUser(m, p, i);
      FreeUserCountFrom(m1, p, i + 1);
      assert m1.spaces[p].upt[i + 1..] == m.spaces[p].upt[i + 1..];
      assert m.spaces[p].upt[i..][1..] == m.spaces[p].upt[i + 1..];
    }
  }

  lemma ExecKeeps(m: Mem, img: Image)
    requires MemInv(m) && Enabled(m, EExec(img))
    ensures MemInv(Step(m, EExec(img))) && NoneLost(m, Step(m, EExec(img)))
  {
    hide Uses, Exclusive, TryLoad;
    LoadKeeps(m, m.active, img);
    LoadFrame(m, m.active, img);
    var d := TryLoad(m, m.active, img);
    if d.ok {
      ContentsChangeKeeps(d.m, ReturnInitial(d.m));
    }
  }

  lemma LoadFrame(m: Mem, p: int, img: Image)
    requires Shape(m) && 0 <= p < |m.spaces| && ImageFits(img)
    ensures var r := TryLoad(m, p, img).m;
            && |r.spaces| == |m.spaces| && r.kpt == m.kpt && r.initial == m.initial && r.active == m.active
            && r.phys == m.phys && (forall q :: 0 <= q < |m.spaces| && q != p ==> r.spaces[q] == m.spaces[q])
            && r.spaces[p].kst == m.spaces[p].kst && r.installed == m.installed && r.kregs == m.kregs && r.brk == m.brk
  {
    hide MapUp, TryDown, Protect, FreeUserFrom;
  }

  // ----- Exit ----------------------------------------------------------------------------------------

  lemma ExitKeeps(m: Mem)
    requires MemInv(m)
    ensures FrameInv(Exit(m)) && NoneLost(m, Exit(m))
    ensures |Exit(m).free| >= 2 && ExitFrame(m, Exit(m))
  {
    hide Uses, Exclusive, FreeUserFrom;
    var a := m.active;
    assert SpaceOk(m, a);
    var m1 := FreeUserFrom(m, a, 0);
    var m2 := UnmapStack(m1, a, 0);
    var m3 := UnmapStack(m2, a, 1);
    var r := Exit(m);
    forall f ensures Uses(r, f) == Uses(m, f) {
      FreeUserUses(m, a, 0, f);
      UnmapStackUses(m1, a, 0, f);
      UnmapStackUses(m2, a, 1, f);
      SetSpaceUses(m3, a, m3.spaces[a].(alive := false), f);
    }
    ExclusiveSame(m, r);
    forall q | 0 <= q < |r.spaces| ensures SpaceOk(r, q) {
      assert SpaceOk(m, q);
      if q == a {
        forall i | 0 <= i < TABLE ensures !r.spaces[a].upt[i].valid {
          FreeUserTable(m, a, 0, i);
        }
      }
    }
  }

  /** An exit changes its own process, and the free list. */
  ghost predicate ExitFrame(m: Mem, r: Mem) {
    && Shape(m) && |r.spaces| == |m.spaces|
    && r == m.(free := r.free, spaces := m.spaces[m.active := r.spaces[m.active]])
    && !r.spaces[m.active].alive
  }

  lemma ExitStepKeeps(m: Mem, next: int)
    requires MemInv(m) && Enabled(m, EExit(next))
    ensures MemInv(Step(m, EExit(next))) && NoneLost(m, Step(m, EExit(next)))
  {
    hide Uses, Exclusive, Exit, SwitchTo, SpaceOk;
    ExitKeeps(m);
    SwitchKeeps(Exit(m), next, false);
  }

  // ----- Fork ------------------------------------------------------------------------------------------

  /** The child so far: entries below i are copied, those from i on still blank. */
  lemma {:induction false} CopyUses(m: Mem, parent: int, child: int, i: nat, f: int)
    requires 0 <= parent < |m.spaces| && 0 <= child < |m.spaces| && parent != child && i <= TABLE
    requires |m.spaces[parent].upt| == TABLE && |m.spaces[child].upt| == TABLE
    requires forall j :: i <= j < TABLE ==> !m.spaces[child].upt[j].valid
    requires |m.free| >= Used(m.spaces[parent].upt[i..])
    ensures Uses(CopyFrom(m, parent, child, i), f) == Uses(m, f)
    decreases TABLE - i
  {
    hide HeldIn, InSpaces;
    if i < TABLE {
      var x := m.spaces[parent].upt[i];
      var m1 := CopyPage(m, parent, child, i);
      assert m.spaces[parent].upt[i..][0] == x && m.spaces[parent].upt[i..][1..] == m.spaces[parent].upt[i + 1..];
      if x.valid {
        MapUserUses(m, child, i, x.prot, f);
        assert Uses(m1, f) == Uses(MapUser(m, child, i, x.prot), f);
      }
      assert m1.spaces[parent].upt == m.spaces[parent].upt;
      CopyUses(m1, parent, child, i + 1, f);
    }
  }

  lemma NewbornKeeps(m: Mem)
    requires MemInv(m)
    ensures FrameInv(Newborn(m)) && NoneLost(m, Newborn(m))
  {
    hide HeldIn, InSpaces;
    var r := Newborn(m);
    var x := r.spaces[|m.spaces|];
    forall f ensures Uses(r, f) == Uses(m, f) {
      SpacesAppend(m.spaces, x, f);
      BlankHolds(x.upt, f);
      BlankHolds(x.kst, f);
    }
    ExclusiveSame(m, r);
    forall q | 0 <= q < |r.spaces| ensures SpaceOk(r, q) {
      if q < |m.spaces| {
        assert SpaceOk(m, q);
      }
    }
  }

  lemma ForkKeeps(m: Mem)
    requires MemInv(m) && Enabled(m, EFork)
    ensures MemInv(Step(m, EFork)) && NoneLost(m, Step(m, EFork))
  {
    hide Uses, Exclusive, InitStack, CopyFrom;
    var child := |m.spaces|;
    var m1 := Newborn(m);
    NewbornKeeps(m);
    InitStackKeeps(m1, child);
    var m2 := InitStack(m1, child);
    var r := CopyFrom(m2, m.active, child, 0);
    assert m2.spaces[m.active].upt[0..] == m.spaces[m.active].upt;
    forall f ensures Uses(r, f) == Uses(m, f) {
      CopyUses(m2, m.active, child, 0, f);
    }
    TableChangeKeeps(m2, r, child);
  }

  lemma {:induction false} TryCopyIs(m: Mem, parent: int, child: int, i: nat)
    requires 0 <= parent < |m.spaces| && 0 <= child < |m.spaces| && parent != child && i <= TABLE
    requires |m.spaces[parent].upt| == TABLE && |m.spaces[child].upt| == TABLE
    requires forall j :: i <= j < TABLE ==> m.spaces[child].upt[j] == NO_PAGE
    ensures var d := TryCopy(m, parent, child, i);
            && (d.ok <==> |m.free| >= Used(m.spaces[parent].upt[i..]))
            && (d.ok ==> d.m == CopyFrom(m, parent, child, i))
            && (!d.ok ==> exists j :: i <= j < TABLE && d.m.spaces[child].upt[j].valid && d.m.spaces[child].upt[j].pfn == 0)
    decreases TABLE - i
  {
    if i < TABLE {
      var x := m.spaces[parent].upt[i];
      assert m.spaces[parent].upt[i..][1..] == m.spaces[parent].upt[i + 1..];
      if !(x.valid && m.free == []) {
        var m1 := CopyPage(m, parent, child, i);
        assert m1.spaces[parent].upt == m.spaces[parent].upt;
        TryCopyIs(m1, parent, child, i + 1);
      } else {
        assert TryCopy(m, parent, child, i).m.spaces[child].upt[i] == Pte(true, x.prot, 0);
      }
    }
  }

  /** A Fork with frames for the kernel stack succeeds if and only if there are frames for all pages, and
      exactly then frames stay exclusive: otherwise a page of the half-built child maps frame 0. */
  lemma ForkNeedsFrames(m: Mem)
    requires MemInv(m) && |m.free| >= 2
    ensures TryFork(m).ok <==> Enabled(m, EFork)
    ensures TryFork(m).ok ==> TryFork(m).m == Step(m, EFork)
    ensures Exclusive(TryFork(m).m) <==> TryFork(m).ok
  {
    hide Uses, Exclusive, InitStack, Used, TryCopy, CopyFrom;
    var child := |m.spaces|;
    NewbornKeeps(m);
    InitStackKeeps(Newborn(m), child);
    var m2 := InitStack(Newborn(m), child);
    assert m2.spaces[m.active].upt[0..] == m.spaces[m.active].upt;
    TryCopyIs(m2, m.active, child, 0);
    var d := TryFork(m);
    if d.ok {
      ForkKeeps(m);
    } else {
      var j :| 0 <= j < TABLE && d.m.spaces[child].upt[j].valid && d.m.spaces[child].upt[j].pfn == 0;
      assert Owns(d.m, UserPage(child, j), 0) && Owns(d.m, KernelPage(0), 0);
      if Exclusive(d.m) {
        OneOwner(d.m, UserPage(child, j), KernelPage(0), 0);
      }
    }
  }

  // ----- every step, every run --------------------------------------------------------------------------

  lemma StepKeeps(m: Mem, e: Event)
    requires MemInv(m) && Enabled(m, e)
    ensures MemInv(Step(m, e)) && NoMore(m, Step(m, e))
    ensures !e.EBrk? && !e.EGrow? && !e.EKernelBrk? ==> NoneLost(m, Step(m, e))
  {
    hide Uses, Exclusive, SpaceOk, SwitchTo, Exit, Load, Fork, Brk, Grow, KernelBrk;
    match e
    case EBrk(addr) => BrkKeeps(m, addr);
    case EGrow(addr) => GrowKeeps(m, addr);
    case EFork => ForkKeeps(m);
    case EExec(img) => ExecKeeps(m, img);
    case EExit(next) => ExitStepKeeps(m, next);
    case ESwitch(next) => SwitchKeeps(m, next, true);
    case EUserWrite(_, _) => ContentsChangeKeeps(m, Step(m, e));
    case EUserRun(_) => ContentsChangeKeeps(m, Step(m, e));
    case EKernelRun(_, _, _) => ContentsChangeKeeps(m, Step(m, e));
    case EKernelBrk(end) => KernelBrkKeeps(m, end);
  }

  datatype Trace = Trace(states: seq<Mem>, events: seq<Event>)

  /** A run from a state that satisfies the invariant, such as the one boot leaves. */
  ghost predicate IsRun(r: Trace) {
    && |r.states| == |r.events| + 1
    && MemInv(r.states[0])
    && forall i :: 0 <= i < |r.events| ==>
         Shape(r.states[i]) && Enabled(r.states[i], r.events[i]) && r.states[i + 1] == Step(r.states[i], r.events[i])
  }

  /** On every run every frame has at most one owner, and no owned frame is free. */
  lemma {:induction false} FramesHaveOneOwner(r: Trace, n: nat)
    requires IsRun(r) && n < |r.states|
    ensures MemInv(r.states[n])
  {
    hide Step, MemInv;
    if n > 0 {
      FramesHaveOneOwner(r, n - 1);
      StepKeeps(r.states[n - 1], r.events[n - 1]);
    }
  }

  /** The events can be taken from m, one after the other. */
  ghost predicate CanRun(m: Mem, events: seq<Event>)
    decreases |events|
  {
    events == [] || (Shape(m) && Enabled(m, events[0]) && CanRun(Step(m, events[0]), events[1..]))
  }

  /** The run with one more step. */
  ghost function Extended(r: Trace, e: Event): (r': Trace)
    requires IsRun(r) && Shape(r.states[|r.events|]) && Enabled(r.states[|r.events|], e)
    ensures IsRun(r') && r'.events == r.events + [e] && r'.states[..|r.states|] == r.states
    ensures r'.states[|r.states|] == Step(r.states[|r.events|], e)
  {
    Trace(r.states + [Step(r.states[|r.events|], e)], r.events + [e])
  }
}
