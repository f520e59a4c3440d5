/**
 What the memory calls do, in terms of addresses, pages and contents: where the heap ends after Brk and which pages are
 there, which page a stack fault maps, what a program finds after Exec and at boot, and on which
 kernel stack a process has its first turn.
 */
module MemoryCalls {
  import opened Constants
  import opened Memory
  import opened Frames
  import opened AddressSpaces
  import opened Isolation
  import opened Boot

  const RW: int := 3  // read and write
  const RX: int := 5  // read and execute

  /** The page of region 1 that holds an address. */
  function PageOf(x: int): int { (x - 0x100000) / 0x2000 }

  /** Page k is the first whose start is at or above the address. */
  predicate FirstAbove(addr: int, k: int) {
    0x100000 + 0x2000 * (k - 1) < addr <= 0x100000 + 0x2000 * k
  }

  lemma BrkPageIs(addr: int, k: int)
    requires FirstAbove(addr, k)
    ensures BrkPage(addr) == k
  {
  }

  lemma AboveExists(addr: int) returns (k: int)
    ensures FirstAbove(addr, k)
  {
    k := (addr - 0x100000 + 0x1fff) / 0x2000;
  }

  // ----- Brk -----------------------------------------------------------------------------

  /** r has pages lo..hi of the running process mapped readable and writable, and all its other pages as m has. */
  ghost predicate MappedOnly(m: Mem, r: Mem, lo: int, hi: int) {
    && Shape(m) && Shape(r) && r.active == m.active && |r.spaces| == |m.spaces|
    && (forall p :: 0 <= p < |m.spaces| && p != m.active ==> r.spaces[p] == m.spaces[p])
    && (forall j :: 0 <= j < TABLE ==>
          if lo <= j < hi then r.spaces[m.active].upt[j].valid && r.spaces[m.active].upt[j].prot == RW
          else r.spaces[m.active].upt[j] == m.spaces[m.active].upt[j])
  }

  /** Brk(addr), k being the first page at or above addr.  With frames enough the heap ends at k and every page from the
      old end to k is mapped; with too few it stays where it was, and the pages for which there
      were frames are mapped. */
  lemma BrkOutcome(m: Mem, addr: int, k: int)
    requires MemInv(m) && Enabled(m, EBrk(addr)) && FirstAbove(addr, k)
    ensures var h, r := m.spaces[m.active].nextHeap, Step(m, EBrk(addr));
            && Shape(r) && r.active == m.active && |r.spaces| == |m.spaces|
            && (if |m.free| >= k - h then r.spaces[m.active].nextHeap == k && MappedOnly(m, r, h, k)
                else r.spaces[m.active].nextHeap == h && MappedOnly(m, r, h, h + |m.free|) && r.free == [])
            && r.spaces[m.active].nextStack == m.spaces[m.active].nextStack
    ensures BrkPage(addr) <= TABLE && Brk(m, addr).ok == (|m.free| >= k - m.spaces[m.active].nextHeap)
  {
    hide Uses, Exclusive, SpaceOk, MapUp, BrkPage;
    BrkPageIs(addr, k);
    BrkInTable(addr);
    BrkKeeps(m, addr);
    var a, h := m.active, m.spaces[m.active].nextHeap;
    if |m.free| < k - h {
      MapUpStops(m, a, h, k);
      MapUpFree(m, a, h, h + |m.free|);
      forall j | 0 <= j < TABLE ensures
        if h <= j < h + |m.free| then Step(m, EBrk(addr)).spaces[a].upt[j].valid && Step(m, EBrk(addr)).spaces[a].upt[j].prot == RW
        else Step(m, EBrk(addr)).spaces[a].upt[j] == m.spaces[a].upt[j]
      {
        MapUpTable(m, a, h, h + |m.free|, j);
      }
    } else {
      if h <= k {
        MapUpFree(m, a, h, k);
      } else {
        MapUpNothing(m, a, h, k);
      }
      forall j | 0 <= j < TABLE ensures
        if h <= j < k then Step(m, EBrk(addr)).spaces[a].upt[j].valid && Step(m, EBrk(addr)).spaces[a].upt[j].prot == RW
        else Step(m, EBrk(addr)).spaces[a].upt[j] == m.spaces[a].upt[j]
      {
        MapUpTable(m, a, h, k, j);
      }
    }
  }

  /** So after a Brk with frames enough every byte from the start of the heap up to the break can be read and written. */
  lemma BrkCovers(m: Mem, addr: int, k: int, lo: int, x: int)
    requires MemInv(m) && Enabled(m, EBrk(addr)) && FirstAbove(addr, k) && |m.free| >= k - m.spaces[m.active].nextHeap
    requires 0 <= lo && forall j :: lo <= j < m.spaces[m.active].nextHeap ==>
               m.spaces[m.active].upt[j].valid && m.spaces[m.active].upt[j].prot == RW
    requires 0x100000 + 0x2000 * lo <= x < addr
    ensures 0 <= PageOf(x) < TABLE && |Step(m, EBrk(addr)).spaces| > m.active && |Step(m, EBrk(addr)).spaces[m.active].upt| == TABLE
    ensures var y := Step(m, EBrk(addr)).spaces[m.active].upt[PageOf(x)]; y.valid && y.prot == RW
  {
    hide Uses, Exclusive, SpaceOk, Step;
    BrkOutcome(m, addr, k);
    BrkInTable(addr);
    BrkPageIs(addr, k);
    assert lo <= PageOf(x) < k <= TABLE;
  }

  // ----- stack faults --------------------------------------------------------------------------

  /** A fault grows the stack if and only if its page is at or below the next stack page, or the page above that, and more
      than one page above the end of the heap. */
  lemma GrowsIff(x: Space, addr: int)
    ensures GrowsStack(x, addr) <==> x.nextHeap + 1 < PageOf(addr) <= x.nextStack + 1
  {
  }

  /** It maps every page from the one that holds the address up to the next stack page, and the stack then
      goes on below that page. */
  lemma GrowOutcome(m: Mem, addr: int)
    requires MemInv(m) && Enabled(m, EGrow(addr))
    ensures var r := Step(m, EGrow(addr));
            && MappedOnly(m, r, PageOf(addr), m.spaces[m.active].nextStack + 1)
            && r.spaces[m.active].nextStack == PageOf(addr) - 1 && r.spaces[m.active].nextHeap == m.spaces[m.active].nextHeap
            && |r.free| == |m.free| - (m.spaces[m.active].nextStack + 1 - PageOf(addr))
  {
    hide Uses, Exclusive, SpaceOk, MapDown;
    GrowKeeps(m, addr);
    var a, hi, lo := m.active, m.spaces[m.active].nextStack, FaultPage(addr);
    GrowsIff(m.spaces[a], addr);
    FaultPageIs(addr);
    forall j | 0 <= j < TABLE ensures
      if lo + 1 <= j < hi + 1 then Step(m, EGrow(addr)).spaces[a].upt[j].valid && Step(m, EGrow(addr)).spaces[a].upt[j].prot == RW
      else Step(m, EGrow(addr)).spaces[a].upt[j] == m.spaces[a].upt[j]
    {
      MapDownTable(m, a, hi, lo, j);
    }
    MapDownFree(m, a, hi, lo);
  }

  lemma FaultPageIs(addr: int)
    ensures FaultPage(addr) == PageOf(addr) - 1
  {
  }

  // ----- the kernel heap -------------------------------------------------------------------------

  lemma {:induction false} KernelUpMaps(m: Mem, i: int, end: int, j: int)
    requires 0 <= i && end <= |m.kpt| && |m.free| >= end - i && 0 <= j < |m.kpt|
    ensures var d := MapKernelUp(m, i, end);
            && d.ok && |d.m.kpt| == |m.kpt|
            && (if i <= j < end then d.m.kpt[j].valid && d.m.kpt[j].prot == RW else d.m.kpt[j] == m.kpt[j])
    decreases end - i
  {
    if i < end {
      KernelUpMaps(MapKernel(m, i), i + 1, end, j);
    }
  }

  lemma {:induction false} KernelUpFails(m: Mem, i: int, end: int)
    requires 0 <= i && end <= |m.kpt| && |m.free| < end - i
    ensures !MapKernelUp(m, i, end).ok && MapKernelUp(m, i, end).m.brk == m.brk
    decreases end - i
  {
    if m.free != [] {
      KernelUpFails(MapKernel(m, i), i + 1, end);
    }
  }

  /** Raising the kernel break to page end, below the kernel stack and with frames enough, maps every page up to it; the break
      never goes down, never reaches the stack, and stays where it was when frames run out. */
  lemma KernelBrkOutcome(m: Mem, end: int)
    requires MemInv(m)
    ensures var r := Step(m, EKernelBrk(end));
            && |r.kpt| == TABLE
            && (end <= m.brk || end >= 126 ==> r == m)
            && (m.brk < end < 126 && |m.free| < end - m.brk ==> r.brk == m.brk)
            && (m.brk < end < 126 && |m.free| >= end - m.brk ==>
                  r.brk == end && forall j :: 0 <= j < TABLE ==>
                    if m.brk <= j < end then r.kpt[j].valid && r.kpt[j].prot == RW else r.kpt[j] == m.kpt[j])
  {
    hide Uses, Exclusive, SpaceOk, MapKernelUp;
    KernelBrkKeeps(m, end);
    if m.brk < end < 126 {
      if |m.free| >= end - m.brk {
        forall j | 0 <= j < TABLE ensures
          MapKernelUp(m, m.brk, end).ok &&
          if m.brk <= j < end then Step(m, EKernelBrk(end)).kpt[j].valid && Step(m, EKernelBrk(end)).kpt[j].prot == RW
          else Step(m, EKernelBrk(end)).kpt[j] == m.kpt[j]
        {
          KernelUpMaps(m, m.brk, end, j);
        }
        KernelUpMaps(m, m.brk, end, 0);
      } else {
        KernelUpFails(m, m.brk, end);
      }
    }
  }

  // ----- stores ---------------------------------------------------------------------------------

  /** A store by the running program is what it reads back, and changes the contents of that one frame only. */
  lemma StoreOutcome(m: Mem, i: int, contents: Page)
    requires MemInv(m) && Enabled(m, EUserWrite(i, contents))
    ensures 0 <= i < TABLE
    ensures var r, x := Step(m, EUserWrite(i, contents)), m.spaces[m.active].upt[i];
            && r == m.(phys := r.phys) && x.valid && x.prot == RW
            && PageAt(r, x.pfn) == contents && forall f :: f != x.pfn ==> PageAt(r, f) == PageAt(m, f)
  {
    hide Uses, Exclusive, SpaceOk;
  }

  /** Kernel code changes its own stack and registers only. */
  lemma KernelRunOutcome(m: Mem, page0: Page, page1: Page, regs: int)
    requires MemInv(m)
    ensures var r := Step(m, EKernelRun(page0, page1, regs));
            && r == m.(phys := r.phys, kregs := regs) && Stack(r, 0) == page0 && Stack(r, 1) == page1
            && forall f :: f != LiveFrame(m, 0) && f != LiveFrame(m, 1) ==> PageAt(r, f) == PageAt(m, f)
  {
    hide Uses, Exclusive, SpaceOk;
    if LiveFrame(m, 0) == LiveFrame(m, 1) {
      OneOwner(m, KernelPage(STACK0), KernelPage(STACK0 + 1), LiveFrame(m, 0));
    }
  }

  // ----- giving frames back ------------------------------------------------------------------------

  lemma {:induction false} FreedInFront(m: Mem, p: int, i: nat)
    requires 0 <= p < |m.spaces| && |m.spaces[p].upt| == TABLE && i <= TABLE
    ensures var r := FreeUserFrom(m, p, i); |r.free| >= |m.free| && r.free[|r.free| - |m.free|..] == m.free
    decreases TABLE - i
  {
    if i < TABLE {
      var m1 := UnmapUser(m, p, i);
      FreedInFront(m1, p, i + 1);
      var r := FreeUserFrom(m1, p, i + 1);
      assert m1.free[|m1.free| - |m.free|..] == m.free;
      assert r.free[|r.free| - |m.free|..] == r.free[|r.free| - |m1.free|..][|m1.free| - |m.free|..];
    }
  }

  /** Exit gives every frame of the process back, in front of those that were free before, and leaves it without pages. */
  lemma ExitOutcome(m: Mem)
    requires MemInv(m)
    ensures var r, a := Exit(m), m.active;
            && |r.spaces| == |m.spaces| && !r.spaces[a].alive && |r.spaces[a].upt| == TABLE && |r.spaces[a].kst| == 2
            && (forall j :: 0 <= j < TABLE ==> !r.spaces[a].upt[j].valid)
            && !r.spaces[a].kst[0].valid && !r.spaces[a].kst[1].valid
            && |r.free| == |m.free| + Used(m.spaces[a].upt) + 2 && r.free[|r.free| - |m.free|..] == m.free
            && (forall j :: 0 <= j < TABLE && m.spaces[a].upt[j].valid ==> m.spaces[a].upt[j].pfn in r.free)
            && (forall j :: 0 <= j < 2 ==> m.spaces[a].kst[j].pfn in r.free)
  {
    hide Uses, Exclusive, FreeUserFrom, Used;
    var a := m.active;
    assert SpaceOk(m, a);
    ExitKeeps(m);
    FreeUserCount(m, a);
    FreedInFront(m, a, 0);
    var m1, r := FreeUserFrom(m, a, 0), Exit(m);
    assert r.free == [m.spaces[a].kst[1].pfn, m.spaces[a].kst[0].pfn] + m1.free;
    assert r.free[|r.free| - |m.free|..] == m1.free[|m1.free| - |m.free|..];
    forall j | 0 <= j < TABLE && m.spaces[a].upt[j].valid ensures m.spaces[a].upt[j].pfn in r.free {
      FreedIsFree(m, a, 0, j);
    }
    assert SpaceOk(r, a);
  }

  lemma {:induction false} FreedIsFree(m: Mem, p: int, i: nat, j: nat)
    requires 0 <= p < |m.spaces| && |m.spaces[p].upt| == TABLE && i <= j < TABLE && m.spaces[p].upt[j].valid
    ensures m.spaces[p].upt[j].pfn in FreeUserFrom(m, p, i).free
    decreases TABLE - i
  {
    var m1 := UnmapUser(m, p, i);
    if i == j {
      FreedInFront(m1, p, i + 1);
      var r := FreeUserFrom(m1, p, i + 1);
      assert m1.free[0] == m.spaces[p].upt[j].pfn;
      assert r.free[|r.free| - |m1.free|] == r.free[|r.free| - |m1.free|..][0];
    } else {
      FreedIsFree(m1, p, i + 1, j);
    }
  }

  /** When each event of the memory machine can happen: Fork, stack growth and a first turn need their frames, a switch a live
      process, an exit another one, a store a writable page of the running process; the rest is always possible. */
  lemma EventsIff(m: Mem, e: Event)
    requires MemInv(m)
    ensures var me := m.spaces[m.active];
            Enabled(m, e) <==>
              match e
              case EBrk(addr) => 0x100000 <= addr <= 0x200000
              case EGrow(addr) => me.nextHeap + 1 < PageOf(addr) <= me.nextStack + 1 && |m.free| >= me.nextStack + 1 - PageOf(addr)
              case EFork => |m.free| >= 2 + Used(me.upt)
              case EExec(img) =>
                && 0 <= img.textPage <= img.textPage + img.textPages <= img.dataPage <= img.dataPage + img.dataPages
                && 0 <= img.stackPages && img.dataPage + img.dataPages < 128 - img.stackPages
              case EExit(next) => 0 <= next < |m.spaces| && next != m.active && m.spaces[next].alive
              case ESwitch(next) => 0 <= next < |m.spaces| && m.spaces[next].alive && (m.spaces[next].kst[0].pfn == 0 ==> |m.free| >= 2)
              case EUserWrite(i, _) => 0 <= i < TABLE && me.upt[i].valid && me.upt[i].prot == RW
              case _ => true
  {
    hide Uses, Exclusive, SpaceOk, Used;
    if e.EGrow? {
      GrowsIff(m.spaces[m.active], e.addr);
      FaultPageIs(e.addr);
    }
  }
}
