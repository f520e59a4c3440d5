/**
 Runs and inputs on which the memory code does not do what it is meant to: a Brk that is lowered and
 raised again loses a frame, a stack fault or a Fork without frames maps frame 0, and a kernel break
 inside a page loses that page at boot.
 */
module LostFrames {
  import opened Constants
  import opened Memory
  import opened Frames
  import opened AddressSpaces
  import opened Conservation
  import opened Boot

  /** The address at which page i of region 1 starts. */
  function PageStart(i: int): int { VMEM_1_BASE + i * PAGESIZE }

  lemma PageStartIs(i: int)
    ensures BrkPage(PageStart(i)) == i && FaultPage(PageStart(i)) == i - 1
    ensures 0 <= i <= TABLE ==> VMEM_1_BASE <= PageStart(i) <= VMEM_1_LIMIT
  {
  }

  lemma OneMore(r: Trace, e: Event) returns (r': Trace)
    requires IsRun(r) && Shape(r.states[|r.events|]) && Enabled(r.states[|r.events|], e)
    ensures IsRun(r') && r'.events == r.events + [e] && r'.states == r.states + [Step(r.states[|r.events|], e)]
  {
    r' := Extended(r, e);
    assert r'.states == r'.states[..|r.states|] + [r'.states[|r.states|]];
  }

  // ----- Brk ------------------------------------------------------------------------

  /** Raising the break by one page maps the first free frame there. */
  lemma BrkRaises(m: Mem)
    requires MemInv(m) && m.spaces[m.active].nextHeap < TABLE && m.free != []
    ensures var h := m.spaces[m.active].nextHeap;
            var e := EBrk(PageStart(h + 1));
            && Enabled(m, e) && Step(m, e).active == m.active && |Step(m, e).spaces| == |m.spaces|
            && Step(m, e).spaces[m.active].nextHeap == h + 1 && Step(m, e).free == m.free[1..]
            && |Step(m, e).spaces[m.active].upt| == TABLE
            && Step(m, e).spaces[m.active].upt[h] == Pte(true, READ_WRITE, m.free[0])
  {
    hide Uses, Exclusive, SpaceOk;
    var a, h := m.active, m.spaces[m.active].nextHeap;
    PageStartIs(h + 1);
    assert MapUp(m, a, h, h + 1) == MapUp(MapUser(m, a, h, READ_WRITE), a, h + 1, h + 1);
  }

  /** Lowering it by one page changes nothing else. */
  lemma BrkLowers(m: Mem)
    requires MemInv(m) && m.spaces[m.active].nextHeap > 0
    ensures var h := m.spaces[m.active].nextHeap;
            var e := EBrk(PageStart(h - 1));
            Enabled(m, e) && Step(m, e) == SetSpace(m, m.active, m.spaces[m.active].(nextHeap := h - 1))
  {
    hide Uses, Exclusive, SpaceOk;
    PageStartIs(m.spaces[m.active].nextHeap - 1);
  }

  /** From any state with a page above the heap and two free frames: raise, lower and raise the break, and
      a frame that was free is neither free nor mapped any more. */
  lemma BrkLosesFrame(m: Mem) returns (r: Trace)
    requires MemInv(m) && m.spaces[m.active].nextHeap < TABLE && |m.free| >= 2
    ensures var h := m.spaces[m.active].nextHeap;
            r.events == [EBrk(PageStart(h + 1)), EBrk(PageStart(h)), EBrk(PageStart(h + 1))]
    ensures IsRun(r) && r.states[0] == m && Uses(m, m.free[0]) == 1 && Uses(r.states[3], m.free[0]) == 0
  {
    hide Uses, Exclusive, SpaceOk, Step, Enabled, MemInv;
    InvShape(m);
    var h, f := m.spaces[m.active].nextHeap, m.free[0];
    BrkRaises(m);
    FreeIsUsed(m);
    r := OneMore(Trace([m], []), EBrk(PageStart(h + 1)));
    var m1 := r.states[1];
    FramesHaveOneOwner(r, 1);
    InvShape(m1);
    BrkLowers(m1);
    r := OneMore(r, EBrk(PageStart(h)));
    var m2 := r.states[2];
    FramesHaveOneOwner(r, 2);
    InvShape(m2);
    BrkRaises(m2);
    r := OneMore(r, EBrk(PageStart(h + 1)));
    AtMostOnce(m2, f);
    SecondRaiseLoses(m2, f);
  }

  lemma InvShape(m: Mem)
    requires MemInv(m)
    ensures Shape(m)
  {
  }

  lemma AtMostOnce(m: Mem, f: int)
    requires MemInv(m)
    ensures Uses(m, f) <= 1
  {
  }

  lemma FreeIsUsed(m: Mem)
    requires MemInv(m) && m.free != []
    ensures Uses(m, m.free[0]) == 1
  {
    FreeSplit(m, m.free[0]);
  }

  lemma SecondRaiseLoses(m: Mem, f: int)
    requires MemInv(m) && m.spaces[m.active].nextHeap < TABLE && m.free != [] && Uses(m, f) <= 1
    requires m.spaces[m.active].upt[m.spaces[m.active].nextHeap].valid && m.spaces[m.active].upt[m.spaces[m.active].nextHeap].pfn == f
    requires Enabled(m, EBrk(PageStart(m.spaces[m.active].nextHeap + 1)))
    ensures Uses(Step(m, EBrk(PageStart(m.spaces[m.active].nextHeap + 1))), f) == 0
  {
    hide Uses, Exclusive, SpaceOk, Step;
    var h := m.spaces[m.active].nextHeap;
    PageStartIs(h + 1);
    BrkUses(m, PageStart(h + 1), f);
    RangeHolds(m.spaces[m.active].upt, h, h + 1, h);
  }

  /** And so on every machine with two frames left after boot: every frame is accounted for at boot, and
      one is not after three calls of Brk. */
  lemma BrkLosesAfterBoot(total: int, dataBase: int, kernelBrk: int, init: Image, idle: Image) returns (r: Trace)
    requires ImageFits(init) && ImageFits(idle) && TABLE <= total
    requires PAGESIZE <= kernelBrk < STACK0 * PAGESIZE && kernelBrk % PAGESIZE == 0
    requires |Gathered(total, kernelBrk)| >= 6 + Pages(init) + Pages(idle)
    ensures IsRun(r) && |r.states| == 4 && r.states[0] == BootState(total, dataBase, kernelBrk, init, idle)
    ensures AccountedFor(r.states[0], total) && !AccountedFor(r.states[3], total)
  {
    hide Uses, MemInv, BootState, Gathered, Step, IsRun, Gaps;
    BootEstablishes(total, dataBase, kernelBrk, init, idle);
    BootLeaves(total, dataBase, kernelBrk, init, idle);
    var m := BootState(total, dataBase, kernelBrk, init, idle);
    r := BrkLosesFrame(m);
    RunLength(r);
    assert Uses(m, m.free[0]) == 1;
  }

  lemma RunLength(r: Trace)
    requires IsRun(r)
    ensures |r.states| == |r.events| + 1
  {
  }

  // ----- frame 0 -------------------------------------------------------------------------

  /** A Brk that leaves k frames. */
  lemma BrkLeaves(m: Mem, k: nat) returns (r: Trace)
    requires MemInv(m) && k <= |m.free| && m.spaces[m.active].nextHeap + |m.free| - k <= TABLE
    ensures IsRun(r) && |r.states| == 2 && r.states[0] == m && MemInv(r.states[1])
    ensures var h, m' := m.spaces[m.active].nextHeap, r.states[1];
            && |m'.free| == k && m'.active == m.active && |m'.spaces| == |m.spaces|
            && m'.spaces[m.active].nextHeap == h + |m.free| - k && m'.spaces[m.active].nextStack == m.spaces[m.active].nextStack
            && (k < |m.free| ==> h < |m'.spaces[m.active].upt| && m'.spaces[m.active].upt[h].valid)
  {
    hide Uses, Exclusive, SpaceOk, MapUp;
    var a, h := m.active, m.spaces[m.active].nextHeap;
    var end := h + |m.free| - k;
    PageStartIs(end);
    MapUpFree(m, a, h, end);
    r := OneMore(Trace([m], []), EBrk(PageStart(end)));
    FramesHaveOneOwner(r, 1);
    if k < |m.free| {
      MapUpTable(m, a, h, end, h);
    }
  }

  /** Where the heap can take all free frames and stay below the stack: after that, the next stack fault
      maps frame 0, which belongs to the kernel. */
  lemma FaultMapsFrameZero(m: Mem) returns (r: Trace, addr: int)
    requires MemInv(m) && m.spaces[m.active].nextHeap + |m.free| < m.spaces[m.active].nextStack - 1
    ensures IsRun(r) && |r.states| == 2 && r.states[0] == m && MemInv(r.states[1])
    ensures GrowsStack(r.states[1].spaces[r.states[1].active], addr)
    ensures !Exclusive(Grow(r.states[1], addr))
  {
    hide Uses, Exclusive, SpaceOk;
    r := BrkLeaves(m, 0);
    var m' := r.states[1];
    addr := PageStart(m'.spaces[m'.active].nextStack);
    PageStartIs(m'.spaces[m'.active].nextStack);
    GrowNeedsFrames(m', addr);
  }

  lemma {:induction false} UsedSome(s: seq<Pte>, i: nat)
    requires i < |s| && s[i].valid
    ensures Used(s) >= 1
  {
    if i > 0 {
      UsedSome(s[1..], i - 1);
    }
  }

  /** With two frames left and a page in use, a Fork stops half way, with a page of the child on frame 0. */
  lemma ForkMapsFrameZero(m: Mem) returns (r: Trace)
    requires MemInv(m) && |m.free| >= 3 && m.spaces[m.active].nextHeap + |m.free| - 2 <= TABLE
    ensures IsRun(r) && |r.states| == 2 && r.states[0] == m && MemInv(r.states[1])
    ensures !TryFork(r.states[1]).ok && !Exclusive(TryFork(r.states[1]).m)
  {
    hide Uses, Exclusive, SpaceOk, TryFork, Used;
    r := BrkLeaves(m, 2);
    var m' := r.states[1];
    UsedSome(m'.spaces[m'.active].upt, m.spaces[m.active].nextHeap);
    ForkNeedsFrames(m');
  }

  /** Both can happen: a machine with 128 frames, three of them left after boot. */
  lemma FrameZeroAfterBoot() returns (boot: Mem, r: Trace, addr: int, r': Trace)
    ensures exists init, idle :: ImageFits(init) && ImageFits(idle) && boot == BootState(128, PAGESIZE, 113 * PAGESIZE, init, idle)
    ensures IsRun(r) && |r.states| == 2 && r.states[0] == boot && MemInv(r.states[1])
    ensures GrowsStack(r.states[1].spaces[r.states[1].active], addr) && !Exclusive(Grow(r.states[1], addr))
    ensures IsRun(r') && |r'.states| == 2 && r'.states[0] == boot && MemInv(r'.states[1])
    ensures !TryFork(r'.states[1]).ok && !Exclusive(TryFork(r'.states[1]).m)
  {
    hide Uses, Exclusive, SpaceOk, TryFork, Gathered, IsRun, BootState, Grow;
    var img := Image(0, 1, 1, 1, 1, UserContext(0, 0));
    ThirteenFrames();
    BootEstablishes(128, PAGESIZE, 113 * PAGESIZE, img, img);
    BootLeaves(128, PAGESIZE, 113 * PAGESIZE, img, img);
    boot := BootState(128, PAGESIZE, 113 * PAGESIZE, img, img);
    r, addr := FaultMapsFrameZero(boot);
    r' := ForkMapsFrameZero(boot);
  }

  lemma ThirteenFrames()
    ensures |Gathered(128, 113 * PAGESIZE)| == 13
  {
  }

  // ----- boot ------------------------------------------------------------------------------

  /** A kernel that ends one byte into its second page: that page is neither free nor mapped. */
  lemma UnalignedBreak()
    ensures Uses(Bare(256, 0, PAGESIZE + 1), 1) == 0 && !AccountedFor(Bare(256, 0, PAGESIZE + 1), 256)
  {
    hide Uses, Bare;
    CutPageIsLost(256, 0, PAGESIZE + 1);
    BareAccountsIff(256, 0, PAGESIZE + 1);
  }
}
