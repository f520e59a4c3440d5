/**
 No frame is lost.  If no Brk lowers the break or reaches into the stack, and no allocation
 fails, then on every run every physical frame is accounted for exactly once: free, or mapped
 by exactly one owner.
 */
module Conservation {
  import opened Memory
  import opened Frames
  import opened AddressSpaces
  import opened Isolation

  /** Nothing is mapped between a process's heap and its stack. */
  ghost predicate GapOk(x: Space)
    requires |x.upt| == TABLE && 0 <= x.nextHeap && x.nextStack < TABLE
  {
    && x.nextHeap <= x.nextStack + 1
    && forall i :: x.nextHeap <= i <= x.nextStack ==> !x.upt[i].valid
  }

  ghost predicate Gaps(m: Mem)
    requires Shape(m)
  {
    && (forall p :: 0 <= p < |m.spaces| && m.spaces[p].alive ==> GapOk(m.spaces[p]))
    && (forall j :: m.brk <= j < STACK0 ==> !m.kpt[j].valid)
  }

  /** The calls the code does not get right are avoided: a break that is lowered or that
      reaches past the next stack page, and allocations that fail half way. */
  ghost predicate Tidy(m: Mem, e: Event)
    requires MemInv(m) && Enabled(m, e)
  {
    && (e.EBrk? ==> var x := m.spaces[m.active];
                    x.nextHeap <= BrkPage(e.addr) <= x.nextStack + 1 && |m.free| >= BrkPage(e.addr) - x.nextHeap)
    && (e.EExec? ==> var img := e.image; |m.free| + Used(m.spaces[m.active].upt) >= img.textPages + img.dataPages + img.stackPages)
    && (e.EKernelBrk? ==> |m.free| >= e.end - m.brk)
  }

  lemma BrkTidy(m: Mem, addr: int)
    requires MemInv(m) && Enabled(m, EBrk(addr)) && Tidy(m, EBrk(addr)) && Gaps(m)
    ensures MemInv(Step(m, EBrk(addr))) && NoneLost(m, Step(m, EBrk(addr))) && Gaps(Step(m, EBrk(addr)))
  {
    hide Uses, Exclusive, SpaceOk, MapUp;
    BrkInTable(addr);
    BrkKeeps(m, addr);
    var a, lo, hi := m.active, m.spaces[m.active].nextHeap, BrkPage(addr);
    MapUpFree(m, a, lo, hi);
    BrkLosesIff(m, addr);
    var r := Step(m, EBrk(addr));
    forall i | hi <= i <= m.spaces[a].nextStack ensures !r.spaces[a].upt[i].valid {
      MapUpTable(m, a, lo, hi, i);
    }
  }

  lemma GrowTidy(m: Mem, addr: int)
    requires MemInv(m) && Enabled(m, EGrow(addr)) && Gaps(m)
    ensures MemInv(Step(m, EGrow(addr))) && NoneLost(m, Step(m, EGrow(addr))) && Gaps(Step(m, EGrow(addr)))
  {
    hide Uses, Exclusive, SpaceOk, MapDown;
    GrowKeeps(m, addr);
    var a, hi, lo := m.active, m.spaces[m.active].nextStack, FaultPage(addr);
    var d := MapDown(m, a, hi, lo);
    var r := Step(m, EGrow(addr));
    forall f ensures Uses(r, f) == Uses(m, f) {
      MapDownUses(m, a, hi, lo, f);
      RangeBlank(m.spaces[a].upt, lo + 1, hi + 1, f);
      SetSpaceUses(d, a, d.spaces[a].(nextStack := lo), f);
    }
    forall i | m.spaces[a].nextHeap <= i <= lo ensures !r.spaces[a].upt[i].valid {
      MapDownTable(m, a, hi, lo, i);
    }
  }

  lemma KernelBrkTidy(m: Mem, end: int)
    requires MemInv(m) && Tidy(m, EKernelBrk(end)) && Gaps(m)
    ensures MemInv(Step(m, EKernelBrk(end))) && NoneLost(m, Step(m, EKernelBrk(end))) && Gaps(Step(m, EKernelBrk(end)))
  {
    hide HeldIn, InSpaces, SpaceOk, Exclusive;
    KernelBrkKeeps(m, end);
    if m.brk < end < STACK0 {
      MapKernelUpTable(m, m.brk, end);
      MapKernelUpOk(m, m.brk, end);
      forall f ensures Uses(Step(m, EKernelBrk(end)), f) == Uses(m, f) {
        MapKernelUpUses(m, m.brk, end, f);
      }
    }
  }

  lemma {:induction false} MapKernelUpOk(m: Mem, i: int, end: int)
    requires 0 <= i && end <= |m.kpt| && |m.free| >= end - i
    ensures MapKernelUp(m, i, end).ok
    decreases end - i
  {
    if i < end {
      MapKernelUpOk(MapKernel(m, i), i + 1, end);
    }
  }

  lemma ForkGaps(m: Mem)
    requires MemInv(m) && Enabled(m, EFork) && Gaps(m)
    ensures MemInv(Step(m, EFork)) && Gaps(Step(m, EFork))
  {
    hide Uses, Exclusive, SpaceOk, Fork;
    ForkKeeps(m);
    ForkFrame(m);
    var r, a, child := Step(m, EFork), m.active, |m.spaces|;
    assert GapOk(m.spaces[a]);
    forall i | r.spaces[child].nextHeap <= i <= r.spaces[child].nextStack ensures !r.spaces[child].upt[i].valid {
      ForkCopies(m, i);
    }
    BrkSame(m);
  }

  lemma BrkSame(m: Mem)
    requires MemInv(m) && Enabled(m, EFork)
    ensures Fork(m).brk == m.brk
  {
    hide Uses, Exclusive, InitStack, CopyFrom;
    NewbornKeeps(m);
    InitStackKeeps(Newborn(m), |m.spaces|);
  }

  lemma ExecGaps(m: Mem, img: Image)
    requires MemInv(m) && Enabled(m, EExec(img)) && Gaps(m) && Tidy(m, EExec(img))
    ensures MemInv(Step(m, EExec(img))) && Gaps(Step(m, EExec(img)))
  {
    hide Uses, Exclusive, SpaceOk, FreeUserFrom, MapImage, TryLoad, Used;
    ExecKeeps(m, img);
    LoadNeedsFrames(m, m.active, img);
    var a := m.active;
    var r := Step(m, EExec(img));
    LoadFrame(m, a, img);
    forall i | img.dataPage + img.dataPages <= i <= TABLE - 1 - img.stackPages ensures !r.spaces[a].upt[i].valid {
      FreeUserTable(m, a, 0, i);
      MapImageGap(FreeUserFrom(m, a, 0), a, img, i);
    }
  }

  lemma MapImageGap(m: Mem, p: int, img: Image, i: int)
    requires 0 <= p < |m.spaces| && |m.spaces[p].upt| == TABLE && ImageFits(img)
    requires img.dataPage + img.dataPages <= i <= TABLE - 1 - img.stackPages && !m.spaces[p].upt[i].valid
    ensures !MapImage(m, p, img).spaces[p].upt[i].valid
  {
    hide MapUp, MapDown, Protect, Uses;
    var text := img.textPage;
    var m2 := MapUp(m, p, text, text + img.textPages).m;
    var m3 := MapUp(m2, p, img.dataPage, img.dataPage + img.dataPages).m;
    var m4 := MapDown(m3, p, TABLE - 1, TABLE - 1 - img.stackPages);
    MapUpTable(m, p, text, text + img.textPages, i);
    MapUpTable(m2, p, img.dataPage, img.dataPage + img.dataPages, i);
    MapDownTable(m3, p, TABLE - 1, TABLE - 1 - img.stackPages, i);
    ProtectUses(m4, p, text, text + img.textPages, 0);
  }

  lemma SwitchGaps(m: Mem, next: int, save: bool)
    requires FrameInv(m) && CanSwitch(m, next)
    ensures var r := SwitchTo(m, next, save);
            && |r.spaces| == |m.spaces| && r.brk == m.brk && r.kpt == m.kpt
            && forall q :: 0 <= q < |m.spaces| ==>
                 && r.spaces[q].upt == m.spaces[q].upt && r.spaces[q].alive == m.spaces[q].alive
                 && r.spaces[q].nextHeap == m.spaces[q].nextHeap && r.spaces[q].nextStack == m.spaces[q].nextStack
  {
    hide Uses, Exclusive, InitStack, SwitchTo, PageAt;
    SwitchIs(m, next, save);
    PreparedFrame(m, next, save);
    PreparedBrk(m, next, save);
  }

  lemma PreparedBrk(m: Mem, next: int, save: bool)
    requires FrameInv(m) && CanSwitch(m, next)
    ensures Prepared(m, next, save).brk == m.brk
  {
  }

  lemma ExitGaps(m: Mem, next: int)
    requires MemInv(m) && Enabled(m, EExit(next)) && Gaps(m)
    ensures MemInv(Step(m, EExit(next))) && Gaps(Step(m, EExit(next)))
  {
    hide Uses, Exclusive, SpaceOk, Exit, SwitchTo;
    ExitStepKeeps(m, next);
    ExitKeeps(m);
    SwitchGaps(Exit(m), next, false);
  }

  lemma SwitchStepGaps(m: Mem, next: int)
    requires MemInv(m) && Enabled(m, ESwitch(next)) && Gaps(m)
    ensures MemInv(Step(m, ESwitch(next))) && Gaps(Step(m, ESwitch(next)))
  {
    hide Uses, Exclusive, SpaceOk, SwitchTo;
    SwitchKeeps(m, next, true);
    SwitchGaps(m, next, true);
  }

  /** A tidy step loses no frame. */
  lemma TidyStep(m: Mem, e: Event)
    requires MemInv(m) && Enabled(m, e) && Tidy(m, e) && Gaps(m)
    ensures MemInv(Step(m, e)) && Gaps(Step(m, e)) && NoneLost(m, Step(m, e))
  {
    hide Uses, Exclusive, SpaceOk, SwitchTo, Exit, Load, Fork, Brk, Grow, KernelBrk, GapOk;
    StepKeeps(m, e);
    match e
    case EBrk(addr) => BrkTidy(m, addr);
    case EGrow(addr) => GrowTidy(m, addr);
    case EFork => ForkGaps(m);
    case EExec(img) => ExecGaps(m, img);
    case EExit(next) => ExitGaps(m, next);
    case ESwitch(next) => SwitchStepGaps(m, next);
    case EKernelBrk(end) => KernelBrkTidy(m, end);
    case _ =>
  }

  /** Every frame of the machine is free or mapped, exactly once; there are no others. */
  ghost predicate AccountedFor(m: Mem, total: int) {
    forall f :: Uses(m, f) == if 0 <= f < total then 1 else 0
  }

  /** On every tidy run from a state that accounts for all frames, every state does. */
  lemma {:induction false} NoFrameIsEverLost(r: Trace, total: int, n: nat)
    requires IsRun(r) && Gaps(r.states[0]) && AccountedFor(r.states[0], total) && n < |r.states|
    requires forall i :: 0 <= i < n ==> MemInv(r.states[i]) ==> Tidy(r.states[i], r.events[i])
    ensures MemInv(r.states[n]) && Gaps(r.states[n]) && AccountedFor(r.states[n], total)
  {
    hide Step, MemInv, Uses, Tidy, Enabled;
    if n > 0 {
      NoFrameIsEverLost(r, total, n - 1);
      TidyStep(r.states[n - 1], r.events[n - 1]);
    }
  }
}
