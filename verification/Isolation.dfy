/**
 What follows from one owner per frame.  No step touches the memory or the saved contexts of
 a process that is not running; Fork gives the child its own copy of every page; and a
 process that is switched out and later switched back in goes on exactly where it was.
 */
module Isolation {
  import opened Memory
  import opened Frames
  import opened AddressSpaces

  // ----- memory contents under each operation -------------------------------------------

  ghost predicate Keeps(m: Mem, r: Mem, f: int) {
    PageAt(r, f) == PageAt(m, f)
  }

  /** The frames of a process that is not running are none of those a step may write: free
      ones, the running kernel stack, and the running process's own. */
  lemma OthersFrames(m: Mem, o: Owner, f: int)
    requires MemInv(m) && Owns(m, o, f) && (o.UserPage? || o.StackPage?) && o.p != m.active
    ensures f !in m.free && f != LiveFrame(m, 0) && f != LiveFrame(m, 1)
    ensures forall i :: 0 <= i < TABLE && m.spaces[m.active].upt[i].valid ==> m.spaces[m.active].upt[i].pfn != f
    ensures f != m.spaces[m.active].kst[0].pfn && f != m.spaces[m.active].kst[1].pfn
  {
    hide Uses, Exclusive;
    OwnedNotFree(m, o, f);
    assert SpaceOk(m, m.active);
    if f == LiveFrame(m, 0) { OneOwner(m, o, KernelPage(STACK0), f); }
    if f == LiveFrame(m, 1) { OneOwner(m, o, KernelPage(STACK0 + 1), f); }
    if f == m.spaces[m.active].kst[0].pfn { OneOwner(m, o, StackPage(m.active, 0), f); }
    if f == m.spaces[m.active].kst[1].pfn { OneOwner(m, o, StackPage(m.active, 1), f); }
    forall i | 0 <= i < TABLE && m.spaces[m.active].upt[i].valid ensures m.spaces[m.active].upt[i].pfn != f {
      if m.spaces[m.active].upt[i].pfn == f { OneOwner(m, o, UserPage(m.active, i), f); }
    }
  }

  lemma {:induction false} CopyWritesFree(m: Mem, parent: int, child: int, i: nat, f: int)
    requires 0 <= parent < |m.spaces| && 0 <= child < |m.spaces| && i <= TABLE && parent != child
    requires |m.spaces[parent].upt| == TABLE && |m.spaces[child].upt| == TABLE
    requires f !in m.free && |m.free| >= Used(m.spaces[parent].upt[i..])
    ensures Keeps(m, CopyFrom(m, parent, child, i), f)
    decreases TABLE - i
  {
    if i < TABLE {
      var m1 := CopyPage(m, parent, child, i);
      assert m.spaces[parent].upt[i..][1..] == m.spaces[parent].upt[i + 1..];
      assert m1.spaces[parent].upt == m.spaces[parent].upt;
      assert f !in m1.free;
      CopyWritesFree(m1, parent, child, i + 1, f);
    }
  }

  lemma ForkWritesFree(m: Mem, f: int)
    requires MemInv(m) && Enabled(m, EFork) && f !in m.free
    ensures Keeps(m, Step(m, EFork), f)
  {
    hide Uses, Exclusive, InitStack, CopyFrom;
    var child := |m.spaces|;
    NewbornKeeps(m);
    InitStackKeeps(Newborn(m), child);
    var m2 := InitStack(Newborn(m), child);
    assert m2.spaces[m.active].upt[0..] == m.spaces[m.active].upt;
    CopyWritesFree(m2, m.active, child, 0, f);
  }

  /** A switch writes free frames, the running kernel stack and the old process's kernel stack. */
  lemma SwitchWrites(m: Mem, next: int, save: bool, f: int)
    requires FrameInv(m) && CanSwitch(m, next)
    requires f !in m.free && f != LiveFrame(m, 0) && f != LiveFrame(m, 1)
    requires save ==> f != m.spaces[m.active].kst[0].pfn && f != m.spaces[m.active].kst[1].pfn
    requires save ==> m.spaces[m.active].kst[0].valid || next != m.active
    ensures Keeps(m, SwitchTo(m, next, save), f)
  {
    hide Uses, Exclusive, InitStack, SwitchTo;
    SwitchIs(m, next, save);
    PreparedFrame(m, next, save);
    assert SpaceOk(m, m.active);
  }

  lemma PreparedFrame(m: Mem, next: int, save: bool)
    requires FrameInv(m) && CanSwitch(m, next)
    ensures var r := Prepared(m, next, save);
            && |r.spaces| == |m.spaces| && r.kpt == m.kpt && r.kregs == m.kregs && r.uctx == m.uctx
            && (forall g :: g !in m.free ==> Keeps(m, r, g))
            && (m.spaces[next].kst[0].pfn != 0 ==> r.phys == m.phys && r.free == m.free)
            && (forall q :: 0 <= q < |m.spaces| && q != next ==>
                  r.spaces[q] == (if save && q == m.active then m.spaces[q].(uctx := m.uctx) else m.spaces[q]))
            && (m.spaces[next].kst[0].pfn != 0 ==>
                  r.spaces[next] == (if save && next == m.active then m.spaces[next].(uctx := m.uctx) else m.spaces[next]))
            && r.spaces[next].upt == m.spaces[next].upt && r.spaces[next].alive == m.spaces[next].alive
            && r.spaces[next].nextHeap == m.spaces[next].nextHeap && r.spaces[next].nextStack == m.spaces[next].nextStack
  {
    hide Uses, Exclusive, InitStack;
    var was := m.active;
    var m1 := m.(active := next);
    ContentsChangeKeeps(m, m1);
    BoundsChangeKeeps(m1, was, m1.spaces[was].(uctx := m.uctx));
    var m2 := if save then SetSpace(m1, was, m1.spaces[was].(uctx := m.uctx)) else m1;
    assert SpaceOk(m2, next);
    if m2.spaces[next].kst[0].pfn == 0 {
      InitStackKeeps(m2, next);
    }
  }

  /** No step changes the contents of a frame that belongs to a process that is not running. */
  lemma FrameKept(m: Mem, e: Event, o: Owner, f: int)
    requires MemInv(m) && Enabled(m, e) && Owns(m, o, f) && (o.UserPage? || o.StackPage?) && o.p != m.active
    ensures Keeps(m, Step(m, e), f)
  {
    hide Uses, Exclusive, SwitchTo, Exit, Fork, TryLoad, MapUp, MapDown, MapKernelUp;
    OthersFrames(m, o, f);
    match e
    case EFork => ForkWritesFree(m, f);
    case ESwitch(next) => SwitchWrites(m, next, true, f);
    case EExit(next) => ExitWrites(m, next, o, f);
    case EExec(img) => LoadFrame(m, m.active, img);
    case EKernelBrk(end) => KernelBrkFrame(m, end);
    case _ =>
  }

  lemma KernelBrkFrame(m: Mem, end: int)
    requires Shape(m)
    ensures var r := KernelBrk(m, end).m;
            && r.phys == m.phys && r.spaces == m.spaces && r.active == m.active && |r.kpt| == TABLE
            && r.kpt[STACK0] == m.kpt[STACK0] && r.kpt[STACK0 + 1] == m.kpt[STACK0 + 1]
            && r.uctx == m.uctx && r.kregs == m.kregs
  {
    if m.brk < end < STACK0 {
      MapKernelUpTable(m, m.brk, end);
    }
  }

  lemma ExitWrites(m: Mem, next: int, o: Owner, f: int)
    requires MemInv(m) && Enabled(m, EExit(next)) && Owns(m, o, f) && (o.UserPage? || o.StackPage?) && o.p != m.active
    ensures Keeps(m, Step(m, EExit(next)), f)
  {
    hide Uses, Exclusive, SwitchTo, Exit;
    ExitKeeps(m);
    var r := Exit(m);
    assert Owns(r, o, f);
    OwnedNotFree(r, o, f);
    OthersFrames(m, o, f);
    SwitchWrites(r, next, false, f);
  }

  // ----- nobody else's process is touched ---------------------------------------------------

  /** q is as it was: tables, bounds, contexts, and the contents behind every page it has. */
  ghost predicate Untouched(m: Mem, r: Mem, q: int)
    requires 0 <= q < |m.spaces|
  {
    && |r.spaces| >= |m.spaces| && r.spaces[q] == m.spaces[q]
    && (forall i :: 0 <= i < |m.spaces[q].upt| && m.spaces[q].upt[i].valid ==> Keeps(m, r, m.spaces[q].upt[i].pfn))
    && (forall i :: 0 <= i < |m.spaces[q].kst| && m.spaces[q].kst[i].valid ==> Keeps(m, r, m.spaces[q].kst[i].pfn))
  }

  /** The step gives q its first turn, and with it its kernel stack. */
  ghost predicate FirstTurn(m: Mem, e: Event, q: int)
    requires 0 <= q < |m.spaces|
  {
    (e.ESwitch? || e.EExit?) && e.next == q && |m.spaces[q].kst| > 0 && m.spaces[q].kst[0].pfn == 0
  }

  lemma SpaceKept(m: Mem, e: Event, q: int)
    requires MemInv(m) && Enabled(m, e) && 0 <= q < |m.spaces| && q != m.active && !FirstTurn(m, e, q)
    ensures |Step(m, e).spaces| >= |m.spaces| && Step(m, e).spaces[q] == m.spaces[q]
  {
    hide Uses, Exclusive, SwitchTo, Exit, Fork, TryLoad, MapUp, MapDown, MapKernelUp;
    match e
    case EFork => ForkFrame(m);
    case ESwitch(next) => SwitchFrame(m, next, true, q);
    case EExit(next) =>
      ExitKeeps(m);
      SwitchFrame(Exit(m), next, false, q);
    case EExec(img) => LoadFrame(m, m.active, img);
    case EKernelBrk(end) => KernelBrkFrame(m, end);
    case _ =>
  }

  lemma ForkFrame(m: Mem)
    requires MemInv(m) && Enabled(m, EFork)
    ensures var r := Fork(m);
            && |r.spaces| == |m.spaces| + 1 && (forall q :: 0 <= q < |m.spaces| ==> r.spaces[q] == m.spaces[q])
            && r.kpt == m.kpt && r.active == m.active && r.uctx == m.uctx && r.kregs == m.kregs
            && r.spaces[|m.spaces|].nextHeap == m.spaces[m.active].nextHeap
            && r.spaces[|m.spaces|].nextStack == m.spaces[m.active].nextStack
            && r.spaces[|m.spaces|].uctx == m.uctx.(ret := 0)
  {
    hide Uses, Exclusive, InitStack, CopyFrom;
    NewbornKeeps(m);
    InitStackKeeps(Newborn(m), |m.spaces|);
  }

  lemma SwitchFrame(m: Mem, next: int, save: bool, q: int)
    requires FrameInv(m) && CanSwitch(m, next) && 0 <= q < |m.spaces| && q != m.active
    requires q != next || m.spaces[q].kst[0].pfn != 0
    ensures |SwitchTo(m, next, save).spaces| == |m.spaces| && SwitchTo(m, next, save).spaces[q] == m.spaces[q]
  {
    hide Uses, Exclusive, InitStack, SwitchTo, Prepared, PageAt;
    SwitchIs(m, next, save);
    PreparedFrame(m, next, save);
  }

  /** Isolation: a step by the running process leaves every other process untouched, its
      user pages, its kernel stack and its saved contexts. */
  lemma OthersUntouched(m: Mem, e: Event, q: int)
    requires MemInv(m) && Enabled(m, e) && 0 <= q < |m.spaces| && q != m.active && !FirstTurn(m, e, q)
    ensures Untouched(m, Step(m, e), q)
  {
    hide Uses, Exclusive, Step, Enabled, Keeps, SpaceOk;
    SpaceKept(m, e, q);
    forall i | 0 <= i < TABLE && m.spaces[q].upt[i].valid ensures Keeps(m, Step(m, e), m.spaces[q].upt[i].pfn) {
      FrameKept(m, e, UserPage(q, i), m.spaces[q].upt[i].pfn);
    }
    forall i | 0 <= i < 2 && m.spaces[q].kst[i].valid ensures Keeps(m, Step(m, e), m.spaces[q].kst[i].pfn) {
      FrameKept(m, e, StackPage(q, i), m.spaces[q].kst[i].pfn);
    }
  }

  /** On every run no step of one process, a store included, changes another process. */
  lemma RunsAreIsolated(r: Trace, n: nat, q: int)
    requires IsRun(r) && n < |r.events| && 0 <= q < |r.states[n].spaces| && q != r.states[n].active
    requires !FirstTurn(r.states[n], r.events[n], q)
    ensures Untouched(r.states[n], r.states[n + 1], q)
  {
    hide Step, MemInv, Untouched, Enabled;
    FramesHaveOneOwner(r, n);
    OthersUntouched(r.states[n], r.events[n], q);
  }

  // ----- Fork copies ---------------------------------------------------------------------------

  lemma {:induction false} CopyTable(m: Mem, parent: int, child: int, i: nat, j: nat)
    requires 0 <= parent < |m.spaces| && 0 <= child < |m.spaces| && parent != child && i <= TABLE && j < TABLE
    requires |m.spaces[parent].upt| == TABLE && |m.spaces[child].upt| == TABLE
    requires |m.free| >= Used(m.spaces[parent].upt[i..])
    requires forall f :: multiset(m.free)[f] <= 1
    requires forall k :: 0 <= k < TABLE && m.spaces[parent].upt[k].valid ==> m.spaces[parent].upt[k].pfn !in m.free
    ensures var x, y := m.spaces[parent].upt[j], CopyFrom(m, parent, child, i).spaces[child].upt[j];
            && (j < i || !x.valid ==> y == m.spaces[child].upt[j])
            && (j >= i && x.valid ==>
                  && y.valid && y.prot == x.prot && y.pfn in m.free
                  && PageAt(CopyFrom(m, parent, child, i), y.pfn) == PageAt(m, x.pfn))
    decreases TABLE - i
  {
    hide CopyFrom, OnlyTable;
    CopyUnfold(m, parent, child, i);
    if i < TABLE {
      var x := m.spaces[parent].upt[i];
      var m1 := CopyPage(m, parent, child, i);
      assert m.spaces[parent].upt[i..][1..] == m.spaces[parent].upt[i + 1..];
      assert m1.spaces[parent].upt == m.spaces[parent].upt;
      CopyPageFree(m, parent, child, i);
      CopyTable(m1, parent, child, i + 1, j);
      if x.valid && j == i {
        CopyWritesFree(m1, parent, child, i + 1, m.free[0]);
      }
    }
  }

  lemma CopyPageFree(m: Mem, parent: int, child: int, i: nat)
    requires HasUser(m, parent, i) && HasUser(m, child, i)
    requires forall f :: multiset(m.free)[f] <= 1
    requires m.spaces[parent].upt[i].valid ==> m.free != []
    ensures forall f :: multiset(CopyPage(m, parent, child, i).free)[f] <= 1
    ensures forall f :: f in CopyPage(m, parent, child, i).free ==>
              f in m.free && (m.spaces[parent].upt[i].valid ==> f != m.free[0])
  {
    if m.spaces[parent].upt[i].valid {
      forall f ensures multiset(m.free[1..])[f] <= 1 && (f in m.free[1..] ==> f in m.free && f != m.free[0]) {
        assert multiset(m.free)[f] <= 1;
        FreeSplit(m, f);
      }
    }
  }

  lemma CopyUnfold(m: Mem, parent: int, child: int, i: nat)
    requires 0 <= parent < |m.spaces| && 0 <= child < |m.spaces| && i <= TABLE
    requires |m.spaces[parent].upt| == TABLE && |m.spaces[child].upt| == TABLE
    ensures CopyFrom(m, parent, child, i) ==
            if i == TABLE then m else CopyFrom(CopyPage(m, parent, child, i), parent, child, i + 1)
    ensures OnlyTable(m, CopyFrom(m, parent, child, i), child)
  {
  }

  /** Fork: the child has the same valid pages, protections and contents as the parent had,
      in frames of its own, with the same bounds and, but for register 0, the same context;
      and the parent is as it was. */
  lemma ForkCopies(m: Mem, j: nat)
    requires MemInv(m) && Enabled(m, EFork) && j < TABLE
    ensures var r := Step(m, EFork);
            var x := m.spaces[m.active].upt[j];
            && |r.spaces| == |m.spaces| + 1
            && var y := r.spaces[|m.spaces|].upt[j];
               && y.valid == x.valid
               && (x.valid ==> y.prot == x.prot && y.pfn != x.pfn && PageAt(r, y.pfn) == PageAt(m, x.pfn))
               && r.spaces[|m.spaces|].nextHeap == m.spaces[m.active].nextHeap
               && r.spaces[|m.spaces|].nextStack == m.spaces[m.active].nextStack
               && r.spaces[|m.spaces|].uctx == m.uctx.(ret := 0)
               && r.spaces[m.active] == m.spaces[m.active]
               && (x.valid ==> Keeps(m, r, x.pfn))
  {
    hide Uses, Exclusive, InitStack, CopyFrom;
    var a, child := m.active, |m.spaces|;
    var x := m.spaces[a].upt[j];
    NewbornKeeps(m);
    InitStackKeeps(Newborn(m), child);
    var m2 := InitStack(Newborn(m), child);
    assert m2.spaces[a].upt[0..] == m.spaces[a].upt;
    forall k | 0 <= k < TABLE && m2.spaces[a].upt[k].valid ensures m2.spaces[a].upt[k].pfn !in m2.free {
      OwnedNotFree(m2, UserPage(a, k), m2.spaces[a].upt[k].pfn);
    }
    FreeDistinct(m2);
    CopyTable(m2, a, child, 0, j);
    ForkFrame(m);
    if x.valid {
      OwnedNotFree(m, UserPage(a, j), x.pfn);
      ForkWritesFree(m, x.pfn);
    }
  }

  lemma FreeDistinct(m: Mem)
    requires Exclusive(m)
    ensures forall f :: multiset(m.free)[f] <= 1
  {
    forall f ensures multiset(m.free)[f] <= 1 {
      assert Uses(m, f) <= 1;
    }
  }

  // ----- switched out and back in --------------------------------------------------------------------

  /** The running kernel stack. */
  function Stack(m: Mem, i: nat): Page
    requires |m.kpt| == TABLE && i < 2
  {
    PageAt(m, LiveFrame(m, i))
  }

  /** p is parked with this kernel stack, kernel context and user context. */
  ghost predicate Parked(m: Mem, p: int, s0: Page, s1: Page, c: KernelContext, u: UserContext) {
    && 0 <= p < |m.spaces| && |m.spaces[p].kst| == 2 && m.spaces[p].alive
    && m.spaces[p].kst[0].valid && m.spaces[p].kst[1].valid && m.spaces[p].kst[0].pfn != 0
    && PageAt(m, m.spaces[p].kst[0].pfn) == s0 && PageAt(m, m.spaces[p].kst[1].pfn) == s1
    && m.spaces[p].kctx == c && (c.InSwitch? ==> c.owner == p) && m.spaces[p].uctx == u
  }

  /** Distinctness of the frames a switch copies between. */
  lemma StackFrames(m: Mem, p: int)
    requires FrameInv(m) && 0 <= p < |m.spaces| && m.spaces[p].kst[0].valid && m.spaces[p].kst[1].valid
    ensures m.spaces[p].kst[0].pfn != m.spaces[p].kst[1].pfn && LiveFrame(m, 0) != LiveFrame(m, 1)
    ensures forall i, j :: 0 <= i < 2 && 0 <= j < 2 ==> m.spaces[p].kst[i].pfn != LiveFrame(m, j)
  {
    hide Uses, Exclusive;
    var k := m.spaces[p].kst;
    if k[0].pfn == k[1].pfn { OneOwner(m, StackPage(p, 0), StackPage(p, 1), k[0].pfn); }
    if LiveFrame(m, 0) == LiveFrame(m, 1) { OneOwner(m, KernelPage(STACK0), KernelPage(STACK0 + 1), LiveFrame(m, 0)); }
    forall i, j | 0 <= i < 2 && 0 <= j < 2 ensures k[i].pfn != LiveFrame(m, j) {
      if k[i].pfn == LiveFrame(m, j) { OneOwner(m, StackPage(p, i), KernelPage(STACK0 + j), k[i].pfn); }
    }
  }

  lemma TwoStacks(m: Mem, p: int, q: int, i: nat, j: nat)
    requires FrameInv(m) && 0 <= p < |m.spaces| && 0 <= q < |m.spaces| && p != q && i < 2 && j < 2
    requires m.spaces[p].kst[i].valid && m.spaces[q].kst[j].valid
    ensures m.spaces[p].kst[i].pfn != m.spaces[q].kst[j].pfn
  {
    hide Uses, Exclusive;
    if m.spaces[p].kst[i].pfn == m.spaces[q].kst[j].pfn {
      OneOwner(m, StackPage(p, i), StackPage(q, j), m.spaces[p].kst[i].pfn);
    }
  }

  /** Switching away parks the running process with what it has. */
  lemma SwitchParks(m: Mem, next: int)
    requires MemInv(m) && Enabled(m, ESwitch(next)) && next != m.active
    ensures Parked(Step(m, ESwitch(next)), m.active, Stack(m, 0), Stack(m, 1), InSwitch(m.active, m.kregs), m.uctx)
  {
    hide Uses, Exclusive, InitStack, SwitchTo, Prepared;
    var a := m.active;
    SwitchIs(m, next, true);
    PreparedKeeps(m, next, true);
    PreparedFrame(m, next, true);
    assert SpaceOk(m, a);
    var r := Prepared(m, next, true);
    StackFrames(r, a);
    OwnedNotFree(m, KernelPage(STACK0), LiveFrame(m, 0));
    OwnedNotFree(m, KernelPage(STACK0 + 1), LiveFrame(m, 1));
  }

  /** Switching to a parked process restores exactly that, and its own page table. */
  lemma SwitchUnparks(m: Mem, next: int, save: bool, s0: Page, s1: Page, c: KernelContext, u: UserContext)
    requires FrameInv(m) && CanSwitch(m, next) && next != m.active && Parked(m, next, s0, s1, c, u)
    requires save ==> m.spaces[m.active].kst[0].valid && m.spaces[m.active].kst[1].valid
    ensures var r := SwitchTo(m, next, save);
            && r.active == next && r.installed == next && r.uctx == u && r.kregs == (if c.InSwitch? then c.regs else m.kregs) && |r.kpt| == TABLE
            && Stack(r, 0) == s0 && Stack(r, 1) == s1
  {
    hide Uses, Exclusive, InitStack, SwitchTo, Prepared;
    var a := m.active;
    SwitchIs(m, next, save);
    PreparedKeeps(m, next, save);
    PreparedFrame(m, next, save);
    var r := Prepared(m, next, save);
    StackFrames(r, next);
    if save {
      TwoStacks(r, next, a, 0, 0);
      TwoStacks(r, next, a, 0, 1);
      TwoStacks(r, next, a, 1, 0);
      TwoStacks(r, next, a, 1, 1);
    }
  }

  /** A parked process stays parked until it is its turn. */
  lemma ParkedKept(m: Mem, e: Event, p: int, s0: Page, s1: Page, c: KernelContext, u: UserContext)
    requires MemInv(m) && Enabled(m, e) && p != m.active && Parked(m, p, s0, s1, c, u)
    ensures Parked(Step(m, e), p, s0, s1, c, u)
  {
    hide Uses, Exclusive, Step, Enabled, SpaceOk;
    OthersUntouched(m, e, p);
  }

  /** Only a switch or an exit changes who runs. */
  lemma WhoRuns(m: Mem, e: Event)
    requires MemInv(m) && Enabled(m, e)
    ensures e.ESwitch? || e.EExit? || Step(m, e).active == m.active
  {
    hide Uses, Exclusive, SwitchTo, Exit, Fork, TryLoad, MapUp, MapDown, MapKernelUp;
    match e
    case EFork => ForkFrame(m);
    case EExec(img) => LoadFrame(m, m.active, img);
    case EKernelBrk(end) => KernelBrkFrame(m, end);
    case _ =>
  }

  lemma TurnRestores(m: Mem, e: Event, p: int, s0: Page, s1: Page, c: KernelContext, u: UserContext)
    requires MemInv(m) && Enabled(m, e) && p != m.active && Parked(m, p, s0, s1, c, u) && Step(m, e).active == p
    ensures var r := Step(m, e);
            r.installed == p && r.uctx == u && r.kregs == (if c.InSwitch? then c.regs else m.kregs) && |r.kpt| == TABLE && Stack(r, 0) == s0 && Stack(r, 1) == s1
  {
    hide Uses, Exclusive, SwitchTo, Exit, Stack;
    WhoRuns(m, e);
    assert SpaceOk(m, m.active);
    match e
    case ESwitch(next) =>
      SwitchKeeps(m, next, true);
      SwitchUnparks(m, p, true, s0, s1, c, u);
    case EExit(next) =>
      ExitKeeps(m);
      SwitchKeeps(Exit(m), next, false);
      SwitchUnparks(Exit(m), p, false, s0, s1, c, u);
    case _ =>
  }

  lemma {:induction false} StaysParked(r: Trace, from: nat, n: nat, p: int, s0: Page, s1: Page, c: KernelContext, u: UserContext)
    requires IsRun(r) && from <= n < |r.states| && Parked(r.states[from], p, s0, s1, c, u)
    requires forall k :: from <= k < n ==> r.states[k].active != p
    ensures Parked(r.states[n], p, s0, s1, c, u)
    decreases n
  {
    hide Step, Parked, MemInv, Enabled;
    if n > from {
      StaysParked(r, from, n - 1, p, s0, s1, c, u);
      FramesHaveOneOwner(r, n - 1);
      assert r.states[n - 1].active != p;
      ParkedKept(r.states[n - 1], r.events[n - 1], p, s0, s1, c, u);
    }
  }

  /** On every run: a process switched out at step i and next switched in at step j finds the
      same kernel stack, kernel registers and user context it had, and its own page table
      installed, whatever happened in between. */
  lemma SwitchRoundTrip(r: Trace, i: nat, j: nat)
    requires IsRun(r) && i < j < |r.events|
    requires r.events[i].ESwitch? && r.states[i + 1].active != r.states[i].active
    requires forall k :: i < k <= j ==> r.states[k].active != r.states[i].active
    requires r.states[j + 1].active == r.states[i].active
    ensures var m, m' := r.states[i], r.states[j + 1];
            && |m.kpt| == TABLE && |m'.kpt| == TABLE
            && Stack(m', 0) == Stack(m, 0) && Stack(m', 1) == Stack(m, 1)
            && m'.kregs == m.kregs && m'.uctx == m.uctx && m'.installed == m.active
  {
    hide Step, Parked, Stack, Enabled;
    var m, p := r.states[i], r.states[i].active;
    FramesHaveOneOwner(r, i);
    FramesHaveOneOwner(r, j);
    NextRuns(r, i);
    SwitchParks(m, r.events[i].next);
    StaysParked(r, i + 1, j, p, Stack(m, 0), Stack(m, 1), InSwitch(p, m.kregs), m.uctx);
    TurnRestores(r.states[j], r.events[j], p, Stack(m, 0), Stack(m, 1), InSwitch(m.active, m.kregs), m.uctx);
  }

  lemma NextRuns(r: Trace, i: nat)
    requires IsRun(r) && i < |r.events| && r.events[i].ESwitch? && MemInv(r.states[i])
    ensures r.states[i + 1].active == r.events[i].next
  {
    hide Uses, Exclusive, SwitchTo;
    SwitchKeeps(r.states[i], r.events[i].next, true);
  }
}
