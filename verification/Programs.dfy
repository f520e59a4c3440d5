/**
 What a program finds when it starts: after Exec, at boot, in a forked child and at a first turn.  Its pages are exactly those
 of its sections, with the right protections; it starts with the context of the image, or with that of its
 parent and 0 in register 0; and the kernel under it runs on a copy of the initial kernel stack.
 */
module Programs {
  import opened Constants
  import opened Memory
  import opened Frames
  import opened AddressSpaces
  import opened Isolation
  import opened Boot
  import opened MemoryCalls

  // ----- sections ------------------------------------------------------------------------

  predicate InText(img: Image, j: int) { img.textPage <= j < img.textPage + img.textPages }
  predicate InData(img: Image, j: int) { img.dataPage <= j < img.dataPage + img.dataPages }
  predicate InStack(img: Image, j: int) { 128 - img.stackPages <= j < 128 }

  /** The space holds exactly the sections of the image, text read-only, and starts where the image says. */
  ghost predicate Holds(x: Space, img: Image) {
    && |x.upt| == 128
    && (forall j :: 0 <= j < 128 ==> (x.upt[j].valid <==> InText(img, j) || InData(img, j) || InStack(img, j)))
    && (forall j :: 0 <= j < 128 && x.upt[j].valid ==> x.upt[j].prot == if InText(img, j) then RX else RW)
    && x.nextHeap == img.dataPage + img.dataPages && x.nextStack == 127 - img.stackPages && x.uctx == img.start
  }

  lemma {:induction false} ProtectTable(m: Mem, p: int, i: int, end: int, j: int)
    requires 0 <= i && 0 <= p < |m.spaces| && end <= |m.spaces[p].upt| && 0 <= j < |m.spaces[p].upt|
    ensures Protect(m, p, i, end).spaces[p].upt[j] ==
            if i <= j < end then m.spaces[p].upt[j].(prot := RX) else m.spaces[p].upt[j]
    decreases end - i
  {
    if i < end {
      ProtectTable(SetUser(m, p, i, m.spaces[p].upt[i].(prot := READ_EXEC)), p, i + 1, end, j);
    }
  }

  lemma ImageTable(m: Mem, p: int, img: Image, j: int)
    requires 0 <= p < |m.spaces| && |m.spaces[p].upt| == TABLE && ImageFits(img) && 0 <= j < TABLE
    requires !m.spaces[p].upt[j].valid && |m.free| >= img.textPages + img.dataPages + img.stackPages
    ensures var x := MapImage(m, p, img).spaces[p].upt[j];
            && (x.valid <==> InText(img, j) || InData(img, j) || InStack(img, j))
            && (x.valid ==> x.prot == if InText(img, j) then RX else RW)
  {
    hide MapUp, MapDown, Protect;
    var text, end := img.textPage, img.textPage + img.textPages;
    MapUpFree(m, p, text, end);
    MapUpTable(m, p, text, end, j);
    var m2 := MapUp(m, p, text, end).m;
    MapUpFree(m2, p, img.dataPage, img.dataPage + img.dataPages);
    MapUpTable(m2, p, img.dataPage, img.dataPage + img.dataPages, j);
    var m3 := MapUp(m2, p, img.dataPage, img.dataPage + img.dataPages).m;
    MapDownTable(m3, p, TABLE - 1, TABLE - 1 - img.stackPages, j);
    var m4 := MapDown(m3, p, TABLE - 1, TABLE - 1 - img.stackPages);
    ProtectTable(m4, p, text, end, j);
  }

  lemma LoadHolds(m: Mem, p: int, img: Image)
    requires 0 <= p < |m.spaces| && |m.spaces[p].upt| == TABLE && ImageFits(img)
    requires |m.free| + Used(m.spaces[p].upt) >= img.textPages + img.dataPages + img.stackPages
    ensures Holds(Load(m, p, img).spaces[p], img)
  {
    hide FreeUserFrom, MapImage, Used;
    var m1 := FreeUserFrom(m, p, 0);
    FreeUserCount(m, p);
    forall j | 0 <= j < TABLE
      ensures var x := MapImage(m1, p, img).spaces[p].upt[j];
              && (x.valid <==> InText(img, j) || InData(img, j) || InStack(img, j))
              && (x.valid ==> x.prot == if InText(img, j) then RX else RW)
    {
      FreeUserTable(m, p, 0, j);
      ImageTable(m1, p, img, j);
    }
  }

  /** Exec with frames enough: the process holds the image, saved and running context are the image's, its table is installed, and
      the kernel stack is the initial one.  Nothing of any other process changes. */
  lemma ExecOutcome(m: Mem, img: Image)
    requires MemInv(m) && Enabled(m, EExec(img))
    requires |m.free| + Used(m.spaces[m.active].upt) >= img.textPages + img.dataPages + img.stackPages
    ensures var r, a := Step(m, EExec(img)), m.active;
            && r.active == a && r.installed == a && |r.spaces| == |m.spaces|
            && Holds(r.spaces[a], img) && r.uctx == img.start
            && r.spaces[a].alive && r.spaces[a].kst == m.spaces[a].kst
            && (forall q :: 0 <= q < |m.spaces| && q != a ==> r.spaces[q] == m.spaces[q])
            && |r.kpt| == TABLE && Stack(r, 0) == PageAt(m, m.initial[0].pfn) && Stack(r, 1) == PageAt(m, m.initial[1].pfn)
  {
    hide Uses, Exclusive, SpaceOk, TryLoad, Load, Used, Holds;
    var a := m.active;
    LoadNeedsFrames(m, a, img);
    LoadHolds(m, a, img);
    LoadFrame(m, a, img);
    InitialApart(m);
    HoldsStart(Load(m, a, img).spaces[a], img);
    ExecKeeps(m, img);
    LoadKeeps(m, a, img);
  }

  lemma HoldsStart(x: Space, img: Image)
    requires Holds(x, img)
    ensures x.uctx == img.start
  {
  }

  /** The running kernel stack and the saved initial one are four different frames. */
  lemma InitialApart(m: Mem)
    requires FrameInv(m)
    ensures LiveFrame(m, 0) != LiveFrame(m, 1) && m.initial[0].pfn != m.initial[1].pfn
    ensures forall i, j :: 0 <= i < 2 && 0 <= j < 2 ==> m.initial[i].pfn != LiveFrame(m, j)
    ensures m.initial[0].pfn !in m.free && m.initial[1].pfn !in m.free && LiveFrame(m, 0) !in m.free && LiveFrame(m, 1) !in m.free
  {
    hide Uses, Exclusive, SpaceOk;
    OwnedNotFree(m, InitialStack(0), m.initial[0].pfn);
    OwnedNotFree(m, InitialStack(1), m.initial[1].pfn);
    OwnedNotFree(m, KernelPage(STACK0), LiveFrame(m, 0));
    OwnedNotFree(m, KernelPage(STACK0 + 1), LiveFrame(m, 1));
    if LiveFrame(m, 0) == LiveFrame(m, 1) {
      OneOwner(m, KernelPage(STACK0), KernelPage(STACK0 + 1), LiveFrame(m, 0));
    }
    if m.initial[0].pfn == m.initial[1].pfn {
      OneOwner(m, InitialStack(0), InitialStack(1), m.initial[0].pfn);
    }
    forall i, j | 0 <= i < 2 && 0 <= j < 2 ensures m.initial[i].pfn != LiveFrame(m, j) {
      if m.initial[i].pfn == LiveFrame(m, j) {
        OneOwner(m, InitialStack(i), KernelPage(STACK0 + j), LiveFrame(m, j));
      }
    }
  }

  /** At boot init and idle hold their images, and init runs with the context of its image. */
  lemma BootHolds(total: int, dataBase: int, kernelBrk: int, init: Image, idle: Image)
    requires ImageFits(init) && ImageFits(idle) && |Gathered(total, kernelBrk)| >= 4 + Pages(init) + Pages(idle)
    ensures var r := BootState(total, dataBase, kernelBrk, init, idle);
            && |r.spaces| == 2 && Holds(r.spaces[0], init) && Holds(r.spaces[1], idle)
            && r.active == 0 && r.installed == 0 && r.uctx == init.start
  {
    hide Gathered, Started, Holds, SaveInitial;
    StartedHolds(Bare(total, dataBase, kernelBrk), init, idle);
    SavesOnly(Started(Bare(total, dataBase, kernelBrk), init, idle));
    HoldsStart(Started(Bare(total, dataBase, kernelBrk), init, idle).spaces[0], init);
  }

  lemma SavesOnly(m: Mem)
    requires |m.kpt| == TABLE && |m.initial| == 2
    ensures SaveInitial(SaveInitial(m, 0), 1).spaces == m.spaces
  {
  }

  lemma StartedHolds(m: Mem, init: Image, idle: Image)
    requires m.spaces == [] && |m.kpt| == TABLE && |m.initial| == 2 && ImageFits(init) && ImageFits(idle)
    requires |m.free| >= 4 + Pages(init) + Pages(idle)
    ensures Holds(Started(m, init, idle).spaces[0], init) && Holds(Started(m, init, idle).spaces[1], idle)
  {
    hide Load, Holds, Used, Uses;
    UsedBlank(TABLE);
    var c := GiveStack(GiveStack(AddProcess(m), 0, 0), 0, 1);
    LoadBlank(c, 0, init, 0);
    LoadHolds(c, 0, init);
    var d := AddProcess(Load(c, 0, init));
    LoadBlank(d, 1, idle, 0);
    LoadHolds(d, 1, idle);
  }

  // ----- first turns ------------------------------------------------------------------------

  /** A new kernel stack holds a copy of the initial one, page by page. */
  lemma NewStackHolds(m: Mem, p: int)
    requires FrameInv(m) && 0 <= p < |m.spaces| && m.spaces[p].alive && !m.spaces[p].kst[0].valid && |m.free| >= 2
    ensures var r := InitStack(m, p);
            && r.spaces[p].kst[0].valid && r.spaces[p].kst[1].valid && r.spaces[p].kst[0].pfn != 0 && r.spaces[p].kctx == AtStart
            && r.spaces[p].kst[0].pfn !in r.free && r.spaces[p].kst[1].pfn !in r.free
            && PageAt(r, r.spaces[p].kst[0].pfn) == PageAt(m, m.initial[0].pfn)
            && PageAt(r, r.spaces[p].kst[1].pfn) == PageAt(m, m.initial[1].pfn)
            && r.spaces[p].uctx == m.spaces[p].uctx
  {
    hide Uses, Exclusive, SpaceOk;
    InitialApart(m);
    ZeroMeansEmpty(m);
    FreeDistinct(m);
    TwoFree(m.free);
  }

  lemma TwoFree(s: seq<int>)
    requires |s| >= 2 && forall f :: multiset(s)[f] <= 1
    ensures s[0] != s[1] && s[0] !in s[2..] && s[1] !in s[2..]
  {
    var a, b := s[0], s[1];
    assert multiset(s)[a] <= 1 && multiset(s)[b] <= 1;
    assert s == [a] + [b] + s[2..];
  }

  /** A forked child waits for its first turn with a copy of the initial kernel stack, and with the context of its parent
      but for 0 in register 0. */
  lemma ForkParks(m: Mem)
    requires MemInv(m) && Enabled(m, EFork)
    ensures Parked(Step(m, EFork), |m.spaces|, PageAt(m, m.initial[0].pfn), PageAt(m, m.initial[1].pfn), AtStart, m.uctx.(ret := 0))
  {
    hide Uses, Exclusive, SpaceOk, InitStack, CopyFrom, Used;
    var child := |m.spaces|;
    NewbornKeeps(m);
    NewStackHolds(Newborn(m), child);
    InitStackKeeps(Newborn(m), child);
    var m2 := InitStack(Newborn(m), child);
    assert m2.spaces[m.active].upt[0..] == m.spaces[m.active].upt;
    CopyWritesFree(m2, m.active, child, 0, m2.spaces[child].kst[0].pfn);
    CopyWritesFree(m2, m.active, child, 0, m2.spaces[child].kst[1].pfn);
  }

  /** On every run: a child forked at step i that first runs after step j starts with its parent's context as of step i and 0 in
      register 0, on the initial kernel stack, with its own page table. */
  lemma ChildStarts(r: Trace, i: nat, j: nat)
    requires IsRun(r) && i < j < |r.events| && r.events[i] == EFork
    requires forall k :: i < k <= j ==> r.states[k].active != |r.states[i].spaces|
    requires r.states[j + 1].active == |r.states[i].spaces|
    ensures var m, m' := r.states[i], r.states[j + 1];
            && |m'.kpt| == TABLE && |m.initial| == 2
            && m'.uctx == m.uctx.(ret := 0) && m'.installed == |m.spaces|
            && Stack(m', 0) == PageAt(m, m.initial[0].pfn) && Stack(m', 1) == PageAt(m, m.initial[1].pfn)
  {
    hide Step, Parked, Stack, Enabled;
    var m, child := r.states[i], |r.states[i].spaces|;
    FramesHaveOneOwner(r, i);
    FramesHaveOneOwner(r, j);
    ForkParks(m);
    var s0, s1 := PageAt(m, m.initial[0].pfn), PageAt(m, m.initial[1].pfn);
    StaysParked(r, i + 1, j, child, s0, s1, AtStart, m.uctx.(ret := 0));
    TurnRestores(r.states[j], r.events[j], child, s0, s1, AtStart, m.uctx.(ret := 0));
  }

  /** The first turn of a process that has no kernel stack yet: it runs with its saved context and its own table, on a copy
      of the initial stack. */
  lemma FirstTurnOutcome(m: Mem, next: int)
    requires MemInv(m) && Enabled(m, ESwitch(next)) && m.spaces[next].kst[0].pfn == 0
    ensures var r := Step(m, ESwitch(next));
            && r.active == next && r.installed == next && r.uctx == m.spaces[next].uctx && |r.kpt| == TABLE
            && Stack(r, 0) == PageAt(m, m.initial[0].pfn) && Stack(r, 1) == PageAt(m, m.initial[1].pfn)
  {
    hide Uses, Exclusive, InitStack, SwitchTo;
    var a := m.active;
    assert SpaceOk(m, a) && SpaceOk(m, next);
    assert a != next;
    SwitchIs(m, next, true);
    PreparedKeeps(m, next, true);
    PreparedFrame(m, next, true);
    var m1 := m.(active := next);
    var m2 := SetSpace(m1, a, m1.spaces[a].(uctx := m.uctx));
    ContentsChangeKeeps(m, m1);
    BoundsChangeKeeps(m1, a, m1.spaces[a].(uctx := m.uctx));
    NewStackHolds(m2, next);
    var r := Prepared(m, next, true);
    StackFrames(r, next);
    TwoStacks(r, next, a, 0, 0);
    TwoStacks(r, next, a, 0, 1);
    TwoStacks(r, next, a, 1, 0);
    TwoStacks(r, next, a, 1, 1);
  }
}
