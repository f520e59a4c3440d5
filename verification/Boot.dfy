/**
 What boot builds: the free list, the kernel page table, the first two processes and the
 saved initial kernel stack.  It satisfies the invariants of the runs, and it accounts for
 every physical frame exactly when the kernel heap ends on a page boundary.
 */
module Boot {
  import opened Constants
  import opened Memory
  import opened Frames
  import opened AddressSpaces
  import opened Conservation

  /** hi - 1, hi - 2, ..., lo */
  function Down(hi: int, lo: int): (s: seq<int>)
    ensures |s| == if hi <= lo then 0 else hi - lo
    decreases hi - lo
  {
    if hi <= lo then [] else [hi - 1] + Down(hi - 1, lo)
  }

  function FirstFree(kernelBrk: int): int { UpToPage(kernelBrk) / PAGESIZE }
  function FirstUnmapped(kernelBrk: int): int { kernelBrk / PAGESIZE }

  /** `gather_free_frames`: the frames above region 0, then those from the kernel stack down
      to the kernel break, rounded up. */
  function Gathered(total: int, kernelBrk: int): seq<int> {
    Down(total, TABLE) + Down(STACK0, FirstFree(kernelBrk))
  }

  /** `enable_vmem`: the kernel's pages below the break, rounded down, and its stack map to themselves,
      the text (below the data segment) executable and not writable. */
  function KernelTable(dataBase: int, kernelBrk: int): (s: seq<Pte>)
    ensures |s| == TABLE
  {
    seq(TABLE, i requires 0 <= i =>
      if i < FirstUnmapped(kernelBrk) || i >= STACK0
      then Pte(true, if i < FirstUnmapped(dataBase) then READ_EXEC else READ_WRITE, i)
      else NO_PAGE)
  }

  lemma KernelTableAt(dataBase: int, kernelBrk: int)
    ensures forall i :: 0 <= i < TABLE ==>
              KernelTable(dataBase, kernelBrk)[i] ==
              if i < FirstUnmapped(kernelBrk) || i >= STACK0
              then Pte(true, if i < FirstUnmapped(dataBase) then READ_EXEC else READ_WRITE, i)
              else NO_PAGE
  {
  }

  function Bare(total: int, dataBase: int, kernelBrk: int): Mem {
    Mem(Gathered(total, kernelBrk), KernelTable(dataBase, kernelBrk), Blank(2), [], map[], FirstUnmapped(kernelBrk),
        0, 0, UserContext(0, 0), 0)
  }

  // ----- every frame once ------------------------------------------------------------------

  lemma {:induction false} DownCount(hi: int, lo: int, f: int)
    ensures multiset(Down(hi, lo))[f] == if lo <= f < hi then 1 else 0
    decreases hi - lo
  {
    if hi > lo {
      DownCount(hi - 1, lo, f);
      assert Down(hi, lo) == [hi - 1] + Down(hi - 1, lo);
    }
  }

  lemma {:induction false} DownAt(hi: int, lo: int, i: nat)
    requires i < |Down(hi, lo)|
    ensures Down(hi, lo)[i] == hi - 1 - i
    decreases hi - lo
  {
    if i > 0 {
      DownAt(hi - 1, lo, i - 1);
    }
  }

  /** Frames are gathered from the top of memory down, so the highest is handed out first. */
  lemma GatheredDescends(total: int, kernelBrk: int, i: nat, j: nat)
    requires i < j < |Gathered(total, kernelBrk)|
    ensures Gathered(total, kernelBrk)[i] > Gathered(total, kernelBrk)[j]
  {
    var n := |Down(total, TABLE)|;
    if i < n { DownAt(total, TABLE, i); } else { DownAt(STACK0, FirstFree(kernelBrk), i - n); }
    if j < n { DownAt(total, TABLE, j); } else { DownAt(STACK0, FirstFree(kernelBrk), j - n); }
  }

  lemma GatheredCount(total: int, kernelBrk: int, f: int)
    ensures multiset(Gathered(total, kernelBrk))[f] ==
            (if TABLE <= f < total then 1 else 0) + (if FirstFree(kernelBrk) <= f < STACK0 then 1 else 0)
  {
    hide Down, FirstFree;
    DownCount(total, TABLE, f);
    DownCount(STACK0, FirstFree(kernelBrk), f);
    var a, b := Down(total, TABLE), Down(STACK0, FirstFree(kernelBrk));
    assert multiset(a + b) == multiset(a) + multiset(b);
  }

  /** A table whose valid entries map to themselves (from `base` on). */
  lemma {:induction false} IdentityCount(s: seq<Pte>, base: int, f: int)
    requires forall i :: 0 <= i < |s| && s[i].valid ==> s[i].pfn == base + i
    ensures HeldIn(s, f) == if base <= f < base + |s| && s[f - base].valid then 1 else 0
  {
    if s != [] {
      assert forall i :: 0 <= i < |s[1..]| ==> s[1..][i] == s[i + 1];
      IdentityCount(s[1..], base + 1, f);
    }
  }

  lemma BareUses(total: int, dataBase: int, kernelBrk: int, f: int)
    ensures Uses(Bare(total, dataBase, kernelBrk), f) ==
            (if TABLE <= f < total then 1 else 0) + (if FirstFree(kernelBrk) <= f < STACK0 then 1 else 0)
            + (if 0 <= f < TABLE && (f < FirstUnmapped(kernelBrk) || f >= STACK0) then 1 else 0)
  {
    hide HeldIn, Gathered, FirstFree, FirstUnmapped;
    var m := Bare(total, dataBase, kernelBrk);
    GatheredCount(total, kernelBrk, f);
    IdentityCount(m.kpt, 0, f);
    BlankHolds(m.initial, f);
  }

  /** Boot accounts for every frame exactly once if and only if the kernel break is on a page
      boundary; otherwise the page it cuts is neither mapped nor free. */
  lemma BareAccountsIff(total: int, dataBase: int, kernelBrk: int)
    requires 0 < kernelBrk < STACK0 * PAGESIZE && TABLE <= total
    ensures AccountedFor(Bare(total, dataBase, kernelBrk), total) <==> kernelBrk % PAGESIZE == 0
  {
    hide Uses, Bare;
    var m, cut := Bare(total, dataBase, kernelBrk), FirstUnmapped(kernelBrk);
    forall f ensures Uses(m, f) == (if TABLE <= f < total then 1 else 0) + (if FirstFree(kernelBrk) <= f < STACK0 then 1 else 0)
            + (if 0 <= f < TABLE && (f < FirstUnmapped(kernelBrk) || f >= STACK0) then 1 else 0)
    {
      BareUses(total, dataBase, kernelBrk, f);
    }
    assert kernelBrk == PAGESIZE * cut + kernelBrk % PAGESIZE;
    if kernelBrk % PAGESIZE != 0 {
      assert Uses(m, cut) == 0;
    }
  }

  /** A break inside a page: that page is lost from the start. */
  lemma CutPageIsLost(total: int, dataBase: int, kernelBrk: int)
    requires 0 < kernelBrk < STACK0 * PAGESIZE && TABLE <= total && kernelBrk % PAGESIZE != 0
    ensures 0 <= kernelBrk / PAGESIZE < total && Uses(Bare(total, dataBase, kernelBrk), kernelBrk / PAGESIZE) == 0
  {
    hide Uses, Bare;
    BareUses(total, dataBase, kernelBrk, kernelBrk / PAGESIZE);
    assert kernelBrk == PAGESIZE * (kernelBrk / PAGESIZE) + kernelBrk % PAGESIZE;
  }

  // ----- the first processes -------------------------------------------------------------------

  function AddProcess(m: Mem): Mem {
    m.(spaces := m.spaces + [Space(true, Blank(TABLE), Blank(2), 0, -1, m.uctx, AtStart)])
  }

  /** `init_init`'s kernel stack pages: frames, without contents. */
  function GiveStack(m: Mem, p: int, i: int): Mem
    requires HasStack(m, p, i)
  {
    SetStack(m, p, i, Pte(true, READ_WRITE, FrameTaken(m))).(free := FreeLeft(m))
  }

  /** One page of `save_initial_kernel`. */
  function SaveInitial(m: Mem, i: nat): Mem
    requires |m.kpt| == TABLE && i < 2 && i < |m.initial|
  {
    m.(initial := m.initial[i := Pte(true, READ_WRITE, FrameTaken(m))], free := FreeLeft(m),
       phys := m.phys[FrameTaken(m) := PageAt(m, LiveFrame(m, i))])
  }

  /** The saved initial stack is a copy of the running one, which is not touched. */
  lemma InitialSaved(m: Mem)
    requires |m.kpt| == TABLE && |m.initial| == 2 && |m.free| >= 2 && m.free[0] != m.free[1]
    requires forall i :: 0 <= i < 2 ==> LiveFrame(m, i) != m.free[0] && LiveFrame(m, i) != m.free[1]
    ensures var r := SaveInitial(SaveInitial(m, 0), 1);
            && PageAt(r, r.initial[0].pfn) == PageAt(m, LiveFrame(m, 0)) && PageAt(r, r.initial[1].pfn) == PageAt(m, LiveFrame(m, 1))
            && PageAt(r, LiveFrame(r, 0)) == PageAt(m, LiveFrame(m, 0)) && PageAt(r, LiveFrame(r, 1)) == PageAt(m, LiveFrame(m, 1))
  {
    assert LiveFrame(m, 0) != m.free[0] && LiveFrame(m, 1) != m.free[0];
  }

  function Pages(img: Image): int { img.textPages + img.dataPages + img.stackPages }

  /** init with its kernel stack and program, then idle with its program and no kernel stack yet. */
  function Started(m: Mem, init: Image, idle: Image): (r: Mem)
    requires m.spaces == [] && |m.kpt| == TABLE && |m.initial| == 2 && ImageFits(init) && ImageFits(idle)
    ensures |r.spaces| == 2 && r.kpt == m.kpt && r.initial == m.initial && r.brk == m.brk
  {
    var m1 := GiveStack(GiveStack(AddProcess(m), 0, 0), 0, 1);
    Load(AddProcess(Load(m1, 0, init)), 1, idle)
  }

  /** The state `KernelStart` returns with: init running. */
  function BootState(total: int, dataBase: int, kernelBrk: int, init: Image, idle: Image): Mem
    requires ImageFits(init) && ImageFits(idle)
  {
    var m1 := Started(Bare(total, dataBase, kernelBrk), init, idle);
    var m2 := SaveInitial(SaveInitial(m1, 0), 1);
    m2.(active := 0, installed := 0, uctx := m2.spaces[0].uctx)
  }

  lemma AddProcessUses(m: Mem, f: int)
    ensures Uses(AddProcess(m), f) == Uses(m, f)
  {
    hide HeldIn, InSpaces;
    var x := AddProcess(m).spaces[|m.spaces|];
    SpacesAppend(m.spaces, x, f);
    BlankHolds(x.upt, f);
    BlankHolds(x.kst, f);
  }

  lemma GiveStackUses(m: Mem, p: int, i: int, f: int)
    requires HasStack(m, p, i) && m.free != [] && !m.spaces[p].kst[i].valid
    ensures Uses(GiveStack(m, p, i), f) == Uses(m, f)
  {
    hide HeldIn, InSpaces;
    SetStackUses(m, p, i, Pte(true, READ_WRITE, FrameTaken(m)), f);
    FreeSplit(m, f);
  }

  lemma SaveInitialUses(m: Mem, i: nat, f: int)
    requires |m.kpt| == TABLE && i < 2 && i < |m.initial| && m.free != [] && !m.initial[i].valid
    ensures Uses(SaveInitial(m, i), f) == Uses(m, f)
  {
    hide HeldIn, InSpaces;
    TableUpdate(m.initial, i, Pte(true, READ_WRITE, FrameTaken(m)), f);
    FreeSplit(m, f);
  }

  /** Loading a program into a blank table takes its pages off the free list and loses none. */
  lemma LoadBlank(m: Mem, p: int, img: Image, f: int)
    requires 0 <= p < |m.spaces| && m.spaces[p].upt == Blank(TABLE) && ImageFits(img) && |m.free| >= Pages(img)
    ensures Uses(Load(m, p, img), f) == Uses(m, f) && |Load(m, p, img).free| == |m.free| - Pages(img)
    ensures var r := Load(m, p, img);
            && |r.spaces| == |m.spaces| && (forall q :: 0 <= q < |m.spaces| && q != p ==> r.spaces[q] == m.spaces[q])
            && |r.spaces[p].upt| == TABLE && 0 <= r.spaces[p].nextHeap <= TABLE && -1 <= r.spaces[p].nextStack < TABLE
            && GapOk(r.spaces[p])
            && r.spaces[p].kst == m.spaces[p].kst && r.spaces[p].alive == m.spaces[p].alive && r.spaces[p].kctx == m.spaces[p].kctx
            && r.kpt == m.kpt && r.initial == m.initial && r.brk == m.brk
            && r.spaces[p].nextHeap == img.dataPage + img.dataPages && r.spaces[p].nextStack == TABLE - 1 - img.stackPages
  {
    hide Uses, FreeUserFrom, MapImage;
    var m1 := FreeUserFrom(m, p, 0);
    var m5 := MapImage(m1, p, img);
    FreeUserUses(m, p, 0, f);
    FreeUserCount(m, p);
    UsedBlank(TABLE);
    forall j | 0 <= j < TABLE ensures !m1.spaces[p].upt[j].valid {
      FreeUserTable(m, p, 0, j);
    }
    MapImageUses(m1, p, img, f);
    MapImageFree(m1, p, img);
    SetSpaceUses(m5, p, m5.spaces[p].(nextHeap := img.dataPage + img.dataPages,
                                      nextStack := TABLE - 1 - img.stackPages, uctx := img.start), f);
    forall i | img.dataPage + img.dataPages <= i <= TABLE - 1 - img.stackPages ensures !m5.spaces[p].upt[i].valid {
      MapImageGap(m1, p, img, i);
    }
  }

  lemma {:induction false} UsedBlank(n: nat)
    ensures Used(Blank(n)) == 0
  {
    if n > 0 {
      assert Blank(n)[1..] == Blank(n - 1);
      UsedBlank(n - 1);
    }
  }

  lemma {:induction false} MapDownFree(m: Mem, p: int, i: int, end: int)
    requires -1 <= end <= i && 0 <= p < |m.spaces| && i < |m.spaces[p].upt| && |m.free| >= i - end
    ensures |MapDown(m, p, i, end).free| == |m.free| - (i - end)
    decreases i - end
  {
    if i > end {
      MapDownFree(MapUser(m, p, i, READ_WRITE), p, i - 1, end);
    }
  }

  lemma MapImageFree(m: Mem, p: int, img: Image)
    requires 0 <= p < |m.spaces| && |m.spaces[p].upt| == TABLE && ImageFits(img) && |m.free| >= Pages(img)
    ensures |MapImage(m, p, img).free| == |m.free| - Pages(img)
  {
    hide MapUp, MapDown, Protect;
    var m2 := MapUp(m, p, img.textPage, img.textPage + img.textPages).m;
    MapUpFree(m, p, img.textPage, img.textPage + img.textPages);
    var m3 := MapUp(m2, p, img.dataPage, img.dataPage + img.dataPages).m;
    MapUpFree(m2, p, img.dataPage, img.dataPage + img.dataPages);
    MapDownFree(m3, p, TABLE - 1, TABLE - 1 - img.stackPages);
  }

  /** A process as boot leaves it. */
  ghost predicate Fresh(x: Space) {
    && |x.upt| == TABLE && |x.kst| == 2 && x.alive && x.kctx == AtStart
    && 0 <= x.nextHeap <= TABLE && -1 <= x.nextStack < TABLE && GapOk(x)
  }

  lemma StartedUses(m: Mem, init: Image, idle: Image, f: int)
    requires m.spaces == [] && |m.kpt| == TABLE && |m.initial| == 2 && ImageFits(init) && ImageFits(idle)
    requires |m.free| >= 4 + Pages(init) + Pages(idle)
    ensures var r := Started(m, init, idle);
            && Uses(r, f) == Uses(m, f) && |r.free| == |m.free| - 2 - Pages(init) - Pages(idle)
            && Fresh(r.spaces[0]) && Fresh(r.spaces[1])
            && r.spaces[0].kst[0].valid && r.spaces[0].kst[1].valid && r.spaces[1].kst == Blank(2)
            && r.spaces[0].nextHeap == init.dataPage + init.dataPages && r.spaces[0].nextStack == TABLE - 1 - init.stackPages
  {
    hide Uses, Load;
    var a := AddProcess(m);
    AddProcessUses(m, f);
    GiveStackUses(a, 0, 0, f);
    var b := GiveStack(a, 0, 0);
    GiveStackUses(b, 0, 1, f);
    var c := GiveStack(b, 0, 1);
    LoadBlank(c, 0, init, f);
    var d := Load(c, 0, init);
    AddProcessUses(d, f);
    LoadBlank(AddProcess(d), 1, idle, f);
  }

  /** Boot establishes the invariants of the memory runs and accounts for every frame. */
  lemma BootEstablishes(total: int, dataBase: int, kernelBrk: int, init: Image, idle: Image)
    requires ImageFits(init) && ImageFits(idle) && TABLE <= total
    requires PAGESIZE <= kernelBrk < STACK0 * PAGESIZE && kernelBrk % PAGESIZE == 0
    requires |Gathered(total, kernelBrk)| >= 4 + Pages(init) + Pages(idle)
    ensures MemInv(BootState(total, dataBase, kernelBrk, init, idle))
    ensures Gaps(BootState(total, dataBase, kernelBrk, init, idle))
    ensures AccountedFor(BootState(total, dataBase, kernelBrk, init, idle), total)
  {
    hide Uses, Started, Gathered;
    var m := Bare(total, dataBase, kernelBrk);
    var r := BootState(total, dataBase, kernelBrk, init, idle);
    BareAccountsIff(total, dataBase, kernelBrk);
    forall f ensures Uses(r, f) == Uses(m, f) {
      BootUses(m, init, idle, f);
    }
    StartedUses(m, init, idle, 0);
    BootSpaces(r, total);
  }

  /** What is left after boot, and the bounds of init. */
  lemma BootLeaves(total: int, dataBase: int, kernelBrk: int, init: Image, idle: Image)
    requires ImageFits(init) && ImageFits(idle) && |Gathered(total, kernelBrk)| >= 4 + Pages(init) + Pages(idle)
    ensures var r := BootState(total, dataBase, kernelBrk, init, idle);
            && |r.free| == |Gathered(total, kernelBrk)| - 4 - Pages(init) - Pages(idle) && r.active == 0
            && |r.spaces| == 2 && r.spaces[0].nextHeap == init.dataPage + init.dataPages
            && r.spaces[0].nextStack == TABLE - 1 - init.stackPages
  {
    hide Uses, Started, Gathered;
    StartedUses(Bare(total, dataBase, kernelBrk), init, idle, 0);
  }

  lemma BootUses(m: Mem, init: Image, idle: Image, f: int)
    requires m.spaces == [] && |m.kpt| == TABLE && m.initial == Blank(2) && ImageFits(init) && ImageFits(idle)
    requires |m.free| >= 4 + Pages(init) + Pages(idle)
    ensures var m2 := SaveInitial(SaveInitial(Started(m, init, idle), 0), 1);
            forall a, b, u :: Uses(m2.(active := a, installed := b, uctx := u), f) == Uses(m, f)
  {
    hide HeldIn, InSpaces, Started;
    var m1 := Started(m, init, idle);
    StartedUses(m, init, idle, f);
    SaveInitialUses(m1, 0, f);
    SaveInitialUses(SaveInitial(m1, 0), 1, f);
  }

  /** The last step: what the built state looks like gives the invariants. */
  lemma BootSpaces(r: Mem, total: int)
    requires AccountedFor(r, total) && KernelPages(r) && Anchored(r) && |r.spaces| == 2
    requires r.active == 0 && r.installed == 0 && 0 < r.brk < STACK0
    requires forall j :: r.brk <= j < STACK0 ==> !r.kpt[j].valid
    requires Fresh(r.spaces[0]) && Fresh(r.spaces[1])
    requires r.spaces[0].kst[0].valid && r.spaces[0].kst[1].valid && r.spaces[1].kst == Blank(2)
    ensures MemInv(r) && Gaps(r)
  {
    hide Uses;
    assert Exclusive(r);
    if r.spaces[0].kst[0].pfn == 0 {
      OneOwner(r, StackPage(0, 0), KernelPage(0), 0);
    }
    forall p | 0 <= p < |r.spaces| ensures SpaceOk(r, p) {
    }
  }
}
