/**
 The memory half of the kernel's code: the free-frame list, page tables and saved contexts
 updated in place.  Each method is proved to do what the memory machine's functions say.
 */
module MemoryCode {
  import opened Constants
  import opened Memory
  import opened Frames
  import opened AddressSpaces
  import B = Boot

  class MemoryManager {
    var free: seq<int>
    var kpt: seq<Pte>
    var initial: seq<Pte>
    var spaces: seq<Space>
    var phys: map<int, Page>
    var kernelBrk: int  // an address; the model counts whole pages
    var active: int
    var installed: int
    var uctx: UserContext
    var kregs: int

    ghost function View(): Mem reads this {
      Mem(free, kpt, initial, spaces, phys, kernelBrk / PAGESIZE, active, installed, uctx, kregs)
    }

    /** `KernelStart`: frames, kernel page table, init and idle, the saved initial stack. */
    constructor (total: int, dataBase: int, dataLimit: int, heapEnd: int, init: Image, idle: Image)
      requires 0 <= dataBase <= dataLimit <= heapEnd < STACK0 * PAGESIZE && ImageFits(init) && ImageFits(idle)
      requires |B.Gathered(total, heapEnd)| >= 4 + B.Pages(init) + B.Pages(idle)
      ensures View() == B.BootState(total, dataBase, heapEnd, init, idle)
    {
      free, kpt, initial, spaces, phys := [], Blank(TABLE), Blank(2), [], map[];
      kernelBrk, active, installed, uctx, kregs := heapEnd, 0, 0, UserContext(0, 0), 0;
      new;
      Start(total, dataBase, dataLimit, init, idle);
    }

    method Start(total: int, dataBase: int, dataLimit: int, init: Image, idle: Image)
      requires 0 <= dataBase <= dataLimit <= kernelBrk < STACK0 * PAGESIZE && ImageFits(init) && ImageFits(idle)
      requires |B.Gathered(total, kernelBrk)| >= 4 + B.Pages(init) + B.Pages(idle)
      requires View() == Mem([], Blank(TABLE), Blank(2), [], map[], kernelBrk / PAGESIZE, 0, 0, UserContext(0, 0), 0)
      modifies this
      ensures View() == B.BootState(total, dataBase, old(kernelBrk), init, idle)
    {
      hide B.Gathered, B.KernelTable, B.Started, B.SaveInitial;
      GatherFreeFrames(total);
      EnableVmem(dataBase, dataLimit);
      assert View() == B.Bare(total, dataBase, kernelBrk);
      StartProcesses(init, idle);
      SaveInitialKernel();
      uctx := spaces[0].uctx;
    }

    method StartProcesses(init: Image, idle: Image)
      requires spaces == [] && |kpt| == TABLE && |initial| == 2 && ImageFits(init) && ImageFits(idle)
      requires |free| >= 4 + B.Pages(init) + B.Pages(idle)
      modifies this`spaces, this`free, this`phys
      ensures View() == B.Started(old(View()), init, idle)
    {
      hide Load, TryLoad, Uses;
      InitInit(init);
      InitIdle(idle);
    }

    /** init's record and kernel stack (without contents), and its program. */
    method InitInit(init: Image)
      requires spaces == [] && ImageFits(init) && |free| >= 2 + B.Pages(init)
      modifies this`spaces, this`free
      ensures View() == Load(B.GiveStack(B.GiveStack(B.AddProcess(old(View())), 0, 0), 0, 1), 0, init)
      ensures |free| == |old(free)| - 2 - B.Pages(init) && |spaces| == 1
    {
      hide Load, TryLoad;
      ghost var m := View();
      spaces := spaces + [Space(true, Blank(TABLE), Blank(2), 0, -1, uctx, AtStart)];
      var f := GrabFrame();
      spaces := spaces[0 := spaces[0].(kst := spaces[0].kst[0 := Pte(true, READ_WRITE, f)])];
      assert View() == B.GiveStack(B.AddProcess(m), 0, 0);
      f := GrabFrame();
      spaces := spaces[0 := spaces[0].(kst := spaces[0].kst[1 := Pte(true, READ_WRITE, f)])];
      assert View() == B.GiveStack(B.GiveStack(B.AddProcess(m), 0, 0), 0, 1);
      B.UsedBlank(TABLE);
      LoadNeedsFrames(View(), 0, init);
      B.LoadBlank(View(), 0, init, 0);
      var ok := LoadProgram(0, init);
    }

    /** idle's record, still without a kernel stack, and its program. */
    method InitIdle(idle: Image)
      requires |spaces| == 1 && ImageFits(idle) && |free| >= B.Pages(idle)
      modifies this`spaces, this`free
      ensures View() == Load(B.AddProcess(old(View())), 1, idle)
    {
      hide Load, TryLoad;
      spaces := spaces + [Space(true, Blank(TABLE), Blank(2), 0, -1, uctx, AtStart)];
      B.UsedBlank(TABLE);
      LoadNeedsFrames(View(), 1, idle);
      var ok := LoadProgram(1, idle);
    }

    /** Keep a copy of the running kernel stack, for every process's first turn. */
    method SaveInitialKernel()
      requires |kpt| == TABLE && |initial| == 2
      modifies this`initial, this`free, this`phys
      ensures View() == B.SaveInitial(B.SaveInitial(old(View()), 0), 1)
    {
      var i := 0;
      ghost var m := View();
      while i < 2
        invariant 0 <= i <= 2 && |initial| == 2
        invariant View() == if i == 0 then m else if i == 1 then B.SaveInitial(m, 0) else B.SaveInitial(B.SaveInitial(m, 0), 1)
      {
        var src := kpt[STACK0 + i].pfn;
        var f := GrabFrame();
        initial := initial[i := Pte(true, READ_WRITE, f)];
        phys := phys[f := if src in phys then phys[src] else []];
        i := i + 1;
      }
    }

    // ----- frames -----------------------------------------------------------------

    method GrabFrame() returns (f: int)
      modifies this`free
      ensures f == FrameTaken(old(View())) && free == FreeLeft(old(View()))
    {
      if |free| == 0 { return 0; }
      f := free[0];
      free := free[1..];
    }

    /** Fill the free list from the top of memory down, leaving out the kernel. */
    method GatherFreeFrames(total: int)
      modifies this`free
      ensures free == B.Gathered(total, kernelBrk)
    {
      free := [];
      var i := total - 1;
      ghost var all := B.Down(total, TABLE);
      while i > TABLE - 1
        invariant free + B.Down(i + 1, TABLE) == all
        decreases i
      {
        assert B.Down(i + 1, TABLE) == [i] + B.Down(i, TABLE);
        free := free + [i];
        i := i - 1;
      }
      assert free == all;
      var top := B.FirstFree(kernelBrk);
      i := STACK0 - 1;
      ghost var rest := B.Down(STACK0, top);
      assert all + rest == free + B.Down(i + 1, top);
      while i > top - 1
        invariant free + B.Down(i + 1, top) == all + rest
        decreases i - top
      {
        assert B.Down(i + 1, top) == [i] + B.Down(i, top);
        free := free + [i];
        i := i - 1;
      }
      assert free == all + rest;
    }

    /** Map kernel pages lo..hi to themselves. */
    method MapSelf(lo: int, hi: int, prot: int)
      requires |kpt| == TABLE && 0 <= lo && hi <= TABLE
      modifies this`kpt
      ensures |kpt| == TABLE
      ensures forall j :: 0 <= j < TABLE ==> kpt[j] == if lo <= j < hi then Pte(true, prot, j) else old(kpt)[j]
    {
      var i := lo;
      while i < hi
        invariant lo <= i && |kpt| == TABLE
        invariant forall j :: 0 <= j < TABLE ==> kpt[j] == if lo <= j < hi && j < i then Pte(true, prot, j) else old(kpt)[j]
      {
        kpt := kpt[i := Pte(true, prot, i)];
        i := i + 1;
      }
    }

    /** Text, data, heap and stack of the kernel. */
    method EnableVmem(dataBase: int, dataLimit: int)
      requires kpt == Blank(TABLE) && 0 <= dataBase <= dataLimit <= kernelBrk < STACK0 * PAGESIZE
      modifies this`kpt
      ensures kpt == B.KernelTable(dataBase, kernelBrk)
    {
      var text, data, heap := dataBase / PAGESIZE, dataLimit / PAGESIZE, kernelBrk / PAGESIZE;
      assert 0 <= text <= data <= heap < STACK0;
      MapSelf(0, text, READ_EXEC);
      MapSelf(text, data, READ_WRITE);
      MapSelf(data, heap, READ_WRITE);
      assert forall j :: 0 <= j < TABLE ==>
          kpt[j] == if j < text then Pte(true, READ_EXEC, j) else if j < heap then Pte(true, READ_WRITE, j) else NO_PAGE;
      MapSelf(STACK0, TABLE, READ_WRITE);
      B.KernelTableAt(dataBase, kernelBrk);
    }

    method SetKernelBrk(addr: int) returns (ok: bool)
      requires 0 <= kernelBrk < STACK0 * PAGESIZE && |kpt| == TABLE
      modifies this`kpt, this`free, this`kernelBrk
      ensures KernelBrk(old(View()), addr / PAGESIZE) == Done(View(), ok)
      ensures kernelBrk == if ok && addr > old(kernelBrk) then addr else old(kernelBrk)
    {
      if addr <= kernelBrk { return true; }
      if addr >= STACK0 * PAGESIZE { return false; }
      var i, end := kernelBrk / PAGESIZE, addr / PAGESIZE;
      ghost var start := i;
      while i < end
        invariant kernelBrk == old(kernelBrk) && start <= i <= end && |kpt| == TABLE
        invariant MapKernelUp(old(View()), start, end) == MapKernelUp(View(), i, end)
      {
        if |free| == 0 { return false; }
        var f := GrabFrame();
        kpt := kpt[i := Pte(true, READ_WRITE, f)];
        i := i + 1;
      }
      kernelBrk := addr;
      return true;
    }

    // ----- region 1 ------------------------------------------------------------------

    method SetPage(p: int, i: int, x: Pte)
      requires HasUser(View(), p, i)
      modifies this`spaces
      ensures View() == SetUser(old(View()), p, i, x)
    {
      spaces := spaces[p := spaces[p].(upt := spaces[p].upt[i := x])];
    }

    /** Map pages i..end, upwards; false as soon as no frame is left. */
    method MapPages(p: int, start: int, end: int) returns (ok: bool)
      requires 0 <= start && 0 <= p < |spaces| && end <= |spaces[p].upt|
      modifies this`spaces, this`free
      ensures MapUp(old(View()), p, start, end) == Done(View(), ok)
    {
      var i := start;
      while i < end
        invariant start <= i && 0 <= p < |spaces| && end <= |spaces[p].upt|
        invariant MapUp(old(View()), p, start, end) == MapUp(View(), p, i, end)
      {
        if |free| == 0 { return false; }
        var f := GrabFrame();
        SetPage(p, i, Pte(true, READ_WRITE, f));
        i := i + 1;
      }
      return true;
    }

    method SysBrk(addr: int) returns (ok: bool)
      requires 0 <= active < |spaces| && spaces[active].nextHeap >= 0 && BrkPage(addr) <= |spaces[active].upt|
      modifies this`spaces, this`free
      ensures Brk(old(View()), addr) == Done(View(), ok)
    {
      var end := BrkPage(addr);
      ok := MapPages(active, spaces[active].nextHeap, end);
      if ok {
        spaces := spaces[active := spaces[active].(nextHeap := end)];
      }
    }

    /** Map pages from i down to end + 1; a failed grab leaves frame 0 in the entry. */
    method MapPagesDown(p: int, start: int, end: int)
      requires -1 <= end && 0 <= p < |spaces| && start < |spaces[p].upt|
      modifies this`spaces, this`free
      ensures View() == MapDown(old(View()), p, start, end)
    {
      var i := start;
      while i > end
        invariant i <= start && 0 <= p < |spaces| && start < |spaces[p].upt|
        invariant MapDown(old(View()), p, start, end) == MapDown(View(), p, i, end)
      {
        var f := GrabFrame();
        SetPage(p, i, Pte(true, READ_WRITE, f));
        i := i - 1;
      }
    }

    /** The stack part of the memory trap; `grown` is false when the process must be killed. */
    method GrowStack(addr: int) returns (grown: bool)
      requires 0 <= active < |spaces| && spaces[active].nextHeap >= 0
      requires spaces[active].nextStack < |spaces[active].upt|
      modifies this`spaces, this`free
      ensures grown == GrowsStack(old(spaces)[active], addr)
      ensures grown ==> View() == Grow(old(View()), addr)
      ensures !grown ==> View() == old(View())
    {
      var end := FaultPage(addr);
      if end <= spaces[active].nextStack && end > spaces[active].nextHeap {
        MapPagesDown(active, spaces[active].nextStack, end);
        spaces := spaces[active := spaces[active].(nextStack := end)];
        return true;
      }
      return false;
    }

    /** Give every frame of region 1 back, at the head of the free list. */
    method FreeRegion1(p: int)
      requires 0 <= p < |spaces| && |spaces[p].upt| == TABLE
      modifies this`spaces, this`free
      ensures View() == FreeUserFrom(old(View()), p, 0)
    {
      var i := 0;
      while i < TABLE
        invariant 0 <= i <= TABLE && |spaces| == |old(spaces)| && |spaces[p].upt| == TABLE
        invariant FreeUserFrom(old(View()), p, 0) == FreeUserFrom(View(), p, i)
      {
        var x := spaces[p].upt[i];
        if x.valid {
          free := [x.pfn] + free;
          SetPage(p, i, Pte(false, 0, x.pfn));
        }
        i := i + 1;
      }
    }

    /** The stack of a new program, downwards; false as soon as no frame is left. */
    method MapStackPages(p: int, start: int, end: int) returns (ok: bool)
      requires -1 <= end && 0 <= p < |spaces| && start < |spaces[p].upt|
      modifies this`spaces, this`free
      ensures TryDown(old(View()), p, start, end) == Done(View(), ok)
    {
      var i := start;
      while i > end
        invariant i <= start && 0 <= p < |spaces| && start < |spaces[p].upt|
        invariant TryDown(old(View()), p, start, end) == TryDown(View(), p, i, end)
      {
        if |free| == 0 { return false; }
        var f := GrabFrame();
        SetPage(p, i, Pte(true, READ_WRITE, f));
        i := i - 1;
      }
      return true;
    }

    /** Text and data upwards, the stack downwards; `data` tells whether the data loop was finished. */
    method MapSections(p: int, img: Image) returns (ok: bool, data: bool)
      requires 0 <= p < |spaces| && |spaces[p].upt| == TABLE && ImageFits(img)
      modifies this`spaces, this`free
      ensures TryMap(old(View()), p, img) == Done(View(), ok)
      ensures data == (|old(free)| >= img.textPages + img.dataPages)
    {
      hide MapUp, TryDown;
      MapUpFree(View(), p, img.textPage, img.textPage + img.textPages);
      ok := MapPages(p, img.textPage, img.textPage + img.textPages);
      if !ok { return false, false; }
      MapUpFree(View(), p, img.dataPage, img.dataPage + img.dataPages);
      ok := MapPages(p, img.dataPage, img.dataPage + img.dataPages);
      if !ok { return false, false; }
      data := true;
      ok := MapStackPages(p, TABLE - 1, TABLE - 1 - img.stackPages);
    }

    /** The page table work of `load_program`; false when frames ran out, with the old program gone. */
    method LoadProgram(p: int, img: Image) returns (ok: bool)
      requires 0 <= p < |spaces| && |spaces[p].upt| == TABLE && ImageFits(img)
      modifies this`spaces, this`free
      ensures TryLoad(old(View()), p, img) == Done(View(), ok)
    {
      hide TryMap, FreeUserFrom, Protect;
      FreeRegion1(p);
      var data;
      ok, data := MapSections(p, img);
      if !ok {
        if data {
          spaces := spaces[p := spaces[p].(nextHeap := img.dataPage + img.dataPages)];
        }
        return;
      }
      ProtectText(p, img.textPage, img.textPage + img.textPages);
      spaces := spaces[p := spaces[p].(nextHeap := img.dataPage + img.dataPages,
                                       nextStack := TABLE - 1 - img.stackPages, uctx := img.start)];
    }

    method ProtectText(p: int, start: int, end: int)
      requires 0 <= start && 0 <= p < |spaces| && end <= |spaces[p].upt|
      modifies this`spaces
      ensures View() == Protect(old(View()), p, start, end)
    {
      var i := start;
      while i < end
        invariant start <= i && 0 <= p < |spaces| && end <= |spaces[p].upt|
        invariant Protect(old(View()), p, start, end) == Protect(View(), p, i, end)
      {
        SetPage(p, i, spaces[p].upt[i].(prot := READ_EXEC));
        i := i + 1;
      }
    }

    // ----- kernel stacks ------------------------------------------------------------------

    method Copy(dst: int, src: int)
      modifies this`phys
      ensures View() == CopyFrame(old(View()), dst, src)
    {
      phys := phys[dst := if src in phys then phys[src] else []];
    }

    /** A fresh kernel stack and context for p. */
    method InitProcKernel(p: int)
      requires 0 <= p < |spaces| && |spaces[p].kst| == 2 && |initial| == 2 && |free| >= 2
      modifies this`spaces, this`free, this`phys
      ensures View() == InitStack(old(View()), p)
    {
      spaces := spaces[p := spaces[p].(kctx := AtStart)];
      ghost var m1 := View();
      var i := 0;
      while i < 2
        invariant 0 <= i <= 2 && 0 <= p < |spaces| && |spaces[p].kst| == 2
        invariant |free| >= 2 - i
        invariant View() == if i == 0 then m1 else if i == 1 then MapStack(m1, p, 0) else MapStack(MapStack(m1, p, 0), p, 1)
      {
        var page := if initial[i].pfn in phys then phys[initial[i].pfn] else [];
        var f := GrabFrame();
        spaces := spaces[p := spaces[p].(kst := spaces[p].kst[i := Pte(true, READ_WRITE, f)])];
        phys := phys[f := page];
        i := i + 1;
      }
    }

    /** Save the running kernel for `was`, if there is one, and bring in the stack of `next`. */
    method SwitchKernelContext(was: int, next: int, save: bool)
      requires |kpt| == TABLE && |initial| == 2 && 0 <= was < |spaces| && |spaces[was].kst| == 2
      requires 0 <= next < |spaces| && |spaces[next].kst| == 2
      modifies this`spaces, this`phys
      ensures View() == RestoreStack(if save then SaveKernel(old(View()), was) else old(View()), next)
    {
      if save {
        spaces := spaces[was := spaces[was].(kctx := InSwitch(was, kregs))];
        Copy(spaces[was].kst[0].pfn, kpt[STACK0].pfn);
        Copy(spaces[was].kst[1].pfn, kpt[STACK0 + 1].pfn);
      }
      Copy(kpt[STACK0].pfn, spaces[next].kst[0].pfn);
      Copy(kpt[STACK0 + 1].pfn, spaces[next].kst[1].pfn);
    }

    /** What runs after a kernel context has been restored. */
    method Continue(c: KernelContext)
      modifies this`installed, this`kregs, this`uctx
      ensures View() == GoOn(old(View()), c)
    {
      var q := active;
      if c.InSwitch? {
        q := c.owner;
        kregs := c.regs;
      }
      installed := q;
      if 0 <= q < |spaces| {
        uctx := spaces[q].uctx;
      }
    }

    method ContextSwitch(next: int, save: bool)
      requires |kpt| == TABLE && |initial| == 2 && 0 <= active < |spaces| && |spaces[active].kst| == 2
      requires 0 <= next < |spaces| && |spaces[next].kst| == 2 && (spaces[next].kst[0].pfn == 0 ==> |free| >= 2)
      modifies this
      ensures View() == SwitchTo(old(View()), next, save)
    {
      var was := active;
      active := next;
      if save {
        spaces := spaces[was := spaces[was].(uctx := uctx)];
      }
      if spaces[next].kst[0].pfn == 0 {
        InitProcKernel(next);
      }
      SwitchKernelContext(was, next, save);
      Continue(spaces[next].kctx);
    }

    // ----- Fork, Exec, Exit ------------------------------------------------------------------

    /** Copy every valid page into a frame of its own; false as soon as no frame is left. */
    method CopyUserPages(parent: int, child: int) returns (ok: bool)
      requires 0 <= parent < |spaces| && 0 <= child < |spaces| && parent != child
      requires |spaces[parent].upt| == TABLE && |spaces[child].upt| == TABLE
      modifies this`spaces, this`free, this`phys
      ensures TryCopy(old(View()), parent, child, 0) == Done(View(), ok)
    {
      var i := 0;
      while i < TABLE
        invariant 0 <= i <= TABLE && 0 <= parent < |spaces| && 0 <= child < |spaces|
        invariant |spaces[parent].upt| == TABLE && |spaces[child].upt| == TABLE
        invariant TryCopy(old(View()), parent, child, 0) == TryCopy(View(), parent, child, i)
      {
        if spaces[parent].upt[i].valid && |free| == 0 {
          SetPage(child, i, Pte(true, spaces[parent].upt[i].prot, spaces[child].upt[i].pfn));
          return false;
        }
        CopyUserPage(parent, child, i);
        i := i + 1;
      }
      return true;
    }

    method CopyUserPage(parent: int, child: int, i: int)
      requires HasUser(View(), parent, i) && HasUser(View(), child, i)
      modifies this`spaces, this`free, this`phys
      ensures View() == CopyPage(old(View()), parent, child, i)
    {
      var x := spaces[parent].upt[i];
      if x.valid {
        var page := if x.pfn in phys then phys[x.pfn] else [];
        var f := GrabFrame();
        SetPage(child, i, Pte(true, x.prot, f));
        phys := phys[f := page];
      }
    }

    method SysFork() returns (ok: bool)
      requires 0 <= active < |spaces| && |initial| == 2 && |spaces[active].upt| == TABLE && |free| >= 2
      modifies this`spaces, this`free, this`phys
      ensures TryFork(old(View())) == Done(View(), ok)
    {
      var child := |spaces|;
      var me := spaces[active];
      spaces := spaces + [Space(true, Blank(TABLE), Blank(2), me.nextHeap, me.nextStack, uctx.(ret := 0), AtStart)];
      InitProcKernel(child);
      ok := CopyUserPages(active, child);
    }

    method SysExec(img: Image) returns (ok: bool)
      requires Shape(View()) && ImageFits(img)
      modifies this`spaces, this`free, this`phys, this`installed, this`kregs, this`uctx
      ensures View() == Memory.Step(old(View()), EExec(img)) && ok == TryLoad(old(View()), active, img).ok
    {
      hide TryLoad;
      LoadFrame(View(), active, img);
      ok := LoadProgram(active, img);
      if ok {
        Copy(kpt[STACK0].pfn, initial[0].pfn);
        Copy(kpt[STACK0 + 1].pfn, initial[1].pfn);
        Continue(AtStart);
      }
    }

    method FreeStack(p: int, i: int)
      requires HasStack(View(), p, i)
      modifies this`spaces, this`free
      ensures View() == UnmapStack(old(View()), p, i)
    {
      var x := spaces[p].kst[i];
      if x.valid {
        free := [x.pfn] + free;
        spaces := spaces[p := spaces[p].(kst := spaces[p].kst[i := Pte(false, 0, x.pfn)])];
      }
    }

    method SysExit()
      requires 0 <= active < |spaces| && |spaces[active].upt| == TABLE && |spaces[active].kst| == 2
      modifies this`spaces, this`free
      ensures View() == Exit(old(View()))
    {
      FreeRegion1(active);
      FreeStack(active, 0);
      FreeStack(active, 1);
      spaces := spaces[active := spaces[active].(alive := false)];
    }

    // ----- events and runs -------------------------------------------------------------------

    method UserStore(page: int, contents: Page)
      requires Shape(View()) && Memory.Enabled(View(), EUserWrite(page, contents))
      modifies this`phys
      ensures View() == Memory.Step(old(View()), EUserWrite(page, contents))
    {
      phys := phys[spaces[installed].upt[page].pfn := contents];
    }

    method KernelRuns(page0: Page, page1: Page, regs: int)
      requires Shape(View())
      modifies this`phys, this`kregs
      ensures View() == Memory.Step(old(View()), EKernelRun(page0, page1, regs))
    {
      phys := phys[kpt[STACK0].pfn := page0][kpt[STACK0 + 1].pfn := page1];
      kregs := regs;
    }

    /** Exit, and the switch to the next process, with nothing of the old one to save. */
    method ExitTo(next: int)
      requires MemInv(View()) && Memory.Enabled(View(), EExit(next))
      modifies this
      ensures View() == Memory.Step(old(View()), EExit(next))
    {
      hide Uses, Exclusive, Exit, SwitchTo;
      ExitKeeps(View());
      SysExit();
      ContextSwitch(next, false);
    }

    /** What the code does on an event is the step of the memory machine. */
    method Perform(e: Event)
      requires MemInv(View()) && Memory.Enabled(View(), e)
      modifies this
      ensures View() == Memory.Step(old(View()), e)
    {
      hide MemInv, Brk, Grow, Fork, TryFork, SwitchTo, Exit, KernelBrk, TryLoad, ReturnInitial;
      InvShape(View());
      match e {
        case EBrk(addr) =>
          BrkInTable(addr);
          var _ := SysBrk(addr);
        case EGrow(addr) => var _ := GrowStack(addr);
        case EFork =>
          ForkNeedsFrames(View());
          var _ := SysFork();
        case EExec(img) => var _ := SysExec(img);
        case EExit(next) => ExitTo(next);
        case ESwitch(next) => ContextSwitch(next, true);
        case EUserWrite(page, contents) => UserStore(page, contents);
        case EUserRun(u) => uctx := u;
        case EKernelRun(page0, page1, regs) => KernelRuns(page0, page1, regs);
        case EKernelBrk(end) => var _ := SetKernelBrk(end * PAGESIZE);
      }
    }

    static lemma InvShape(m: Mem)
      requires MemInv(m)
      ensures Shape(m)
    {
    }

    /** Any sequence of events the machine allows, performed on the object: the states it goes through
        are a run of the memory machine, so what is proved of all runs holds of the object. */
    method PerformAll(events: seq<Event>) returns (ghost r: Trace)
      requires MemInv(View()) && CanRun(View(), events)
      modifies this
      ensures IsRun(r) && r.events == events && r.states[0] == old(View()) && r.states[|events|] == View()
      ensures MemInv(View())
    {
      hide MemInv, Memory.Step, Memory.Enabled;
      r := Trace([View()], []);
      var i := 0;
      assert events[0..] == events;
      while i < |events|
        invariant 0 <= i <= |events| && MemInv(View()) && CanRun(View(), events[i..])
        invariant IsRun(r) && r.events == events[..i] && r.states[0] == old(View()) && r.states[i] == View()
      {
        assert events[i..][0] == events[i] && events[i..][1..] == events[i + 1..];
        StepKeeps(View(), events[i]);
        r := Extended(r, events[i]);
        Perform(events[i]);
        i := i + 1;
      }
    }
  }
}
