/**
 Frames, page tables and kernel stacks: the state that system calls, faults and context
 switches change, and what each of them does to it.  The scheduler's choices are left open
 here, so what is proved holds for every order of switches.
 */
module Memory {
  import opened Constants

  const TABLE: nat := MAX_PT_LEN
  const STACK0: nat := 126          // the kernel stack is pages 126 and 127 of region 0
  const READ_WRITE: int := 3
  const READ_EXEC: int := 5

  type Page = seq<int>

  datatype Pte = Pte(valid: bool, prot: int, pfn: int)

  const NO_PAGE: Pte := Pte(false, 0, 0)

  /** A user context; `ret` is register 0, where system calls put their result. */
  datatype UserContext = UserContext(ret: int, rest: int)

  /** A saved kernel context: where its owner goes on, and its registers.  `InSwitch(q, r)`
      is inside `context_switch`, whose local `old` is q; `AtStart` is the end of `KernelStart`. */
  datatype KernelContext = AtStart | InSwitch(owner: int, regs: int)

  datatype Space = Space(
    alive: bool,
    upt: seq<Pte>,
    kst: seq<Pte>,
    nextHeap: int,
    nextStack: int,
    uctx: UserContext,
    kctx: KernelContext)

  datatype Mem = Mem(
    free: seq<int>,
    kpt: seq<Pte>,
    initial: seq<Pte>,
    spaces: seq<Space>,
    phys: map<int, Page>,
    brk: int,            // first kernel page above the kernel heap
    active: int,
    installed: int,      // whose page table the hardware uses for region 1
    uctx: UserContext,   // the user context of the running process
    kregs: int)          // the kernel registers of the running process

  function PageAt(m: Mem, f: int): Page {
    if f in m.phys then m.phys[f] else []
  }

  function UpToPage(a: int): int { (a + PAGESIZE - 1) / PAGESIZE * PAGESIZE }
  function DownToPage(a: int): int { a / PAGESIZE * PAGESIZE }

  // ----- taking and giving back one frame -------------------------------------

  /** `grab_a_frame`: the head of the free list, or 0 when it is empty. */
  function FrameTaken(m: Mem): int { if m.free == [] then 0 else m.free[0] }
  function FreeLeft(m: Mem): seq<int> { if m.free == [] then [] else m.free[1..] }

  predicate HasUser(m: Mem, p: int, i: int) {
    0 <= p < |m.spaces| && 0 <= i < |m.spaces[p].upt|
  }

  predicate HasStack(m: Mem, p: int, i: int) {
    0 <= p < |m.spaces| && 0 <= i < |m.spaces[p].kst|
  }

  function SetUser(m: Mem, p: int, i: int, x: Pte): Mem
    requires HasUser(m, p, i)
  {
    m.(spaces := m.spaces[p := m.spaces[p].(upt := m.spaces[p].upt[i := x])])
  }

  function SetStack(m: Mem, p: int, i: int, x: Pte): Mem
    requires HasStack(m, p, i)
  {
    m.(spaces := m.spaces[p := m.spaces[p].(kst := m.spaces[p].kst[i := x])])
  }

  function MapUser(m: Mem, p: int, i: int, prot: int): Mem
    requires HasUser(m, p, i)
  {
    SetUser(m, p, i, Pte(true, prot, FrameTaken(m))).(free := FreeLeft(m))
  }

  function UnmapUser(m: Mem, p: int, i: int): Mem
    requires HasUser(m, p, i)
  {
    var x := m.spaces[p].upt[i];
    if x.valid then SetUser(m, p, i, Pte(false, 0, x.pfn)).(free := [x.pfn] + m.free) else m
  }

  /** A kernel stack page for p, holding a copy of the initial one. */
  function MapStack(m: Mem, p: int, i: int): Mem
    requires HasStack(m, p, i) && i < |m.initial|
  {
    SetStack(m, p, i, Pte(true, READ_WRITE, FrameTaken(m)))
    .(free := FreeLeft(m), phys := m.phys[FrameTaken(m) := PageAt(m, m.initial[i].pfn)])
  }

  function UnmapStack(m: Mem, p: int, i: int): Mem
    requires HasStack(m, p, i)
  {
    var x := m.spaces[p].kst[i];
    if x.valid then SetStack(m, p, i, Pte(false, 0, x.pfn)).(free := [x.pfn] + m.free) else m
  }

  function SetSpace(m: Mem, p: int, x: Space): Mem
    requires 0 <= p < |m.spaces|
  {
    m.(spaces := m.spaces[p := x])
  }

  /** r differs from m in p's user page table, the free list and memory contents only. */
  predicate OnlyTable(m: Mem, r: Mem, p: int) {
    && 0 <= p < |m.spaces| && |r.spaces| == |m.spaces| && |r.spaces[p].upt| == |m.spaces[p].upt|
    && r == m.(free := r.free, phys := r.phys, spaces := m.spaces[p := m.spaces[p].(upt := r.spaces[p].upt)])
  }

  // ----- Brk and stack growth ---------------------------------------------------

  datatype Done = Done(m: Mem, ok: bool)

  /** The loop of `sys_Brk`: it stops with ERROR, keeping what it mapped, when frames run out. */
  function MapUp(m: Mem, p: int, i: int, end: int): (r: Done)
    requires 0 <= i && 0 <= p < |m.spaces| && end <= |m.spaces[p].upt|
    ensures OnlyTable(m, r.m, p) && r.m.phys == m.phys
    decreases end - i
  {
    if i >= end then Done(m, true) else
    if m.free == [] then Done(m, false) else MapUp(MapUser(m, p, i, READ_WRITE), p, i + 1, end)
  }

  function BrkPage(addr: int): int { (UpToPage(addr) - VMEM_1_BASE) / PAGESIZE }

  function Brk(m: Mem, addr: int): Done
    requires 0 <= m.active < |m.spaces| && m.spaces[m.active].nextHeap >= 0
    requires BrkPage(addr) <= |m.spaces[m.active].upt|
  {
    var a := m.active;
    var r := MapUp(m, a, m.spaces[a].nextHeap, BrkPage(addr));
    if r.ok then Done(SetSpace(r.m, a, r.m.spaces[a].(nextHeap := BrkPage(addr))), true) else r
  }

  /** The loop of the stack fault handler; a failed grab maps frame 0. */
  function MapDown(m: Mem, p: int, i: int, end: int): (r: Mem)
    requires -1 <= end && 0 <= p < |m.spaces| && i < |m.spaces[p].upt|
    ensures OnlyTable(m, r, p) && r.phys == m.phys
    decreases i - end
  {
    if i <= end then m else MapDown(MapUser(m, p, i, READ_WRITE), p, i - 1, end)
  }

  function FaultPage(addr: int): int { (DownToPage(addr) - VMEM_1_BASE) / PAGESIZE - 1 }

  /** The fault is a stack growth (and not a reason to kill the process). */
  predicate GrowsStack(x: Space, addr: int) {
    x.nextHeap < FaultPage(addr) <= x.nextStack
  }

  function Grow(m: Mem, addr: int): Mem
    requires 0 <= m.active < |m.spaces| && m.spaces[m.active].nextHeap >= 0
    requires m.spaces[m.active].nextStack < |m.spaces[m.active].upt|
    requires GrowsStack(m.spaces[m.active], addr)
  {
    var a := m.active;
    var r := MapDown(m, a, m.spaces[a].nextStack, FaultPage(addr));
    SetSpace(r, a, r.spaces[a].(nextStack := FaultPage(addr)))
  }

  // ----- Fork -----------------------------------------------------------------------

  function Blank(n: nat): (s: seq<Pte>)
    ensures |s| == n && forall i :: 0 <= i < n ==> s[i] == NO_PAGE
  {
    seq(n, _ => NO_PAGE)
  }

  function CopyPage(m: Mem, parent: int, child: int, i: int): Mem
    requires HasUser(m, parent, i) && HasUser(m, child, i)
  {
    var x := m.spaces[parent].upt[i];
    if !x.valid then m else
    MapUser(m, child, i, x.prot).(phys := m.phys[FrameTaken(m) := PageAt(m, x.pfn)])
  }

  function CopyFrom(m: Mem, parent: int, child: int, i: nat): (r: Mem)
    requires 0 <= parent < |m.spaces| && 0 <= child < |m.spaces| && i <= TABLE
    requires |m.spaces[parent].upt| == TABLE && |m.spaces[child].upt| == TABLE
    ensures OnlyTable(m, r, child)
    decreases TABLE - i
  {
    if i == TABLE then m else CopyFrom(CopyPage(m, parent, child, i), parent, child, i + 1)
  }

  /** The copy loop as it runs when frames may be short: without a frame it stops with ERROR, the
      child's entry already marked valid. */
  function TryCopy(m: Mem, parent: int, child: int, i: nat): (r: Done)
    requires 0 <= parent < |m.spaces| && 0 <= child < |m.spaces| && i <= TABLE
    requires |m.spaces[parent].upt| == TABLE && |m.spaces[child].upt| == TABLE
    ensures OnlyTable(m, r.m, child)
    decreases TABLE - i
  {
    if i == TABLE then Done(m, true) else
    var x := m.spaces[parent].upt[i];
    if x.valid && m.free == []
    then Done(SetUser(m, child, i, Pte(true, x.prot, m.spaces[child].upt[i].pfn)), false)
    else TryCopy(CopyPage(m, parent, child, i), parent, child, i + 1)
  }

  function InitStack(m: Mem, p: int): Mem
    requires 0 <= p < |m.spaces| && |m.spaces[p].kst| == 2 && |m.initial| == 2
  {
    var m1 := SetSpace(m, p, m.spaces[p].(kctx := AtStart));
    MapStack(MapStack(m1, p, 0), p, 1)
  }

  /** The child before any page is copied: no user pages, a fresh kernel stack, register 0 cleared. */
  function Newborn(m: Mem): Mem
    requires 0 <= m.active < |m.spaces|
  {
    var me := m.spaces[m.active];
    m.(spaces := m.spaces + [Space(true, Blank(TABLE), Blank(2), me.nextHeap, me.nextStack,
                                   m.uctx.(ret := 0), AtStart)])
  }

  function Fork(m: Mem): Mem
    requires 0 <= m.active < |m.spaces| && |m.initial| == 2 && |m.spaces[m.active].upt| == TABLE
  {
    CopyFrom(InitStack(Newborn(m), |m.spaces|), m.active, |m.spaces|, 0)
  }

  /** `sys_Fork` with two frames for the kernel stack and perhaps not enough for the pages. */
  function TryFork(m: Mem): Done
    requires 0 <= m.active < |m.spaces| && |m.initial| == 2 && |m.spaces[m.active].upt| == TABLE
  {
    TryCopy(InitStack(Newborn(m), |m.spaces|), m.active, |m.spaces|, 0)
  }

  // ----- Exit and Exec --------------------------------------------------------------

  function FreeUserFrom(m: Mem, p: int, i: nat): (r: Mem)
    requires 0 <= p < |m.spaces| && |m.spaces[p].upt| == TABLE && i <= TABLE
    ensures OnlyTable(m, r, p) && r.phys == m.phys
    decreases TABLE - i
  {
    if i == TABLE then m else FreeUserFrom(UnmapUser(m, p, i), p, i + 1)
  }

  function Exit(m: Mem): Mem
    requires 0 <= m.active < |m.spaces|
    requires |m.spaces[m.active].upt| == TABLE && |m.spaces[m.active].kst| == 2
  {
    var a := m.active;
    var m1 := UnmapStack(UnmapStack(FreeUserFrom(m, a, 0), a, 0), a, 1);
    SetSpace(m1, a, m1.spaces[a].(alive := false))
  }

  /** Where the sections of a program go, in pages of region 1, and its start context. */
  datatype Image = Image(textPage: int, textPages: int, dataPage: int, dataPages: int, stackPages: int, start: UserContext)

  function Protect(m: Mem, p: int, i: int, end: int): (r: Mem)
    requires 0 <= i && 0 <= p < |m.spaces| && end <= |m.spaces[p].upt|
    ensures OnlyTable(m, r, p) && r.phys == m.phys && r.free == m.free
    decreases end - i
  {
    if i >= end then m else
    Protect(SetUser(m, p, i, m.spaces[p].upt[i].(prot := READ_EXEC)), p, i + 1, end)
  }

  /** Sections inside the table, text below data, room between data and stack: what the
      linker guarantees and the size check of `load_program` lets through. */
  predicate ImageFits(img: Image) {
    && 0 <= img.textPage && 0 <= img.textPages && img.textPage + img.textPages <= img.dataPage
    && 0 <= img.dataPages && 0 <= img.stackPages
    && img.stackPages + img.dataPage + img.dataPages < TABLE
  }

  /** Map the sections of a program into an empty region 1. */
  function MapImage(m: Mem, p: int, img: Image): (r: Mem)
    requires 0 <= p < |m.spaces| && |m.spaces[p].upt| == TABLE && ImageFits(img)
    ensures OnlyTable(m, r, p) && r.phys == m.phys
  {
    var m2 := MapUp(m, p, img.textPage, img.textPage + img.textPages).m;
    var m3 := MapUp(m2, p, img.dataPage, img.dataPage + img.dataPages).m;
    var m4 := MapDown(m3, p, TABLE - 1, TABLE - 1 - img.stackPages);
    Protect(m4, p, img.textPage, img.textPage + img.textPages)
  }

  function Load(m: Mem, p: int, img: Image): Mem
    requires 0 <= p < |m.spaces| && |m.spaces[p].upt| == TABLE && ImageFits(img)
  {
    var r := MapImage(FreeUserFrom(m, p, 0), p, img);
    SetSpace(r, p, r.spaces[p].(nextHeap := img.dataPage + img.dataPages,
                                nextStack := TABLE - 1 - img.stackPages, uctx := img.start))
  }

  /** The stack loop of `load_program`: unlike the fault handler it stops when frames run out. */
  function TryDown(m: Mem, p: int, i: int, end: int): (r: Done)
    requires -1 <= end && 0 <= p < |m.spaces| && i < |m.spaces[p].upt|
    ensures OnlyTable(m, r.m, p) && r.m.phys == m.phys
    decreases i - end
  {
    if i <= end then Done(m, true) else
    if m.free == [] then Done(m, false) else TryDown(MapUser(m, p, i, READ_WRITE), p, i - 1, end)
  }

  /** The three mapping loops, up to the first failure. */
  function TryMap(m: Mem, p: int, img: Image): (r: Done)
    requires 0 <= p < |m.spaces| && |m.spaces[p].upt| == TABLE && ImageFits(img)
    ensures OnlyTable(m, r.m, p) && r.m.phys == m.phys
  {
    var t := MapUp(m, p, img.textPage, img.textPage + img.textPages);
    if !t.ok then t else
    var d := MapUp(t.m, p, img.dataPage, img.dataPage + img.dataPages);
    if !d.ok then d else TryDown(d.m, p, TABLE - 1, TABLE - 1 - img.stackPages)
  }

  /** Where the heap ends after a load: the data loop moves it even if the stack loop fails. */
  function HeapAfter(m: Mem, p: int, img: Image): int
    requires 0 <= p < |m.spaces| && |m.spaces[p].upt| == TABLE && ImageFits(img)
  {
    if |m.free| >= img.textPages + img.dataPages then img.dataPage + img.dataPages else m.spaces[p].nextHeap
  }

  /** The page table work of `load_program`.  A load that runs out of frames returns ERROR with the old
      program gone and the new one mapped in part. */
  function TryLoad(m: Mem, p: int, img: Image): Done
    requires 0 <= p < |m.spaces| && |m.spaces[p].upt| == TABLE && ImageFits(img)
  {
    var m1 := FreeUserFrom(m, p, 0);
    var d := TryMap(m1, p, img);
    if !d.ok then Done(SetSpace(d.m, p, d.m.spaces[p].(nextHeap := HeapAfter(m1, p, img))), false) else
    var r := Protect(d.m, p, img.textPage, img.textPage + img.textPages);
    Done(SetSpace(r, p, r.spaces[p].(nextHeap := img.dataPage + img.dataPages,
                                     nextStack := TABLE - 1 - img.stackPages, uctx := img.start)), true)
  }

  // ----- kernel stacks and context switches ------------------------------------------

  predicate KernelPages(m: Mem) {
    |m.kpt| == TABLE && |m.initial| == 2
  }

  /** The frames behind the running kernel stack. */
  function LiveFrame(m: Mem, i: nat): int
    requires |m.kpt| == TABLE && i < 2
  {
    m.kpt[STACK0 + i].pfn
  }

  function CopyFrame(m: Mem, dst: int, src: int): Mem {
    m.(phys := m.phys[dst := PageAt(m, src)])
  }

  /** Save the running kernel stack and context as p's. */
  function SaveKernel(m: Mem, p: int): Mem
    requires KernelPages(m) && 0 <= p < |m.spaces| && |m.spaces[p].kst| == 2
  {
    var m1 := SetSpace(m, p, m.spaces[p].(kctx := InSwitch(p, m.kregs)));
    var m2 := CopyFrame(m1, m1.spaces[p].kst[0].pfn, LiveFrame(m1, 0));
    CopyFrame(m2, m2.spaces[p].kst[1].pfn, LiveFrame(m2, 1))
  }

  /** Put p's saved kernel stack under the running kernel. */
  function RestoreStack(m: Mem, p: int): Mem
    requires KernelPages(m) && 0 <= p < |m.spaces| && |m.spaces[p].kst| == 2
  {
    var m1 := CopyFrame(m, LiveFrame(m, 0), m.spaces[p].kst[0].pfn);
    CopyFrame(m1, LiveFrame(m1, 1), m1.spaces[p].kst[1].pfn)
  }

  /** Go on from a kernel context: the code after it installs the page table and the user
      context of the process its own variables name. */
  function GoOn(m: Mem, c: KernelContext): Mem {
    var q := if c.InSwitch? then c.owner else m.active;
    var m1 := m.(installed := q, kregs := if c.InSwitch? then c.regs else m.kregs);
    if 0 <= q < |m.spaces| then m1.(uctx := m.spaces[q].uctx) else m1
  }

  /** `context_switch`; `save` is false when the old process has exited. */
  function SwitchTo(m: Mem, next: int, save: bool): Mem
    requires KernelPages(m) && 0 <= next < |m.spaces| && |m.spaces[next].kst| == 2
    requires 0 <= m.active < |m.spaces| && |m.spaces[m.active].kst| == 2
  {
    var was := m.active;
    var m1 := m.(active := next);
    var m2 := if save then SetSpace(m1, was, m1.spaces[was].(uctx := m.uctx)) else m1;
    var m3 := if m2.spaces[next].kst[0].pfn == 0 then InitStack(m2, next) else m2;
    var m4 := if save then SaveKernel(m3, was) else m3;
    GoOn(RestoreStack(m4, next), m4.spaces[next].kctx)
  }

  /** `return_initial_state`, the end of a successful Exec. */
  function ReturnInitial(m: Mem): Mem
    requires KernelPages(m)
  {
    var m1 := CopyFrame(m, LiveFrame(m, 0), m.initial[0].pfn);
    GoOn(CopyFrame(m1, LiveFrame(m1, 1), m1.initial[1].pfn), AtStart)
  }

  // ----- the kernel's own heap -----------------------------------------------------------

  function MapKernel(m: Mem, i: int): Mem
    requires 0 <= i < |m.kpt|
  {
    m.(kpt := m.kpt[i := Pte(true, READ_WRITE, FrameTaken(m))], free := FreeLeft(m))
  }

  function MapKernelUp(m: Mem, i: int, end: int): (r: Done)
    requires 0 <= i && end <= |m.kpt|
    ensures |r.m.kpt| == |m.kpt|
    decreases end - i
  {
    if i >= end then Done(m, true) else
    if m.free == [] then Done(m, false) else MapKernelUp(MapKernel(m, i), i + 1, end)
  }

  /** `SetKernelBrk` with virtual memory on, in whole pages. */
  function KernelBrk(m: Mem, end: int): Done
    requires 0 <= m.brk && |m.kpt| == TABLE
  {
    if end <= m.brk then Done(m, true) else
    if end >= STACK0 then Done(m, false) else
    var r := MapKernelUp(m, m.brk, end);
    if r.ok then Done(r.m.(brk := end), true) else r
  }

  // ----- the machine ---------------------------------------------------------------------

  datatype Event =
    | EBrk(addr: int)
    | EGrow(addr: int)
    | EFork
    | EExec(image: Image)
    | EExit(next: int)
    | ESwitch(next: int)
    | EUserWrite(page: int, contents: Page)  // a store by the running user program
    | EUserRun(uctx: UserContext)            // its registers change
    | EKernelRun(page0: Page, page1: Page, regs: int)  // kernel code runs on its stack
    | EKernelBrk(end: int)

  /** How many valid entries a table has: what a copy of it needs. */
  function Used(s: seq<Pte>): nat {
    if s == [] then 0 else (if s[0].valid then 1 else 0) + Used(s[1..])
  }

  predicate Shape(m: Mem) {
    && KernelPages(m)
    && 0 <= m.active < |m.spaces|
    && (forall p :: 0 <= p < |m.spaces| ==> |m.spaces[p].upt| == TABLE && |m.spaces[p].kst| == 2)
    && (forall p :: 0 <= p < |m.spaces| ==>
          0 <= m.spaces[p].nextHeap <= TABLE && -1 <= m.spaces[p].nextStack < TABLE)
    && 0 < m.brk < STACK0
  }

  predicate CanSwitch(m: Mem, next: int) {
    && 0 <= next < |m.spaces| && m.spaces[next].alive && |m.spaces[next].kst| == 2
    && (m.spaces[next].kst[0].pfn == 0 ==> |m.free| >= 2)
  }

  /** When a step can be taken.  Frames are there for Fork, stack growth and a first turn; the
      failures of Brk, Exec and the kernel heap are modelled.  Brk's argument is a region 1 address. */
  predicate Enabled(m: Mem, e: Event)
    requires Shape(m)
  {
    var me := m.spaces[m.active];
    match e
    case EBrk(addr) => VMEM_1_BASE <= addr <= VMEM_1_LIMIT
    case EGrow(addr) => GrowsStack(me, addr) && |m.free| >= me.nextStack - FaultPage(addr)
    case EFork => |m.free| >= 2 + Used(me.upt)
    case EExec(img) => ImageFits(img)
    case EExit(next) => next != m.active && 0 <= next < |m.spaces| && m.spaces[next].alive
    case ESwitch(next) => CanSwitch(m, next)
    case EUserWrite(i, _) =>
      && 0 <= m.installed < |m.spaces| && 0 <= i < TABLE
      && m.spaces[m.installed].upt[i].valid && m.spaces[m.installed].upt[i].prot == READ_WRITE
    case EUserRun(_) => true
    case EKernelRun(_, _, _) => true
    case EKernelBrk(_) => true
  }

  lemma BrkInTable(addr: int)
    requires VMEM_1_BASE <= addr <= VMEM_1_LIMIT
    ensures 0 <= BrkPage(addr) <= TABLE
  {
  }

  function Step(m: Mem, e: Event): Mem
    requires Shape(m) && Enabled(m, e)
  {
    match e
    case EBrk(addr) => BrkInTable(addr); Brk(m, addr).m
    case EGrow(addr) => Grow(m, addr)
    case EFork => Fork(m)
    case EExec(img) =>
      var d := TryLoad(m, m.active, img);
      if d.ok then ReturnInitial(d.m) else d.m
    case EExit(next) => SwitchTo(Exit(m), next, false)
    case ESwitch(next) => SwitchTo(m, next, true)
    case EUserWrite(i, contents) => m.(phys := m.phys[m.spaces[m.installed].upt[i].pfn := contents])
    case EUserRun(u) => m.(uctx := u)
    case EKernelRun(a, b, regs) =>
      m.(phys := m.phys[LiveFrame(m, 0) := a][LiveFrame(m, 1) := b], kregs := regs)
    case EKernelBrk(end) => KernelBrk(m, end).m
  }
}
