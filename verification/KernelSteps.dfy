/**
 The kernel as one transition system.  A step is one segment of a system call, from
 entry or wake-up to return or to the next `normal_schedule`, or one trap.

 Objects are kept in allocation order and never forgotten: a C pointer to a lock, pipe
 or condition variable is an index, and `listed` says whether the object is still in
 the kernel's list.  `Log` is history: it is written by the steps and read by none.
 */
module KernelSteps {
  import opened Constants
  import opened Scheduler

  const MAX_PROC: nat := 1000
  const NUM_TERMINALS: nat := 4
  const TERMINAL_MAX_LINE: nat := 1024
  const PIPE_BUF_SIZE: nat := 4096

  datatype Option<+T> = None | Some(value: T)

  // ----- state --------------------------------------------------------------

  datatype Kin = Kin(ppid: int, children: seq<int>)
  datatype DeadInfo = DeadInfo(ppid: int, pid: int, status: int)
  datatype Lock = Lock(id: int, listed: bool, locked: bool, owner: int)
  datatype Cvar = Cvar(id: int, listed: bool)
  datatype Pipe = Pipe(id: int, listed: bool, buf: seq<int>)
  datatype Sem = Sem(id: int, count: int)
  datatype Kind = PipeKind | LockKind | CvarKind
  datatype ReclaimInfo = ReclaimInfo(id: int, kind: Kind)
  datatype Tx = Tx(pid: int, len: int)
  /** `busy` is the kernel's flag; `line` is the hardware's transmissions in flight. */
  datatype Tty = Tty(busy: bool, line: seq<Tx>)

  datatype LockEv = Acq(pid: int) | Rel(pid: int)

  datatype Log = Log(
    lockTrace: map<nat, seq<LockEv>>,  // successful acquires and releases of each lock
    accepted: map<nat, seq<int>>,      // bytes each pipe took in
    delivered: map<nat, seq<int>>,     // bytes each pipe gave out
    arrivals: map<nat, seq<int>>,      // processes that called wait on each semaphore
    passed: map<nat, seq<int>>,        // those of them let through
    signals: map<nat, nat>,            // signals of each semaphore
    chunks: map<int, seq<int>>,        // transmissions of each process's latest TtyWrite
    exits: seq<DeadInfo>,              // exits of processes with a parent
    reaped: seq<DeadInfo>)             // what the successful Waits returned

  datatype State = State(
    k: Sched,
    family: seq<Kin>,
    dead: seq<DeadInfo>,
    locks: seq<Lock>,
    cvars: seq<Cvar>,
    pipes: seq<Pipe>,
    sems: seq<Sem>,
    nextSem: int,
    reclaims: seq<ReclaimInfo>,
    ttys: seq<Tty>,
    log: Log)

  function At0<T>(m: map<nat, seq<T>>, h: nat): seq<T> {
    if h in m then m[h] else []
  }

  function ChunksOf(g: Log, p: int): seq<int> {
    if p in g.chunks then g.chunks[p] else []
  }

  function SignalsOf(g: Log, h: nat): nat {
    if h in g.signals then g.signals[h] else 0
  }

  datatype Event =
    | Fork
    | Exit(status: int)
    | Wait
    | Delay(ticks: int)
    | TtyWrite(tty: int, len: int)
    | PipeInit
    | PipeRead(id: int, len: int)
    | PipeWrite(id: int, len: int, data: seq<int>)
    | LockInit
    | Acquire(id: int)
    | Release(id: int)
    | CvarInit
    | CvarSignal(id: int)
    | CvarBroadcast(id: int)
    | CvarWait(id: int, lockId: int)
    | Reclaim(id: int)
    | SemInit
    | SemSignal(id: int)
    | SemWait(id: int)
    | Tick
    | Transmitted(tty: int)
    | Resume  // the active process goes on where its last normal_schedule returned

  // ----- list searches ------------------------------------------------------

  predicate IsLock(l: Lock, id: int) { l.listed && l.id == id }
  predicate IsHeld(l: Lock, id: int, p: int) { IsLock(l, id) && l.owner == p && l.locked }
  predicate IsDisposable(l: Lock, id: int, p: int) {
    IsLock(l, id) && ((l.owner == p && l.locked) || !l.locked)
  }
  predicate IsCvar(c: Cvar, id: int) { c.listed && c.id == id }
  predicate IsPipe(x: Pipe, id: int) { x.listed && x.id == id }

  function FindLock(s: seq<Lock>, id: int, i: nat): (r: Option<nat>)
    ensures r.Some? ==> i <= r.value < |s| && IsLock(s[r.value], id)
    ensures r.Some? ==> forall j :: i <= j < r.value ==> !IsLock(s[j], id)
    ensures r.None? ==> forall j :: i <= j < |s| ==> !IsLock(s[j], id)
    decreases |s| - i
  {
    if i >= |s| then None else if IsLock(s[i], id) then Some(i) else FindLock(s, id, i + 1)
  }

  function FindHeld(s: seq<Lock>, id: int, p: int, i: nat): (r: Option<nat>)
    ensures r.Some? ==> i <= r.value < |s| && IsHeld(s[r.value], id, p)
    ensures r.Some? ==> forall j :: i <= j < r.value ==> !IsHeld(s[j], id, p)
    ensures r.None? ==> forall j :: i <= j < |s| ==> !IsHeld(s[j], id, p)
    decreases |s| - i
  {
    if i >= |s| then None else if IsHeld(s[i], id, p) then Some(i) else FindHeld(s, id, p, i + 1)
  }

  function FindDisposable(s: seq<Lock>, id: int, p: int, i: nat): (r: Option<nat>)
    ensures r.Some? ==> i <= r.value < |s| && IsDisposable(s[r.value], id, p)
    ensures r.None? ==> forall j :: i <= j < |s| ==> !IsDisposable(s[j], id, p)
    decreases |s| - i
  {
    if i >= |s| then None else if IsDisposable(s[i], id, p) then Some(i) else FindDisposable(s, id, p, i + 1)
  }

  function FindCvar(s: seq<Cvar>, id: int, i: nat): (r: Option<nat>)
    ensures r.Some? ==> i <= r.value < |s| && IsCvar(s[r.value], id)
    ensures r.None? ==> forall j :: i <= j < |s| ==> !IsCvar(s[j], id)
    decreases |s| - i
  {
    if i >= |s| then None else if IsCvar(s[i], id) then Some(i) else FindCvar(s, id, i + 1)
  }

  function FindPipe(s: seq<Pipe>, id: int, i: nat): (r: Option<nat>)
    ensures r.Some? ==> i <= r.value < |s| && IsPipe(s[r.value], id)
    ensures r.None? ==> forall j :: i <= j < |s| ==> !IsPipe(s[j], id)
    decreases |s| - i
  {
    if i >= |s| then None else if IsPipe(s[i], id) then Some(i) else FindPipe(s, id, i + 1)
  }

  function FindSem(s: seq<Sem>, id: int, i: nat): (r: Option<nat>)
    ensures r.Some? ==> i <= r.value < |s| && s[r.value].id == id
    ensures r.None? ==> forall j :: i <= j < |s| ==> s[j].id != id
    decreases |s| - i
  {
    if i >= |s| then None else if s[i].id == id then Some(i) else FindSem(s, id, i + 1)
  }

  function FindReclaim(s: seq<ReclaimInfo>, id: int, i: nat): (r: Option<nat>)
    ensures r.Some? ==> i <= r.value < |s| && s[r.value].id == id
    ensures r.None? ==> forall j :: i <= j < |s| ==> s[j].id != id
    decreases |s| - i
  {
    if i >= |s| then None else if s[i].id == id then Some(i) else FindReclaim(s, id, i + 1)
  }

  function FindDead(s: seq<DeadInfo>, parent: int, i: nat): (r: Option<nat>)
    ensures r.Some? ==> i <= r.value < |s| && s[r.value].ppid == parent
    ensures r.Some? ==> forall j :: i <= j < r.value ==> s[j].ppid != parent
    ensures r.None? ==> forall j :: i <= j < |s| ==> s[j].ppid != parent
    decreases |s| - i
  {
    if i >= |s| then None else if s[i].ppid == parent then Some(i) else FindDead(s, parent, i + 1)
  }

  function FindPid(s: seq<int>, p: int, i: nat): (r: Option<nat>)
    ensures r.Some? ==> i <= r.value < |s| && s[r.value] == p
    ensures r.Some? ==> forall j :: i <= j < r.value ==> s[j] != p
    ensures r.None? ==> forall j :: i <= j < |s| ==> s[j] != p
    decreases |s| - i
  {
    if i >= |s| then None else if s[i] == p then Some(i) else FindPid(s, p, i + 1)
  }

  /** The process is blocked in TtyWrite on terminal t. */
  predicate WritesTo(k: Sched, p: int, t: int) {
    (ContOf(k, p).TtyBusy? || ContOf(k, p).TtySent?) && ContOf(k, p).tty == t
  }

  function FindWriter(k: Sched, q: seq<int>, t: int, i: nat): (r: Option<nat>)
    ensures r.Some? ==> i <= r.value < |q| && WritesTo(k, q[r.value], t)
    ensures r.Some? ==> forall j :: i <= j < r.value ==> !WritesTo(k, q[j], t)
    ensures r.None? ==> forall j :: i <= j < |q| ==> !WritesTo(k, q[j], t)
    decreases |q| - i
  {
    if i >= |q| then None else if WritesTo(k, q[i], t) then Some(i) else FindWriter(k, q, t, i + 1)
  }

  /** `list_remove` at a 1-based location; nothing happens out of range. */
  function RemoveLoc<T>(s: seq<T>, loc: int): seq<T> {
    if 1 <= loc <= |s| then s[..loc - 1] + s[loc..] else s
  }

  function DropPid(s: seq<int>, p: int): seq<int> {
    match FindPid(s, p, 0)
    case None => s
    case Some(i) => s[..i] + s[i + 1..]
  }

  // ----- plans: what a segment does to the objects, whom it wakes, how it ends ----

  datatype Plan = Plan(next: State, wake: Wake, fin: Fin)

  /** The part of the kernel's state a segment works on. */
  datatype Area = NoArea | LockArea | PipeArea | SemArea | TtyArea | KinArea | ReclaimArea

  predicate WakesNone(w: Wake) { !w.Heads? && !w.At? }

  predicate LocksAlone(s: State, p: Plan) {
    && p.next.locks == s.locks && p.next.log.lockTrace == s.log.lockTrace
    && (WakesNone(p.wake) || !p.wake.chan.LockQ?) && !(p.fin.Block? && p.fin.cont.RetryAcquire?)
  }

  predicate PipesAlone(s: State, p: Plan) {
    && p.next.pipes == s.pipes && p.next.log.accepted == s.log.accepted && p.next.log.delivered == s.log.delivered
    && (WakesNone(p.wake) || !p.wake.chan.PipeQ?) && !(p.fin.Block? && p.fin.cont.RetryRead?)
  }

  predicate SemsAlone(s: State, p: Plan) {
    && p.next.sems == s.sems && p.next.nextSem == s.nextSem && p.next.log.arrivals == s.log.arrivals
    && p.next.log.passed == s.log.passed && p.next.log.signals == s.log.signals
    && (WakesNone(p.wake) || !p.wake.chan.SemQ?) && !(p.fin.Block? && p.fin.cont.SemPassed?)
  }

  predicate TtysAlone(s: State, p: Plan) {
    && p.next.ttys == s.ttys && p.next.log.chunks == s.log.chunks
    && (WakesNone(p.wake) || !p.wake.chan.IoQ?)
    && !(p.fin.Block? && (p.fin.cont.TtyBusy? || p.fin.cont.TtySent?))
  }

  predicate KinAlone(s: State, p: Plan) {
    && p.next.family == s.family && p.next.dead == s.dead
    && p.next.log.exits == s.log.exits && p.next.log.reaped == s.log.reaped
    && (WakesNone(p.wake) || !p.wake.chan.WaitQ?)
    && !p.fin.Die? && !p.fin.Spawn? && !(p.fin.Block? && p.fin.cont.ScanDead?)
  }

  /** The plan keeps to its area: everything else in the kernel, and its history, is
      left alone, and so is the scheduler, which is changed only by the ordered move. */
  predicate Within(s: State, p: Plan, a: Area) {
    && p.next.k == s.k
    && (a == LockArea || a == ReclaimArea || LocksAlone(s, p))
    && (a == PipeArea || a == ReclaimArea || PipesAlone(s, p))
    && (a == SemArea || SemsAlone(s, p))
    && (a == TtyArea || TtysAlone(s, p))
    && (a == KinArea || KinAlone(s, p))
  }

  function Fails(s: State): (p: Plan)
    ensures Within(s, p, NoArea)
  {
    Plan(s, NoWake, Ret(ERROR))
  }

  function PlanFork(s: State): (p: Plan)
    requires Sane(s)
    ensures Within(s, p, KinArea)
  {
    var a := s.k.active;
    Plan(s.(family := s.family[a := s.family[a].(children := s.family[a].children + [|s.k.pcbs|])] + [Kin(a, [])]),
         NoWake, Spawn)
  }

  function Orphaned(family: seq<Kin>, children: seq<int>): seq<Kin> {
    seq(|family|, i requires 0 <= i < |family| =>
      if i in children then family[i].(ppid := NOBODY) else family[i])
  }

  function DropChild(family: seq<Kin>, parent: int, child: int): seq<Kin> {
    if 0 <= parent < |family|
    then family[parent := family[parent].(children := DropPid(family[parent].children, child))]
    else family
  }

  function PlanExit(s: State, status: int): (p: Plan)
    requires Sane(s)
    ensures Within(s, p, KinArea)
  {
    var a := s.k.active;
    var me := s.family[a];
    var orphaned := Orphaned(s.family, me.children);
    var info := DeadInfo(me.ppid, a, status);
    var wake := match FindPid(Q(s.k, WaitQ), me.ppid, 0)
                case None => NoWake
                case Some(j) => At(WaitQ, j);
    if me.ppid == NOBODY then Plan(s.(family := orphaned), wake, Die) else
    Plan(s.(family := DropChild(orphaned, me.ppid, a),
            dead := s.dead + [info],
            log := s.log.(exits := s.log.exits + [info])), wake, Die)
  }

  /** The scan of the dead list; `index` is the value of the running location `i` when
      the scan starts.  The entry found at position j is reported, and the entry at
      location `index + j` is removed. */
  function PlanScan(s: State, index: int, j: nat): (p: Plan)
    requires j < |s.dead|
    ensures Within(s, p, KinArea)
  {
    Plan(s.(dead := RemoveLoc(s.dead, index + j), log := s.log.(reaped := s.log.reaped + [s.dead[j]])),
         NoWake, Ret(s.dead[j].pid))
  }

  function PlanWait(s: State): (p: Plan)
    requires Sane(s)
    ensures Within(s, p, KinArea)
  {
    if s.family[s.k.active].children == [] then Fails(s) else
    match FindDead(s.dead, s.k.active, 0)
    case Some(j) => PlanScan(s, 1, j)
    case None => Plan(s, NoWake, Block(ScanDead(|s.dead| + 1)))
  }

  function PlanRescan(s: State, index: int): (p: Plan)
    ensures Within(s, p, KinArea)
  {
    match FindDead(s.dead, s.k.active, 0)
    case Some(j) => PlanScan(s, index, j)
    case None => Fails(s)
  }

  function PlanDelay(s: State, ticks: int): (p: Plan)
    ensures Within(s, p, NoArea)
  {
    if ticks < 0 then Fails(s) else
    if ticks == 0 then Plan(s, NoWake, Ret(0)) else
    Plan(s, NoWake, Block(Asleep(ticks)))
  }

  function ChunkLen(remain: int): int {
    if remain > TERMINAL_MAX_LINE then TERMINAL_MAX_LINE else remain
  }

  /** The active process has handed n bytes to terminal t. */
  function Sent(s: State, t: nat, n: int): State
    requires t < |s.ttys|
  {
    var a := s.k.active;
    s.(ttys := s.ttys[t := Tty(true, s.ttys[t].line + [Tx(a, n)])],
       log := s.log.(chunks := s.log.chunks[a := ChunksOf(s.log, a) + [n]]))
  }

  /** The top of the loop of `sys_TtyWrite`. */
  function PlanTtyLoop(s: State, t: nat, remain: int, total: int): (p: Plan)
    ensures Within(s, p, TtyArea)
  {
    if remain <= 0 then Plan(s, NoWake, Ret(total)) else
    if t >= |s.ttys| then Fails(s) else
    if s.ttys[t].busy then Plan(s, NoWake, Block(TtyBusy(t, remain, total))) else
    var n := ChunkLen(remain);
    Plan(Sent(s, t, n), NoWake, Block(TtySent(t, remain - n, total)))
  }

  function PlanTtyWrite(s: State, t: int, len: int): (p: Plan)
    ensures Within(s, p, TtyArea)
  {
    if t < 0 || t > NUM_TERMINALS || len < 0 then Fails(s) else
    PlanTtyLoop(s.(log := s.log.(chunks := s.log.chunks[s.k.active := []])), t, len, len)
  }

  function PlanTransmitted(s: State, t: int): (p: Plan)
    requires 0 <= t < |s.ttys| && s.ttys[t].line != []
    ensures Within(s, p, TtyArea)
  {
    var wake := match FindWriter(s.k, Q(s.k, IoQ), t, 0)
                case None => NoWake
                case Some(i) => At(IoQ, i);
    Plan(s.(ttys := s.ttys[t := Tty(false, s.ttys[t].line[1..])]), wake, Stay)
  }

  function NewId(s: State): int { |s.reclaims| + 1 }

  function PlanPipeInit(s: State): (p: Plan)
    ensures Within(s, p, PipeArea)
  {
    Plan(s.(pipes := s.pipes + [Pipe(NewId(s), true, [])],
            reclaims := s.reclaims + [ReclaimInfo(NewId(s), PipeKind)]), NoWake, Ret(0))
  }

  function PlanLockInit(s: State): (p: Plan)
    ensures Within(s, p, LockArea)
  {
    Plan(s.(locks := s.locks + [Lock(NewId(s), true, false, 0)],
            reclaims := s.reclaims + [ReclaimInfo(NewId(s), LockKind)]), NoWake, Ret(0))
  }

  function PlanCvarInit(s: State): (p: Plan)
    ensures Within(s, p, NoArea)
  {
    Plan(s.(cvars := s.cvars + [Cvar(NewId(s), true)],
            reclaims := s.reclaims + [ReclaimInfo(NewId(s), CvarKind)]), NoWake, Ret(0))
  }

  function PlanTryRead(s: State, h: nat, id: int, len: int, seen: bool): (p: Plan)
    ensures Within(s, p, PipeArea)
  {
    if h >= |s.pipes| then Fails(s) else
    var x := s.pipes[h];
    if |x.buf| < len then Plan(s, NoWake, Block(RetryRead(h, id, len, seen))) else
    var n := if len < 0 then 0 else len;
    Plan(s.(pipes := s.pipes[h := x.(buf := x.buf[n..])],
            log := s.log.(delivered := s.log.delivered[h := At0(s.log.delivered, h) + x.buf[..n]])),
         Heads(PipeQ(h), 1), Ret(0))
  }

  function PlanPipeRead(s: State, id: int, len: int): (p: Plan)
    ensures Within(s, p, PipeArea)
  {
    if id < 0 || len < 0 then Fails(s) else
    match FindPipe(s.pipes, id, 0)
    case None => Fails(s)
    case Some(h) => PlanTryRead(s, h, id, len, false)
  }

  function PlanRetryRead(s: State, h: nat, id: int, len: int, seen: bool): (p: Plan)
    ensures Within(s, p, PipeArea)
  {
    if !seen && FindPipe(s.pipes, id, 0).None? then Fails(s) else PlanTryRead(s, h, id, len, true)
  }

  function PlanPipeWrite(s: State, id: int, len: int, data: seq<int>): (p: Plan)
    ensures Within(s, p, PipeArea)
  {
    if id < 0 || len < 0 then Fails(s) else
    match FindPipe(s.pipes, id, 0)
    case None => Fails(s)
    case Some(h) =>
      var x := s.pipes[h];
      var room := if |x.buf| <= PIPE_BUF_SIZE then PIPE_BUF_SIZE - |x.buf| else 0;
      var n := Min(room, |data|);
      Plan(s.(pipes := s.pipes[h := x.(buf := x.buf + data[..n])],
              log := s.log.(accepted := s.log.accepted[h := At0(s.log.accepted, h) + data[..n]])),
           Heads(PipeQ(h), 1), Ret(n))
  }

  function PlanTryAcquire(s: State, h: nat, id: int, seen: bool): (p: Plan)
    ensures Within(s, p, LockArea)
  {
    if h >= |s.locks| then Fails(s) else
    if s.locks[h].locked then Plan(s, NoWake, Block(RetryAcquire(h, id, seen))) else
    var a := s.k.active;
    Plan(s.(locks := s.locks[h := s.locks[h].(locked := true, owner := a)],
            log := s.log.(lockTrace := s.log.lockTrace[h := At0(s.log.lockTrace, h) + [Acq(a)]])),
         NoWake, Ret(0))
  }

  function PlanAcquire(s: State, id: int): (p: Plan)
    ensures Within(s, p, LockArea)
  {
    match FindLock(s.locks, id, 0)
    case None => Fails(s)
    case Some(h) => PlanTryAcquire(s, h, id, false)
  }

  function PlanRetryAcquire(s: State, h: nat, id: int, seen: bool): (p: Plan)
    ensures Within(s, p, LockArea)
  {
    if !seen && FindLock(s.locks, id, 0).None? then Fails(s) else PlanTryAcquire(s, h, id, true)
  }

  /** Free lock h and, if somebody waits for it, note the first waiter as its next owner. */
  function Freed(s: State, h: nat): State
    requires h < |s.locks|
  {
    var q := Q(s.k, LockQ(h));
    var next := if q == [] then 0 else q[0];
    s.(locks := s.locks[h := s.locks[h].(locked := false, owner := next)],
       log := s.log.(lockTrace := s.log.lockTrace[h := At0(s.log.lockTrace, h) + [Rel(s.k.active)]]))
  }

  function PlanRelease(s: State, id: int): (p: Plan)
    ensures Within(s, p, LockArea)
  {
    match FindHeld(s.locks, id, s.k.active, 0)
    case None => Fails(s)
    case Some(h) => Plan(Freed(s, h), Heads(LockQ(h), 1), Ret(0))
  }

  function PlanCvarSignal(s: State, id: int): (p: Plan)
    ensures Within(s, p, NoArea)
  {
    if id < 0 then Fails(s) else
    match FindCvar(s.cvars, id, 0)
    case None => Fails(s)
    case Some(h) => Plan(s, Heads(CvarQ(h), 1), Ret(0))
  }

  function PlanCvarBroadcast(s: State, id: int): (p: Plan)
    ensures Within(s, p, NoArea)
  {
    if id < 0 then Fails(s) else
    match FindCvar(s.cvars, id, 0)
    case None => Fails(s)
    case Some(h) => Plan(s, Heads(CvarQ(h), |Q(s.k, CvarQ(h))|), Ret(0))
  }

  /** Release the lock and queue on the condition variable, in one segment.  When the
      condition variable does not exist the lock stays released. */
  function PlanCvarWait(s: State, id: int, lockId: int): (p: Plan)
    ensures Within(s, p, LockArea)
  {
    match FindHeld(s.locks, lockId, s.k.active, 0)
    case None => Fails(s)
    case Some(l) =>
      match FindCvar(s.cvars, id, 0)
      case None => Plan(Freed(s, l), Heads(LockQ(l), 1), Ret(ERROR))
      case Some(h) => Plan(Freed(s, l), Heads(LockQ(l), 1), Block(CvarBlocked(h, id, lockId)))
  }

  function PlanCvarWoken(s: State, id: int, lockId: int): (p: Plan)
    ensures Within(s, p, LockArea)
  {
    if FindCvar(s.cvars, id, 0).None? then Fails(s) else PlanAcquire(s, lockId)
  }

  /** How many waiters the loop of `destroy_*_info` moves: it re-tests the shrinking length. */
  function DestroyCount(waiters: nat): nat { (waiters + 1) / 2 }

  function Unlisted(s: State, i: nat): State {
    s.(reclaims := RemoveLoc(s.reclaims, i + 1))
  }

  function PlanDestroy(s: State, i: nat): (p: Plan)
    requires i < |s.reclaims|
    ensures Within(s, p, ReclaimArea)
  {
    var id := s.reclaims[i].id;
    match s.reclaims[i].kind
    case PipeKind =>
      (match FindPipe(s.pipes, id, 0)
       case None => Fails(s)
       case Some(h) => Plan(Unlisted(s.(pipes := s.pipes[h := s.pipes[h].(listed := false)]), i),
                            Heads(PipeQ(h), DestroyCount(|Q(s.k, PipeQ(h))|)), Ret(0)))
    case LockKind =>
      (match FindDisposable(s.locks, id, s.k.active, 0)
       case None => Fails(s)
       case Some(h) => Plan(Unlisted(s.(locks := s.locks[h := s.locks[h].(listed := false)]), i),
                            Heads(LockQ(h), DestroyCount(|Q(s.k, LockQ(h))|)), Ret(0)))
    case CvarKind =>
      (match FindCvar(s.cvars, id, 0)
       case None => Fails(s)
       case Some(h) => Plan(Unlisted(s.(cvars := s.cvars[h := s.cvars[h].(listed := false)]), i),
                            Heads(CvarQ(h), DestroyCount(|Q(s.k, CvarQ(h))|)), Ret(0)))
  }

  function PlanReclaim(s: State, id: int): (p: Plan)
    ensures Within(s, p, ReclaimArea)
  {
    if id < 0 then Fails(s) else
    match FindReclaim(s.reclaims, id, 0)
    case None => Fails(s)
    case Some(i) => PlanDestroy(s, i)
  }

  function PlanSemInit(s: State): (p: Plan)
    ensures Within(s, p, SemArea)
  {
    Plan(s.(sems := s.sems + [Sem(s.nextSem, 0)], nextSem := s.nextSem + 1), NoWake, Ret(s.nextSem))
  }

  /** A signal of semaphore h finds somebody to let through. */
  predicate HandsOn(s: State, h: nat)
    requires h < |s.sems|
  {
    s.sems[h].count + 1 <= 0 && Q(s.k, SemQ(h)) != []
  }

  /** The count and the history after a signal of semaphore h. */
  function Signalled(s: State, h: nat): State
    requires h < |s.sems|
  {
    var g := s.log.(signals := s.log.signals[h := SignalsOf(s.log, h) + 1]);
    s.(sems := s.sems[h := s.sems[h].(count := s.sems[h].count + 1)],
       log := if HandsOn(s, h) then g.(passed := g.passed[h := At0(g.passed, h) + [Q(s.k, SemQ(h))[0]]]) else g)
  }

  function PlanSemSignal(s: State, id: int): (p: Plan)
    ensures Within(s, p, SemArea)
  {
    match FindSem(s.sems, id, 0)
    case None => Fails(s)
    case Some(h) => Plan(Signalled(s, h), if HandsOn(s, h) then Heads(SemQ(h), 1) else NoWake, Ret(0))
  }

  function PlanSemWait(s: State, id: int): (p: Plan)
    ensures Within(s, p, SemArea)
  {
    match FindSem(s.sems, id, 0)
    case None => Fails(s)
    case Some(h) =>
      var a := s.k.active;
      var n := s.sems[h].count - 1;
      var g := s.log.(arrivals := s.log.arrivals[h := At0(s.log.arrivals, h) + [a]]);
      var s1 := s.(sems := s.sems[h := s.sems[h].(count := n)]);
      if n < 0
      then Plan(s1.(log := g), NoWake, Block(SemPassed(h)))
      else Plan(s1.(log := g.(passed := g.passed[h := At0(g.passed, h) + [a]])), NoWake, Ret(0))
  }

  function ResumeArea(c: Cont): Area {
    match c
    case ScanDead(_) => KinArea
    case RetryAcquire(_, _, _) => LockArea
    case CvarBlocked(_, _, _) => LockArea
    case RetryRead(_, _, _, _) => PipeArea
    case TtyBusy(_, _, _) => TtyArea
    case TtySent(_, _, _) => TtyArea
    case _ => NoArea
  }

  function PlanResume(s: State): (p: Plan)
    ensures Within(s, p, ResumeArea(ContOf(s.k, s.k.active)))
  {
    match ContOf(s.k, s.k.active)
    case User => Plan(s, NoWake, Stay)
    case Asleep(_) => Plan(s, NoWake, Ret(0))
    case ScanDead(i) => PlanRescan(s, i)
    case RetryAcquire(h, id, seen) => PlanRetryAcquire(s, h, id, seen)
    case CvarBlocked(_, id, lockId) => PlanCvarWoken(s, id, lockId)
    case RetryRead(h, id, len, seen) => PlanRetryRead(s, h, id, len, seen)
    case SemPassed(_) => Plan(s, NoWake, Ret(0))
    case TtyBusy(t, remain, total) => PlanTtyLoop(s, t, remain, total)
    case TtySent(t, remain, total) => PlanTtyLoop(s, t, remain, total)
  }

  // ----- the machine --------------------------------------------------------

  predicate Sane(s: State) {
    InTable(s.k, s.k.active) && |s.family| == |s.k.pcbs| && |s.ttys| == NUM_TERMINALS
  }

  /** Kernel code is not preempted, so traps and system calls start in user mode.  Idle
      makes no system call.  The last four lines name what the C code does not survive:
      a full process table, terminal 4, and a semaphore that does not exist; and a
      transmission only completes on a terminal that has one in flight. */
  predicate Enabled(s: State, e: Event) {
    && Sane(s)
    && (e.Resume? <==> ContOf(s.k, s.k.active) != User)
    && (!e.Resume? && !e.Tick? && !e.Transmitted? ==> s.k.active != IDLE)
    && (e.Fork? ==> |s.k.pcbs| < MAX_PROC)
    && (e.TtyWrite? ==> e.tty != NUM_TERMINALS)
    && (e.SemSignal? || e.SemWait? ==> FindSem(s.sems, e.id, 0).Some?)
    && (e.Transmitted? ==> 0 <= e.tty < NUM_TERMINALS && s.ttys[e.tty].line != [])
    && (e.PipeWrite? ==> |e.data| == if e.len < 0 then 0 else e.len)
  }

  function AreaOf(s: State, e: Event): Area {
    match e
    case Fork | Exit(_) | Wait => KinArea
    case TtyWrite(_, _) | Transmitted(_) => TtyArea
    case PipeInit | PipeRead(_, _) | PipeWrite(_, _, _) => PipeArea
    case LockInit | Acquire(_) | Release(_) | CvarWait(_, _) => LockArea
    case Reclaim(_) => ReclaimArea
    case SemInit | SemSignal(_) | SemWait(_) => SemArea
    case Resume => ResumeArea(ContOf(s.k, s.k.active))
    case Delay(_) | CvarInit | CvarSignal(_) | CvarBroadcast(_) | Tick => NoArea
  }

  function PlanOf(s: State, e: Event): (p: Plan)
    requires Enabled(s, e)
  {
    match e
    case Fork => PlanFork(s)
    case Exit(status) => PlanExit(s, status)
    case Wait => PlanWait(s)
    case Delay(ticks) => PlanDelay(s, ticks)
    case TtyWrite(t, len) => PlanTtyWrite(s, t, len)
    case PipeInit => PlanPipeInit(s)
    case PipeRead(id, len) => PlanPipeRead(s, id, len)
    case PipeWrite(id, len, data) => PlanPipeWrite(s, id, len, data)
    case LockInit => PlanLockInit(s)
    case Acquire(id) => PlanAcquire(s, id)
    case Release(id) => PlanRelease(s, id)
    case CvarInit => PlanCvarInit(s)
    case CvarSignal(id) => PlanCvarSignal(s, id)
    case CvarBroadcast(id) => PlanCvarBroadcast(s, id)
    case CvarWait(id, lockId) => PlanCvarWait(s, id, lockId)
    case Reclaim(id) => PlanReclaim(s, id)
    case SemInit => PlanSemInit(s)
    case SemSignal(id) => PlanSemSignal(s, id)
    case SemWait(id) => PlanSemWait(s, id)
    case Tick => Plan(s, Expire, Preempt)
    case Transmitted(t) => PlanTransmitted(s, t)
    case Resume => PlanResume(s)
  }

  function Step(s: State, e: Event): State
    requires Enabled(s, e)
  {
    var p := PlanOf(s, e);
    p.next.(k := Move(s.k, p.wake, p.fin))
  }

  /** The state `KernelStart` leaves: init (pid 0) running, idle (pid 1) ready, nothing else. */
  function Boot(): State {
    State(
      Sched(0, [IDLE], map[], [Pcb(true, User, 0), Pcb(true, User, 0)]),
      [Kin(NOBODY, []), Kin(NOBODY, [])],
      [], [], [], [], [], 0, [],
      seq(NUM_TERMINALS, _ => Tty(false, [])),
      Log(map[], map[], map[], map[], map[], map[], map[], [], []))
  }

  datatype Trace = Trace(states: seq<State>, events: seq<Event>)

  ghost predicate IsRun(r: Trace) {
    && |r.states| == |r.events| + 1
    && r.states[0] == Boot()
    && forall i :: 0 <= i < |r.events| ==>
         Enabled(r.states[i], r.events[i]) && r.states[i + 1] == Step(r.states[i], r.events[i])
  }

  /** A run of the kernel from boot: any number of steps, in any order the guards allow. */
  type Run = r: Trace | IsRun(r) ghost witness Trace([Boot()], [])
}
