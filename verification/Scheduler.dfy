/**
 The scheduling protocol of the kernel: who is running, the ready queue with its
 idle rotation, and one wait list per thing a process can block on.

 A kernel step touches this state in two moves only: it first moves some blocked
 processes to the tail of the ready queue (`Wake`), and then finishes (`Fin`) by
 returning to user mode, blocking, forking, exiting or being preempted.
 */
module Scheduler {

  const IDLE: int := 1
  const NOBODY: int := -1

  /** What a wait list belongs to.  Objects are named by their allocation index. */
  datatype Chan =
    | SleepQ
    | WaitQ
    | IoQ
    | LockQ(lock: nat)
    | CvarQ(cvar: nat)
    | PipeQ(pipe: nat)
    | SemQ(sem: nat)

  /** Where a process stands inside the kernel.  `User` is user mode; every other
      tag is the point after a `normal_schedule` call to which it will return. */
  datatype Cont =
    | User
    | Asleep(ticks: int)
    | ScanDead(index: int)
    | RetryAcquire(lock: nat, lockId: int, seen: bool)
    | CvarBlocked(cvar: nat, cvarId: int, lockId: int)
    | RetryRead(pipe: nat, pipeId: int, len: int, seen: bool)
    | SemPassed(sem: nat)
    | TtyBusy(tty: nat, remain: int, total: int)
    | TtySent(tty: nat, remain: int, total: int)

  function ChanOf(c: Cont): Chan
    requires c != User
  {
    match c
    case Asleep(_) => SleepQ
    case ScanDead(_) => WaitQ
    case RetryAcquire(h, _, _) => LockQ(h)
    case CvarBlocked(h, _, _) => CvarQ(h)
    case RetryRead(h, _, _, _) => PipeQ(h)
    case SemPassed(h) => SemQ(h)
    case TtyBusy(_, _, _) => IoQ
    case TtySent(_, _, _) => IoQ
  }

  /** `ret` is the value the last finished system call left in register 0. */
  datatype Pcb = Pcb(alive: bool, cont: Cont, ret: int)

  datatype Sched = Sched(active: int, ready: seq<int>, lists: map<Chan, seq<int>>, pcbs: seq<Pcb>)

  function Q(k: Sched, c: Chan): seq<int> {
    if c in k.lists then k.lists[c] else []
  }

  predicate InTable(k: Sched, p: int) {
    0 <= p < |k.pcbs|
  }

  predicate Alive(k: Sched, p: int) {
    InTable(k, p) && k.pcbs[p].alive
  }

  predicate Runnable(k: Sched, p: int) {
    p == k.active || p in k.ready
  }

  function ContOf(k: Sched, p: int): Cont {
    if InTable(k, p) then k.pcbs[p].cont else User
  }

  datatype Wake =
    | NoWake
    | Heads(chan: Chan, count: nat)  // the first `count` waiters, in order
    | At(chan: Chan, index: nat)     // one waiter out of the middle
    | Expire                         // one clock tick on the sleep list

  datatype Fin =
    | Ret(value: int)
    | Block(cont: Cont)
    | Spawn
    | Die
    | Preempt
    | Stay

  function Min(a: nat, b: nat): nat {
    if a <= b then a else b
  }

  // ----- the sleep list ---------------------------------------------------

  predicate Due(pcbs: seq<Pcb>, p: int) {
    0 <= p < |pcbs| && pcbs[p].cont.Asleep? && pcbs[p].cont.ticks <= 1
  }

  /** The sleepers whose last tick this is, in list order. */
  function DueOf(q: seq<int>, pcbs: seq<Pcb>): seq<int> {
    if q == [] then [] else (if Due(pcbs, q[0]) then [q[0]] else []) + DueOf(q[1..], pcbs)
  }

  /** The sleepers that sleep on, in list order. */
  function StillOf(q: seq<int>, pcbs: seq<Pcb>): seq<int> {
    if q == [] then [] else (if Due(pcbs, q[0]) then [] else [q[0]]) + StillOf(q[1..], pcbs)
  }

  function Ticked(x: Pcb): Pcb {
    if x.cont.Asleep? then x.(cont := Asleep(x.cont.ticks - 1)) else x
  }

  function TickAll(pcbs: seq<Pcb>, q: seq<int>): seq<Pcb> {
    seq(|pcbs|, i requires 0 <= i < |pcbs| => if i in q then Ticked(pcbs[i]) else pcbs[i])
  }

  // ----- the two moves ----------------------------------------------------

  function WakeUp(k: Sched, w: Wake): Sched {
    match w
    case NoWake => k
    case Heads(c, n) =>
      var m := Min(n, |Q(k, c)|);
      k.(ready := k.ready + Q(k, c)[..m], lists := k.lists[c := Q(k, c)[m..]])
    case At(c, i) =>
      if i >= |Q(k, c)| then k else
      k.(ready := k.ready + [Q(k, c)[i]], lists := k.lists[c := Q(k, c)[..i] + Q(k, c)[i + 1..]])
    case Expire =>
      var q := Q(k, SleepQ);
      k.(ready := k.ready + DueOf(q, k.pcbs),
         lists := k.lists[SleepQ := StillOf(q, k.pcbs)],
         pcbs := TickAll(k.pcbs, q))
  }

  /** Take the head of the ready queue; if it is idle, rotate it to the tail and
      take the new head.  With an empty queue nobody is switched to. */
  function Dispatch(k: Sched): Sched {
    if k.ready == [] then k else
    var r := Rotated(k.ready);
    k.(active := r[0], ready := r[1..])
  }

  function Rotated(ready: seq<int>): (r: seq<int>)
    requires ready != []
    ensures |r| == |ready|
  {
    if ready[0] == IDLE then ready[1..] + [IDLE] else ready
  }

  function Finish(k: Sched, f: Fin): Sched
    requires InTable(k, k.active)
  {
    match f
    case Ret(v) => k.(pcbs := k.pcbs[k.active := k.pcbs[k.active].(cont := User, ret := v)])
    case Block(c) =>
      if c == User then k else
      Dispatch(k.(pcbs := k.pcbs[k.active := k.pcbs[k.active].(cont := c)],
                  lists := k.lists[ChanOf(c) := Q(k, ChanOf(c)) + [k.active]]))
    case Spawn =>
      // the child returns 0, the parent the child's pid
      k.(pcbs := k.pcbs[k.active := k.pcbs[k.active].(cont := User, ret := |k.pcbs|)] + [Pcb(true, User, 0)],
         ready := k.ready + [|k.pcbs|])
    case Die =>
      Dispatch(k.(pcbs := k.pcbs[k.active := k.pcbs[k.active].(alive := false)], active := NOBODY))
    case Preempt =>
      if k.ready == [] then k else Dispatch(k.(ready := k.ready + [k.active]))
    case Stay => k
  }

  function Move(k: Sched, w: Wake, f: Fin): Sched
    requires InTable(k, k.active)
  {
    Finish(WakeUp(k, w), f)
  }

  /** Idle neither blocks nor exits, and a blocking process goes to a wait list. */
  predicate MoveOk(k: Sched, f: Fin) {
    && InTable(k, k.active)
    && (f.Block? ==> k.active != IDLE && f.cont != User)
    && (f.Die? ==> k.active != IDLE)
  }

  // ----- every live process is in exactly one place, exactly once ----------

  ghost predicate NoDup(s: seq<int>) {
    forall i, j :: 0 <= i < j < |s| ==> s[i] != s[j]
  }

  /** p sits in the wait list of c rightly: alive, not running, and c is what its kernel position names. */
  ghost predicate WaitsFor(k: Sched, c: Chan, p: int) {
    && Alive(k, p) && p != k.active && p !in k.ready
    && ContOf(k, p) != User && ChanOf(ContOf(k, p)) == c
  }

  ghost predicate ReadyRight(k: Sched, p: int) {
    Alive(k, p) && p != k.active
  }

  ghost predicate HasPlace(k: Sched, p: int) {
    p == k.active || p in k.ready || (ContOf(k, p) != User && p in Q(k, ChanOf(ContOf(k, p))))
  }

  /** Nobody is in two places or twice in one, and nobody alive is in none;
      `k.active == NOBODY` is allowed here, between an exit and the dispatch that follows. */
  ghost predicate Seated(k: Sched) {
    && NoDup(k.ready)
    && (forall p :: p in k.ready ==> ReadyRight(k, p))
    && (forall c :: NoDup(Q(k, c)))
    && (forall c, p {:trigger p in Q(k, c)} :: p in Q(k, c) ==> WaitsFor(k, c, p))
    && (forall p :: Alive(k, p) ==> HasPlace(k, p))
  }

  /** Every live process is the active one, or once in the ready queue, or once in
      the wait list its kernel position names, and in no other place. */
  ghost predicate OnePlace(k: Sched) {
    Seated(k) && Alive(k, k.active)
  }

  ghost predicate IdleLive(k: Sched) {
    Alive(k, IDLE) && ContOf(k, IDLE) == User
  }

  ghost predicate SchedInv(k: Sched) {
    OnePlace(k) && IdleLive(k)
  }

  /** Idle is always active or ready, so a non-idle process always leaves somebody to switch to. */
  lemma IdleRunnable(k: Sched)
    requires SchedInv(k)
    ensures Runnable(k, IDLE)
    ensures k.active != IDLE ==> k.ready != []
    ensures forall c :: IDLE !in Q(k, c)
  {
    assert HasPlace(k, IDLE);
    forall c ensures IDLE !in Q(k, c) {
      assert IDLE in Q(k, c) ==> WaitsFor(k, c, IDLE);
    }
  }

  /** The reading of `OnePlace` that names two places: no process is in two of them, or twice in one. */
  lemma PlacesDisjoint(k: Sched, c: Chan, d: Chan, p: int)
    requires OnePlace(k) && p in Q(k, c)
    ensures c != d ==> p !in Q(k, d)
    ensures !Runnable(k, p) && multiset(Q(k, c))[p] == 1
  {
    assert WaitsFor(k, c, p);
    assert p in Q(k, d) ==> WaitsFor(k, d, p);
    assert NoDup(Q(k, c));
    CountOnce(Q(k, c), p);
  }

  lemma {:induction false} CountOnce(s: seq<int>, p: int)
    requires NoDup(s)
    ensures multiset(s)[p] == if p in s then 1 else 0
  {
    if s != [] {
      var t := s[..|s| - 1];
      assert s == t + [s[|s| - 1]];
      CountOnce(t, p);
    }
  }

  lemma NoDupAppend(a: seq<int>, b: seq<int>)
    requires NoDup(a) && NoDup(b) && forall p :: p in a ==> p !in b
    ensures NoDup(a + b)
  {
    forall i, j | 0 <= i < j < |a + b| ensures (a + b)[i] != (a + b)[j] {
      if i < |a| <= j {
        assert a[i] in a && b[j - |a|] in b;
      }
    }
  }

  /** Moving some waiters of one list to the ready queue keeps everybody seated. */
  lemma TransferKeeps(k: Sched, c: Chan, out: seq<int>, rest: seq<int>, k': Sched)
    requires SchedInv(k)
    requires NoDup(out) && NoDup(rest) && (forall p :: p in out ==> p !in rest)
    requires forall p :: p in Q(k, c) <==> p in out || p in rest
    requires k'.active == k.active && k'.ready == k.ready + out && k'.lists == k.lists[c := rest]
    requires |k'.pcbs| == |k.pcbs|
    requires forall p :: 0 <= p < |k.pcbs| ==> k'.pcbs[p].alive == k.pcbs[p].alive
    requires forall p :: 0 <= p < |k.pcbs| ==>
               k'.pcbs[p].cont == k.pcbs[p].cont ||
               (k'.pcbs[p].cont != User && k.pcbs[p].cont != User && ChanOf(k'.pcbs[p].cont) == ChanOf(k.pcbs[p].cont))
    ensures SchedInv(k')
  {
    forall p | p in out ensures p !in k.ready {
      assert WaitsFor(k, c, p);
    }
    assert forall p :: p in k.ready ==> p !in out;
    NoDupAppend(k.ready, out);
    forall p | p in k'.ready ensures ReadyRight(k', p) {
      if p in k.ready {
        assert ReadyRight(k, p);
      } else {
        assert WaitsFor(k, c, p);
      }
    }
    forall d ensures NoDup(Q(k', d)) {
      assert NoDup(Q(k, d));
    }
    forall d, p | p in Q(k', d) ensures WaitsFor(k', d, p) {
      assert p in Q(k, d);
      assert WaitsFor(k, d, p);
      assert p in out ==> p in Q(k, c) && WaitsFor(k, c, p);
    }
    forall p | Alive(k', p) ensures HasPlace(k', p) {
      assert Alive(k, p);
      assert HasPlace(k, p);
    }
  }

  lemma {:induction false} SplitSleepers(q: seq<int>, pcbs: seq<Pcb>)
    requires NoDup(q)
    ensures NoDup(DueOf(q, pcbs)) && NoDup(StillOf(q, pcbs))
    ensures forall p :: p in DueOf(q, pcbs) <==> p in q && Due(pcbs, p)
    ensures forall p :: p in StillOf(q, pcbs) <==> p in q && !Due(pcbs, p)
  {
    if q != [] {
      SplitSleepers(q[1..], pcbs);
      assert q == [q[0]] + q[1..];
      assert q[0] !in q[1..];
    }
  }

  lemma WakeHeadsKeeps(k: Sched, c: Chan, n: nat)
    requires SchedInv(k)
    ensures SchedInv(WakeUp(k, Heads(c, n)))
  {
    hide SchedInv;
    ListNoDup(k, c);
    var q := Q(k, c);
    var m := Min(n, |q|);
    assert q == q[..m] + q[m..];
    TransferKeeps(k, c, q[..m], q[m..], WakeUp(k, Heads(c, n)));
  }

  lemma WakeAtKeeps(k: Sched, c: Chan, i: nat)
    requires SchedInv(k)
    ensures SchedInv(WakeUp(k, At(c, i)))
  {
    hide SchedInv;
    ListNoDup(k, c);
    var q := Q(k, c);
    if i < |q| {
      assert q == q[..i] + [q[i]] + q[i + 1..];
      TransferKeeps(k, c, [q[i]], q[..i] + q[i + 1..], WakeUp(k, At(c, i)));
    }
  }

  lemma ExpireKeeps(k: Sched)
    requires SchedInv(k)
    ensures SchedInv(WakeUp(k, Expire))
  {
    hide SchedInv;
    ListNoDup(k, SleepQ);
    var q := Q(k, SleepQ);
    SplitSleepers(q, k.pcbs);
    TransferKeeps(k, SleepQ, DueOf(q, k.pcbs), StillOf(q, k.pcbs), WakeUp(k, Expire));
  }

  lemma ListNoDup(k: Sched, c: Chan)
    requires SchedInv(k)
    ensures NoDup(Q(k, c))
  {
  }

  lemma WakeKeeps(k: Sched, w: Wake)
    requires SchedInv(k)
    ensures SchedInv(WakeUp(k, w)) && WakeUp(k, w).active == k.active
  {
    hide SchedInv;
    match w
    case NoWake =>
    case Heads(c, n) => WakeHeadsKeeps(k, c, n);
    case At(c, i) => WakeAtKeeps(k, c, i);
    case Expire => ExpireKeeps(k);
  }

  lemma RotatedSame(ready: seq<int>, p: int)
    requires ready != []
    ensures p in ready <==> p == Rotated(ready)[0] || p in Rotated(ready)[1..]
  {
    var r := Rotated(ready);
    assert ready == [ready[0]] + ready[1..];
    assert p in ready <==> p in r;
    assert r == [r[0]] + r[1..];
  }

  lemma RotatedNoDup(ready: seq<int>)
    requires ready != [] && NoDup(ready)
    ensures NoDup(Rotated(ready)[1..]) && Rotated(ready)[0] !in Rotated(ready)[1..]
  {
    var r, t := Rotated(ready), ready[1..];
    assert NoDup(t) && ready[0] !in t;
    if ready[0] == IDLE {
      NoDupAppend(t, [IDLE]);
    }
    assert NoDup(r);
    assert forall i :: 0 <= i < |r[1..]| ==> r[1..][i] == r[i + 1];
  }

  lemma DispatchFills(k: Sched)
    requires Seated(k) && k.ready != [] && (forall p :: Alive(k, p) ==> p != k.active)
    ensures OnePlace(Dispatch(k)) && Dispatch(k).active in k.ready
  {
    var k' := Dispatch(k);
    var a := k'.active;
    RotatedNoDup(k.ready);
    RotatedSame(k.ready, a);
    assert ReadyRight(k, a);
    forall p | p in k'.ready ensures ReadyRight(k', p) {
      RotatedSame(k.ready, p);
      assert ReadyRight(k, p);
    }
    forall c ensures NoDup(Q(k', c)) {
      assert NoDup(Q(k, c));
    }
    forall c, p | p in Q(k', c) ensures WaitsFor(k', c, p) {
      assert p in Q(k, c) && WaitsFor(k, c, p);
      RotatedSame(k.ready, p);
    }
    forall p | Alive(k', p) ensures HasPlace(k', p) {
      assert Alive(k, p) && HasPlace(k, p);
      RotatedSame(k.ready, p);
    }
  }

  lemma BlockKeeps(k: Sched, c: Cont)
    requires SchedInv(k) && k.active != IDLE && c != User
    ensures SchedInv(Finish(k, Block(c)))
    ensures Finish(k, Block(c)).active in k.ready
  {
    var a := k.active;
    var d := ChanOf(c);
    var m := k.(pcbs := k.pcbs[a := k.pcbs[a].(cont := c)], lists := k.lists[d := Q(k, d) + [a]]);
    var n := m.(active := NOBODY);
    assert NoDup(Q(k, d));
    assert a in Q(k, d) ==> WaitsFor(k, d, a);
    assert a in k.ready ==> ReadyRight(k, a);
    NoDupAppend(Q(k, d), [a]);
    forall e ensures NoDup(Q(n, e)) {
      assert NoDup(Q(k, e));
    }
    forall p | p in n.ready ensures ReadyRight(n, p) {
      assert ReadyRight(k, p);
    }
    forall e, p | p in Q(n, e) ensures WaitsFor(n, e, p) {
      if p in Q(k, e) {
        assert WaitsFor(k, e, p);
      }
    }
    forall p | Alive(n, p) ensures HasPlace(n, p) {
      assert Alive(k, p) && HasPlace(k, p);
      assert a in Q(n, d);
    }
    IdleRunnable(k);
    DispatchFills(n);
    assert Finish(k, Block(c)) == Dispatch(n);
  }

  lemma DieKeeps(k: Sched)
    requires SchedInv(k) && k.active != IDLE
    ensures SchedInv(Finish(k, Die)) && !Alive(Finish(k, Die), k.active)
    ensures Finish(k, Die).active in k.ready
  {
    var a := k.active;
    var m := k.(pcbs := k.pcbs[a := k.pcbs[a].(alive := false)], active := NOBODY);
    forall e ensures NoDup(Q(m, e)) {
      assert NoDup(Q(k, e));
    }
    forall p | p in m.ready ensures ReadyRight(m, p) {
      assert ReadyRight(k, p);
    }
    forall e, p | p in Q(m, e) ensures WaitsFor(m, e, p) {
      assert p in Q(k, e) && WaitsFor(k, e, p);
    }
    forall p | Alive(m, p) ensures HasPlace(m, p) {
      assert Alive(k, p) && HasPlace(k, p);
    }
    IdleRunnable(k);
    DispatchFills(m);
  }

  lemma PreemptKeeps(k: Sched)
    requires SchedInv(k)
    ensures SchedInv(Finish(k, Preempt))
    ensures Runnable(k, Finish(k, Preempt).active)
  {
    if k.ready != [] {
      var m := k.(ready := k.ready + [k.active], active := NOBODY);
      assert k.active in k.ready ==> ReadyRight(k, k.active);
      NoDupAppend(k.ready, [k.active]);
      forall e ensures NoDup(Q(m, e)) {
        assert NoDup(Q(k, e));
      }
      forall p | p in m.ready ensures ReadyRight(m, p) {
        assert p in k.ready ==> ReadyRight(k, p);
      }
      forall e, p | p in Q(m, e) ensures WaitsFor(m, e, p) {
        assert p in Q(k, e) && WaitsFor(k, e, p);
      }
      forall p | Alive(m, p) ensures HasPlace(m, p) {
        assert Alive(k, p) && HasPlace(k, p);
      }
      DispatchFills(m);
      assert Finish(k, Preempt) == Dispatch(m);
    }
  }

  /** Returning to user mode, with or without a new child at the tail of the ready queue. */
  lemma ReturnKeeps(k: Sched, f: Fin)
    requires SchedInv(k) && (f.Ret? || f.Spawn?)
    ensures SchedInv(Finish(k, f))
  {
    var k' := Finish(k, f);
    var n := |k.pcbs|;
    assert n in k.ready ==> ReadyRight(k, n);
    NoDupAppend(k.ready, [n]);
    forall e ensures NoDup(Q(k', e)) {
      assert NoDup(Q(k, e));
    }
    forall p | p in k'.ready ensures ReadyRight(k', p) {
      assert p in k.ready ==> ReadyRight(k, p);
    }
    forall e, p | p in Q(k', e) ensures WaitsFor(k', e, p) {
      assert p in Q(k, e) && WaitsFor(k, e, p);
    }
    forall p | Alive(k', p) ensures HasPlace(k', p) {
      if p != n {
        assert Alive(k, p) && HasPlace(k, p);
      }
    }
  }

  /** The step lemma behind the run theorem: every move keeps every process in one place. */
  lemma MoveKeeps(k: Sched, w: Wake, f: Fin)
    requires SchedInv(k) && MoveOk(k, f)
    ensures SchedInv(Move(k, w, f))
  {
    WakeKeeps(k, w);
    var m := WakeUp(k, w);
    match f
    case Ret(v) => ReturnKeeps(m, f);
    case Block(c) => BlockKeeps(m, c);
    case Spawn => ReturnKeeps(m, f);
    case Die => DieKeeps(m);
    case Preempt => PreemptKeeps(m);
    case Stay =>
  }

  /** A blocking or exiting process is really switched away from: the branch of
      `normal_schedule` that finds the ready queue empty is never taken. */
  lemma BlockingSwitches(k: Sched, w: Wake, f: Fin)
    requires SchedInv(k) && MoveOk(k, f) && (f.Block? || f.Die?)
    ensures WakeUp(k, w).ready != [] && Move(k, w, f).active != k.active
  {
    WakeKeeps(k, w);
    var m := WakeUp(k, w);
    IdleRunnable(m);
    if f.Block? {
      BlockKeeps(m, f.cont);
    } else {
      DieKeeps(m);
    }
    assert ReadyRight(m, Move(k, w, f).active);
  }

  // ----- what a move leaves alone ------------------------------------------

  /** The processes a wake moves, in the order they join the ready queue. */
  function Woken(k: Sched, w: Wake): seq<int> {
    match w
    case NoWake => []
    case Heads(c, n) => Q(k, c)[..Min(n, |Q(k, c)|)]
    case At(c, i) => if i < |Q(k, c)| then [Q(k, c)[i]] else []
    case Expire => DueOf(Q(k, SleepQ), k.pcbs)
  }

  lemma WokenJoin(k: Sched, w: Wake)
    requires SchedInv(k)
    ensures WakeUp(k, w).ready == k.ready + Woken(k, w)
    ensures forall p :: p in Woken(k, w) ==> Alive(k, p) && p != IDLE && !Runnable(k, p)
  {
    IdleRunnable(k);
    var c := match w case Heads(c, _) => c case At(c, _) => c case _ => SleepQ;
    if w == Expire {
      assert NoDup(Q(k, SleepQ));
      SplitSleepers(Q(k, SleepQ), k.pcbs);
    }
    forall p | p in Woken(k, w) ensures Alive(k, p) && p != IDLE && !Runnable(k, p) {
      assert p in Q(k, c) && WaitsFor(k, c, p);
    }
  }

  lemma FinishLists(k: Sched, f: Fin, c: Chan)
    requires InTable(k, k.active)
    ensures Q(Finish(k, f), c) ==
            Q(k, c) + (if f.Block? && f.cont != User && ChanOf(f.cont) == c then [k.active] else [])
  {
    hide Rotated;
  }

  lemma WakeLists(k: Sched, w: Wake, c: Chan)
    ensures (w.Heads? || w.At?) && w.chan != c ==> Q(WakeUp(k, w), c) == Q(k, c)
    ensures w == NoWake || (w == Expire && c != SleepQ) ==> Q(WakeUp(k, w), c) == Q(k, c)
    ensures |WakeUp(k, w).pcbs| == |k.pcbs| && WakeUp(k, w).active == k.active
  {
    hide DueOf, StillOf;
  }

  /** A move changes only its own wait lists: the woken ones shrink, and a blocking
      process goes to the tail of the list its new position names. */
  lemma MoveLists(k: Sched, w: Wake, f: Fin, c: Chan)
    requires InTable(k, k.active)
    ensures Q(Move(k, w, f), c) ==
            Q(WakeUp(k, w), c) + (if f.Block? && f.cont != User && ChanOf(f.cont) == c then [k.active] else [])
    ensures (w.Heads? || w.At?) && w.chan != c ==> Q(WakeUp(k, w), c) == Q(k, c)
    ensures w == NoWake || (w == Expire && c != SleepQ) ==> Q(WakeUp(k, w), c) == Q(k, c)
  {
    hide WakeUp, Finish, Q;
    WakeLists(k, w, c);
    FinishLists(WakeUp(k, w), f, c);
  }

  /** Waking the first n waiters and returning: they leave their list and join the ready queue in order. */
  lemma HeadsMove(k: Sched, c: Chan, n: nat, v: int)
    requires InTable(k, k.active)
    ensures var q, m := Q(k, c), Min(n, |Q(k, c)|);
            && Q(Move(k, Heads(c, n), Ret(v)), c) == q[m..]
            && Move(k, Heads(c, n), Ret(v)).ready == k.ready + q[..m]
            && q == q[..m] + q[m..]
            && (n == 1 && q != [] ==> q[..m] == [q[0]])
            && (n >= |q| ==> q[..m] == q && q[m..] == [])
  {
  }

  lemma DispatchFrame(k: Sched, p: int)
    ensures Dispatch(k).pcbs == k.pcbs && Dispatch(k).lists == k.lists
    ensures p in k.ready ==> Runnable(Dispatch(k), p)
  {
    if k.ready != [] {
      RotatedSame(k.ready, p);
    }
  }

  lemma FinishOthers(k: Sched, f: Fin, p: int)
    requires MoveOk(k, f) && p != k.active
    ensures Alive(Finish(k, f), p) <==> Alive(k, p) || (f.Spawn? && p == |k.pcbs|)
    ensures ContOf(Finish(k, f), p) == ContOf(k, p)
    ensures p in k.ready ==> Runnable(Finish(k, f), p)
  {
    match f
    case Block(c) =>
      DispatchFrame(k.(pcbs := k.pcbs[k.active := k.pcbs[k.active].(cont := c)],
                       lists := k.lists[ChanOf(c) := Q(k, ChanOf(c)) + [k.active]]), p);
    case Die =>
      DispatchFrame(k.(pcbs := k.pcbs[k.active := k.pcbs[k.active].(alive := false)], active := NOBODY), p);
    case Preempt =>
      DispatchFrame(k.(ready := k.ready + [k.active]), p);
    case _ =>
  }

  /** Processes other than the active one are not disturbed by a move: a runnable one
      stays runnable at the same kernel position, and nobody dies or appears but the
      active process and its child. */
  lemma MoveOthers(k: Sched, w: Wake, f: Fin, p: int)
    requires SchedInv(k) && MoveOk(k, f) && p != k.active
    ensures Alive(Move(k, w, f), p) <==> Alive(k, p) || (f.Spawn? && p == |k.pcbs|)
    ensures Runnable(k, p) ==> Runnable(Move(k, w, f), p) && ContOf(Move(k, w, f), p) == ContOf(k, p)
    ensures w != Expire || p !in Q(k, SleepQ) ==> ContOf(Move(k, w, f), p) == ContOf(k, p)
    ensures p in Woken(k, w) ==> Runnable(Move(k, w, f), p)
    ensures ContOf(Move(k, w, f), p) == ContOf(k, p) || (ContOf(k, p).Asleep? && ContOf(Move(k, w, f), p).Asleep?)
  {
    WakeKeeps(k, w);
    WokenJoin(k, w);
    FinishOthers(WakeUp(k, w), f, p);
    if p in k.ready {
      assert ReadyRight(k, p);
      assert p in Q(k, SleepQ) ==> WaitsFor(k, SleepQ, p);
    }
  }

  /** Where a move leaves the process that made it. */
  lemma MoveSelf(k: Sched, w: Wake, f: Fin)
    requires SchedInv(k) && MoveOk(k, f)
    ensures Alive(Move(k, w, f), k.active) <==> !f.Die?
    ensures f.Ret? ==> Move(k, w, f).pcbs[k.active] == k.pcbs[k.active].(cont := User, ret := f.value)
    ensures f.Spawn? ==> ContOf(Move(k, w, f), k.active) == User && ContOf(Move(k, w, f), |k.pcbs|) == User
    ensures f.Block? ==> ContOf(Move(k, w, f), k.active) == f.cont
    ensures !f.Ret? && !f.Spawn? && !f.Block? ==> ContOf(Move(k, w, f), k.active) == ContOf(k, k.active)
    ensures !f.Block? && !f.Die? ==> Runnable(Move(k, w, f), k.active)
    ensures |Move(k, w, f).pcbs| == |k.pcbs| + (if f.Spawn? then 1 else 0)
  {
    WakeKeeps(k, w);
    var a := k.active;
    var m := WakeUp(k, w);
    if w == Expire {
      assert a in Q(k, SleepQ) ==> WaitsFor(k, SleepQ, a);
    }
    match f
    case Block(c) =>
      DispatchFrame(m.(pcbs := m.pcbs[a := m.pcbs[a].(cont := c)],
                       lists := m.lists[ChanOf(c) := Q(m, ChanOf(c)) + [a]]), a);
    case Die =>
      DispatchFrame(m.(pcbs := m.pcbs[a := m.pcbs[a].(alive := false)], active := NOBODY), a);
    case Preempt =>
      DispatchFrame(m.(ready := m.ready + [a]), a);
    case _ =>
  }
}
