/**
 The ready queue with its idle rotation is a plain FIFO of the other processes with
 idle as the fallback, and the sleep list delivers a sleeper on its last tick.
 */
module ReadyQueue {
  import opened Scheduler

  // ----- the plain FIFO -----------------------------------------------------

  datatype Fifo = Fifo(running: int, queue: seq<int>)

  /** The kernel had somebody to switch to, so this move is a scheduling decision. */
  predicate Decides(k: Sched, w: Wake, f: Fin) {
    f.Block? || f.Die? || (f.Preempt? && WakeUp(k, w).ready != [])
  }

  function Take(q: seq<int>): Fifo {
    if q == [] then Fifo(IDLE, []) else Fifo(q[0], q[1..])
  }

  /** One move of the FIFO: arrivals join the tail, a preempted process joins behind
      them, and a decision takes the head, or idle when there is none. */
  function FifoMove(a: Fifo, arrivals: seq<int>, preempted: bool, decides: bool): Fifo {
    if !decides then Fifo(a.running, a.queue + arrivals) else
    Take(a.queue + arrivals + (if preempted && a.running != IDLE then [a.running] else []))
  }

  function NonIdle(s: seq<int>): seq<int> {
    if s == [] then [] else (if s[0] == IDLE then [] else [s[0]]) + NonIdle(s[1..])
  }

  function Abs(k: Sched): Fifo {
    Fifo(k.active, NonIdle(k.ready))
  }

  lemma {:induction false} NonIdleAppend(a: seq<int>, b: seq<int>)
    ensures NonIdle(a + b) == NonIdle(a) + NonIdle(b)
  {
    if a == [] {
      assert a + b == b;
    } else {
      NonIdleAppend(a[1..], b);
      assert (a + b)[0] == a[0] && (a + b)[1..] == a[1..] + b;
      NonIdleStep(a + b);
      NonIdleStep(a);
    }
  }

  lemma NonIdleStep(s: seq<int>)
    requires s != []
    ensures s[0] == IDLE ==> NonIdle(s) == NonIdle(s[1..])
    ensures s[0] != IDLE ==> NonIdle(s) == [s[0]] + NonIdle(s[1..])
  {
  }

  lemma {:induction false} NonIdleSame(a: seq<int>)
    requires IDLE !in a
    ensures NonIdle(a) == a
  {
    if a != [] {
      NonIdleSame(a[1..]);
    }
  }

  lemma {:induction false} NonIdleMember(s: seq<int>, p: int)
    ensures p in NonIdle(s) <==> p in s && p != IDLE
  {
    if s != [] {
      NonIdleMember(s[1..], p);
      assert s == [s[0]] + s[1..];
    }
  }

  lemma DispatchTakes(k: Sched)
    requires k.ready != [] && NoDup(k.ready)
    ensures Abs(Dispatch(k)) == Take(NonIdle(k.ready))
  {
    var t := k.ready[1..];
    NonIdleStep(k.ready);
    if k.ready[0] == IDLE {
      NonIdleSame(t);
      if t == [] {
        assert t + [IDLE] == [IDLE];
      } else {
        assert (t + [IDLE])[0] == t[0] && (t + [IDLE])[1..] == t[1..] + [IDLE];
        NonIdleAppend(t[1..], [IDLE]);
        NonIdleSame(t[1..]);
        assert NonIdle([IDLE]) == [];
      }
    }
  }

  /** What joins the queue during a move without a decision. */
  function Arrivals(k: Sched, w: Wake, f: Fin): seq<int> {
    Woken(k, w) + (if f.Spawn? then [|k.pcbs|] else [])
  }

  /** The queue a decision is taken from. */
  lemma FinishRefines(k: Sched, f: Fin)
    requires SchedInv(k) && MoveOk(k, f)
    ensures Abs(Finish(k, f)) ==
            FifoMove(Abs(k), if f.Spawn? then [|k.pcbs|] else [], f.Preempt?, Decides(k, NoWake, f))
  {
    IdleRunnable(k);
    match f
    case Block(c) =>
      DispatchTakes(k.(pcbs := k.pcbs[k.active := k.pcbs[k.active].(cont := c)],
                       lists := k.lists[ChanOf(c) := Q(k, ChanOf(c)) + [k.active]]));
      assert Abs(k).queue + [] + [] == Abs(k).queue;
    case Die =>
      DispatchTakes(k.(pcbs := k.pcbs[k.active := k.pcbs[k.active].(alive := false)], active := NOBODY));
      assert Abs(k).queue + [] + [] == Abs(k).queue;
    case Preempt =>
      if k.ready != [] {
        assert k.active in k.ready ==> ReadyRight(k, k.active);
        NoDupAppend(k.ready, [k.active]);
        NonIdleAppend(k.ready, [k.active]);
        NonIdleStep([k.active]);
        DispatchTakes(k.(ready := k.ready + [k.active]));
        assert Abs(k).queue + [] == Abs(k).queue;
      }
    case Spawn =>
      NonIdleAppend(k.ready, [|k.pcbs|]);
      NonIdleStep([|k.pcbs|]);
    case _ =>
  }

  /** The rotation refines the FIFO: every move of the kernel's queue is a FIFO move. */
  lemma RefinesFifo(k: Sched, w: Wake, f: Fin)
    requires SchedInv(k) && MoveOk(k, f)
    ensures Abs(Move(k, w, f)) == FifoMove(Abs(k), Arrivals(k, w, f), f.Preempt?, Decides(k, w, f))
  {
    var m := WakeUp(k, w);
    var woken := Woken(k, w);
    WakeKeeps(k, w);
    WokenJoin(k, w);
    NonIdleAppend(k.ready, woken);
    NonIdleSame(woken);
    FinishRefines(m, f);
    assert Abs(m) == Fifo(k.active, NonIdle(k.ready) + woken);
    assert |m.pcbs| == |k.pcbs|;
    FifoAssoc(Abs(k), woken, if f.Spawn? then [|k.pcbs|] else [], f.Preempt?, Decides(k, w, f));
  }

  lemma FifoAssoc(a: Fifo, x: seq<int>, y: seq<int>, preempted: bool, decides: bool)
    ensures FifoMove(Fifo(a.running, a.queue + x), y, preempted, decides) ==
            FifoMove(a, x + y, preempted, decides)
  {
    assert a.queue + x + y == a.queue + (x + y);
  }

  /** Idle is dispatched only when no other process could be. */
  lemma IdleIsFallback(k: Sched, w: Wake, f: Fin, p: int)
    requires SchedInv(k) && MoveOk(k, f) && Decides(k, w, f) && Move(k, w, f).active == IDLE
    ensures p in WakeUp(k, w).ready ==> p == IDLE
    ensures f.Preempt? ==> k.active == IDLE
  {
    RefinesFifo(k, w, f);
    WokenJoin(k, w);
    NonIdleAppend(k.ready, Woken(k, w));
    NonIdleSame(Woken(k, w));
    NonIdleMember(WakeUp(k, w).ready, p);
    NonIdleMember(k.ready, IDLE);
  }

  // ----- runs of moves ------------------------------------------------------

  datatype Mv = Mv(wake: Wake, fin: Fin)

  ghost predicate MoveRun(ks: seq<Sched>, ms: seq<Mv>) {
    && |ks| == |ms| + 1
    && SchedInv(ks[0])
    && forall i :: 0 <= i < |ms| ==> MoveOk(ks[i], ms[i].fin) && ks[i + 1] == Move(ks[i], ms[i].wake, ms[i].fin)
  }

  /** How many of the first n moves were scheduling decisions. */
  ghost function Decisions(ks: seq<Sched>, ms: seq<Mv>, n: nat): nat
    requires n <= |ms| < |ks|
  {
    if n == 0 then 0 else
    Decisions(ks, ms, n - 1) + (if Decides(ks[n - 1], ms[n - 1].wake, ms[n - 1].fin) then 1 else 0)
  }

  lemma {:induction false} RunKeeps(ks: seq<Sched>, ms: seq<Mv>, n: nat)
    requires MoveRun(ks, ms) && n <= |ms|
    ensures SchedInv(ks[n])
  {
    if n > 0 {
      RunKeeps(ks, ms, n - 1);
      MoveKeeps(ks[n - 1], ms[n - 1].wake, ms[n - 1].fin);
    }
  }

  /** In the FIFO itself: a decision moves the process at place i up by one. */
  lemma FifoKeepsPlace(a: Fifo, arrivals: seq<int>, preempted: bool, decides: bool, p: int, i: nat)
    requires i < |a.queue| && a.queue[i] == p
    ensures var b := FifoMove(a, arrivals, preempted, decides);
            if !decides then i < |b.queue| && b.queue[i] == p
            else if i == 0 then b.running == p
            else i - 1 < |b.queue| && b.queue[i - 1] == p
  {
  }

  /** A ready process with j others ahead of it keeps its turn: until j decisions have
      been made it only moves up, one place a decision ... */
  lemma {:induction false} MovesUp(ks: seq<Sched>, ms: seq<Mv>, p: int, j: nat, n: nat)
    requires MoveRun(ks, ms) && n <= |ms|
    requires j < |NonIdle(ks[0].ready)| && NonIdle(ks[0].ready)[j] == p
    requires Decisions(ks, ms, n) <= j
    ensures j - Decisions(ks, ms, n) < |NonIdle(ks[n].ready)|
    ensures NonIdle(ks[n].ready)[j - Decisions(ks, ms, n)] == p
  {
    hide Move, Decides, SchedInv, MoveOk, FifoMove, NonIdle;
    if n > 0 {
      MovesUp(ks, ms, p, j, n - 1);
      RunKeeps(ks, ms, n - 1);
      var k, w, f := ks[n - 1], ms[n - 1].wake, ms[n - 1].fin;
      RefinesFifo(k, w, f);
      FifoKeepsPlace(Abs(k), Arrivals(k, w, f), f.Preempt?, Decides(k, w, f), p, j - Decisions(ks, ms, n - 1));
    }
  }

  /** ... and the decision after those dispatches it, whatever mix of ticks and blocking calls occurred. */
  lemma TurnComes(ks: seq<Sched>, ms: seq<Mv>, p: int, j: nat, n: nat)
    requires MoveRun(ks, ms) && n < |ms|
    requires j < |NonIdle(ks[0].ready)| && NonIdle(ks[0].ready)[j] == p
    requires Decisions(ks, ms, n) == j && Decides(ks[n], ms[n].wake, ms[n].fin)
    ensures ks[n + 1].active == p
  {
    MovesUp(ks, ms, p, j, n);
    RunKeeps(ks, ms, n);
    var k, w, f := ks[n], ms[n].wake, ms[n].fin;
    RefinesFifo(k, w, f);
    FifoKeepsPlace(Abs(k), Arrivals(k, w, f), f.Preempt?, true, p, 0);
  }

  // ----- the sleep list -----------------------------------------------------

  /** Nothing but the clock takes a process off the sleep list. */
  predicate SparesSleepers(w: Wake) {
    (w.Heads? || w.At?) ==> w.chan != SleepQ
  }

  ghost predicate Sleeping(k: Sched, p: int, n: int) {
    p in Q(k, SleepQ) && ContOf(k, p) == Asleep(n)
  }

  /** One step in the life of a sleeper with n ticks left. */
  lemma SleeperStep(k: Sched, w: Wake, f: Fin, p: int, n: int)
    requires SchedInv(k) && MoveOk(k, f) && SparesSleepers(w) && Sleeping(k, p, n)
    ensures w != Expire ==> Sleeping(Move(k, w, f), p, n)
    ensures w == Expire && n > 1 ==> Sleeping(Move(k, w, f), p, n - 1)
    ensures w == Expire && n <= 1 ==> Runnable(Move(k, w, f), p)
  {
    assert WaitsFor(k, SleepQ, p);
    assert NoDup(Q(k, SleepQ));
    SplitSleepers(Q(k, SleepQ), k.pcbs);
    MoveOthers(k, w, f, p);
    MoveLists(k, w, f, SleepQ);
    WakeKeeps(k, w);
    var m := WakeUp(k, w);
    if w == Expire && n > 1 {
      assert ContOf(m, p) == Asleep(n - 1);
      assert p in Q(Move(k, w, f), SleepQ);
      MoveOthers(m, NoWake, f, p);
      assert Move(m, NoWake, f) == Move(k, w, f);
    }
  }

  /** The sleepers whose time has come are taken from the sleep list one by one and in order, and so are those that stay. */
  lemma {:induction false} SleepersInOrder(q: seq<int>, i: nat, pcbs: seq<Pcb>)
    requires i <= |q|
    ensures DueOf(q, pcbs) == DueOf(q[..i], pcbs) + DueOf(q[i..], pcbs)
    ensures StillOf(q, pcbs) == StillOf(q[..i], pcbs) + StillOf(q[i..], pcbs)
    ensures |q| == 1 ==> DueOf(q, pcbs) == (if Due(pcbs, q[0]) then q else []) && StillOf(q, pcbs) == (if Due(pcbs, q[0]) then [] else q)
  {
    if i > 0 {
      SleepersInOrder(q[1..], i - 1, pcbs);
      assert q[1..][..i - 1] == q[..i][1..] && q[1..][i - 1..] == q[i..];
    } else {
      assert q[0..] == q;
    }
    if |q| == 1 {
      assert q == [q[0]] && q[1..] == [];
    }
  }
}
