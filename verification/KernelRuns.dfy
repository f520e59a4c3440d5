/**
 Scheduling over whole runs of the kernel: every process is always in exactly one place,
 blocking always switches, the ready queue is fair, and Delay wakes on the promised tick.
 */
module KernelRuns {
  import opened Scheduler
  import opened ReadyQueue
  import opened KernelSteps

  ghost predicate Core(s: State) {
    SchedInv(s.k) && |s.family| == |s.k.pcbs| && |s.ttys| == NUM_TERMINALS
  }

  lemma CoreBoot()
    ensures Core(Boot())
  {
    var k := Boot().k;
    forall p | Alive(k, p) ensures HasPlace(k, p) {
      assert k.ready == [IDLE];
      assert p == 0 || p == 1;
    }
    forall p | p in k.ready ensures ReadyRight(k, p) {
      assert p == IDLE;
    }
  }

  /** A state in which everybody has one place; every state of every run is one. */
  type Good = s: State | Core(s) ghost witness (CoreBoot(); Boot())

  /** s' is s after one move, whatever else changed. */
  ghost predicate Moved(s: State, w: Wake, f: Fin, s': State) {
    MoveOk(s.k, f) && s'.k == Move(s.k, w, f)
  }

  // The facts about one move that the object invariants use, without its definition.

  lemma Others(s: Good, w: Wake, f: Fin, p: int)
    requires MoveOk(s.k, f) && p != s.k.active
    ensures Alive(Move(s.k, w, f), p) <==> Alive(s.k, p) || (f.Spawn? && p == |s.k.pcbs|)
    ensures Runnable(s.k, p) ==> Runnable(Move(s.k, w, f), p) && ContOf(Move(s.k, w, f), p) == ContOf(s.k, p)
    ensures ContOf(Move(s.k, w, f), p) == ContOf(s.k, p) ||
            (ContOf(s.k, p).Asleep? && ContOf(Move(s.k, w, f), p).Asleep?)
    ensures p in Woken(s.k, w) ==> Runnable(Move(s.k, w, f), p)
  {
    MoveOthers(s.k, w, f, p);
  }

  lemma Self(s: Good, w: Wake, f: Fin)
    requires MoveOk(s.k, f)
    ensures Alive(Move(s.k, w, f), s.k.active) <==> !f.Die?
    ensures f.Ret? ==> ContOf(Move(s.k, w, f), s.k.active) == User
    ensures f.Spawn? ==> ContOf(Move(s.k, w, f), s.k.active) == User && ContOf(Move(s.k, w, f), |s.k.pcbs|) == User
    ensures f.Block? ==> ContOf(Move(s.k, w, f), s.k.active) == f.cont
    ensures !f.Ret? && !f.Spawn? && !f.Block? ==> ContOf(Move(s.k, w, f), s.k.active) == ContOf(s.k, s.k.active)
    ensures !f.Block? && !f.Die? ==> Runnable(Move(s.k, w, f), s.k.active)
    ensures |Move(s.k, w, f).pcbs| == |s.k.pcbs| + (if f.Spawn? then 1 else 0)
  {
    MoveSelf(s.k, w, f);
  }

  lemma ActiveAlive(s: Good)
    ensures Alive(s.k, s.k.active) && InTable(s.k, s.k.active)
    ensures ContOf(s.k, s.k.active) != User ==> s.k.active != IDLE
    ensures |s.family| == |s.k.pcbs| && |s.ttys| == NUM_TERMINALS
  {
  }

  lemma Waiter(s: Good, c: Chan, p: int)
    requires p in Q(s.k, c)
    ensures WaitsFor(s.k, c, p)
  {
  }

  /** The first waiter of a list whose head is woken becomes runnable. */
  lemma HeadWoken(s: Good, c: Chan, f: Fin)
    requires MoveOk(s.k, f) && Q(s.k, c) != []
    ensures WaitsFor(s.k, c, Q(s.k, c)[0])
    ensures Runnable(Move(s.k, Heads(c, 1), f), Q(s.k, c)[0])
    ensures ContOf(Move(s.k, Heads(c, 1), f), Q(s.k, c)[0]) == ContOf(s.k, Q(s.k, c)[0])
  {
    var p := Q(s.k, c)[0];
    assert p in Q(s.k, c);
    Waiter(s, c, p);
    assert p in Woken(s.k, Heads(c, 1));
    MoveOthers(s.k, Heads(c, 1), f, p);
  }

  /** What every plan has in common: it leaves the scheduler's state to the move it
      orders, and only the clock touches the sleep list. */
  ghost predicate PlanRegular(s: State, e: Event, p: Plan) {
    && p.next.k == s.k
    && MoveOk(s.k, p.fin)
    && |p.next.family| == |s.family| + (if p.fin.Spawn? then 1 else 0)
    && |p.next.ttys| == |s.ttys|
    && SparesSleepers(p.wake)
    && (p.wake == Expire <==> e.Tick?)
    && (p.fin.Die? <==> e.Exit?)
    && (p.fin.Spawn? <==> e.Fork?)
    && (p.fin.Preempt? <==> e.Tick?)
    && (p.fin.Stay? <==> e.Transmitted?)
    && (WakesNone(p.wake) || !p.wake.chan.CvarQ? || e.CvarSignal? || e.CvarBroadcast? || e.Reclaim?)
  }

  lemma PlanIsRegular(s: Good, e: Event)
    requires Enabled(s, e)
    ensures PlanRegular(s, e, PlanOf(s, e)) && Within(s, PlanOf(s, e), AreaOf(s, e))
  {
    if e.Resume? {
      ResumeIsRegular(s, e);
    } else if AreaOf(s, e) == LockArea {
      LockCallIsRegular(s, e);
    } else if AreaOf(s, e) in {NoArea, ReclaimArea} {
      OtherCallIsRegular(s, e);
    } else if AreaOf(s, e) in {PipeArea, SemArea} {
      PipeCallIsRegular(s, e);
    } else {
      KinCallIsRegular(s, e);
    }
  }

  lemma LockCallIsRegular(s: Good, e: Event)
    requires Enabled(s, e) && !e.Resume? && AreaOf(s, e) == LockArea
    ensures PlanRegular(s, e, PlanOf(s, e)) && Within(s, PlanOf(s, e), AreaOf(s, e))
  {
  }

  lemma OtherCallIsRegular(s: Good, e: Event)
    requires Enabled(s, e) && !e.Resume? && AreaOf(s, e) in {NoArea, ReclaimArea}
    ensures PlanRegular(s, e, PlanOf(s, e)) && Within(s, PlanOf(s, e), AreaOf(s, e))
  {
    hide Core, Q, FindReclaim, FindDisposable, FindPipe, FindCvar, RemoveLoc;
    ActiveAlive(s);
  }

  lemma PipeCallIsRegular(s: Good, e: Event)
    requires Enabled(s, e) && !e.Resume? && AreaOf(s, e) in {PipeArea, SemArea}
    ensures PlanRegular(s, e, PlanOf(s, e)) && Within(s, PlanOf(s, e), AreaOf(s, e))
  {
    hide Core, Q, FindPipe, FindSem, At0;
    ActiveAlive(s);
  }

  lemma KinCallIsRegular(s: Good, e: Event)
    requires Enabled(s, e) && !e.Resume? && AreaOf(s, e) in {KinArea, TtyArea}
    ensures PlanRegular(s, e, PlanOf(s, e)) && Within(s, PlanOf(s, e), AreaOf(s, e))
  {
  }

  lemma ResumeIsRegular(s: Good, e: Event)
    requires Enabled(s, e) && e.Resume?
    ensures PlanRegular(s, e, PlanOf(s, e)) && Within(s, PlanOf(s, e), AreaOf(s, e))
  {
    hide Core, Q, FindLock, FindPipe, FindCvar, FindDead, RemoveLoc;
    ActiveAlive(s);
  }

  lemma CoreStep(s: Good, e: Event)
    requires Enabled(s, e)
    ensures Core(Step(s, e))
  {
    PlanIsRegular(s, e);
    var p := PlanOf(s, e);
    MoveKeeps(s.k, p.wake, p.fin);
    MoveSelf(s.k, p.wake, p.fin);
  }

  /** On every run, in every state, every live process is in exactly one place exactly
      once and idle is active or ready. */
  lemma {:induction false} EveryProcessHasOnePlace(r: Run, n: nat)
    requires n < |r.states|
    ensures Core(r.states[n]) && Runnable(r.states[n].k, IDLE)
  {
    hide PlanOf, Move, SchedInv;
    if n == 0 {
      CoreBoot();
    } else {
      EveryProcessHasOnePlace(r, n - 1);
      CoreStep(r.states[n - 1], r.events[n - 1]);
    }
    IdleRunnable(r.states[n].k);
  }

  /** On every run, a step that blocks or exits hands the processor to another process. */
  lemma BlockingAlwaysSwitches(r: Run, n: nat)
    requires n < |r.events|
    requires PlanOf(r.states[n], r.events[n]).fin.Block? || PlanOf(r.states[n], r.events[n]).fin.Die?
    ensures r.states[n + 1].k.active != r.states[n].k.active && Alive(r.states[n + 1].k, r.states[n + 1].k.active)
  {
    EveryProcessHasOnePlace(r, n);
    EveryProcessHasOnePlace(r, n + 1);
    PlanIsRegular(r.states[n], r.events[n]);
    var p := PlanOf(r.states[n], r.events[n]);
    BlockingSwitches(r.states[n].k, p.wake, p.fin);
  }

  // ----- putting runs together ----------------------------------------------------

  ghost predicate Goes(s: State, e: Event, s': State) {
    Enabled(s, e) && Step(s, e) == s'
  }

  /** Steps that fit together are a run. */
  lemma RunOf(states: seq<State>, events: seq<Event>)
    requires |states| == |events| + 1 && states[0] == Boot()
    requires forall i :: 0 <= i < |events| ==> Goes(states[i], events[i], states[i + 1])
    ensures IsRun(Trace(states, events))
  {
    hide Step, Enabled, Boot;
    var r := Trace(states, events);
    forall i | 0 <= i < |events|
      ensures Enabled(r.states[i], r.events[i]) && r.states[i + 1] == Step(r.states[i], r.events[i])
    {
      assert Goes(states[i], events[i], states[i + 1]);
    }
  }

  /** A step has one outcome, so runs that start with the same events agree that far. */
  lemma {:induction false} SameStart(r0: Run, r: Run, n: nat)
    requires n <= |r0.events| && r0.events <= r.events
    ensures r.states[n] == r0.states[n]
  {
    hide Step, Enabled;
    if n > 0 {
      SameStart(r0, r, n - 1);
    }
  }

  // ----- blocked calls ----------------------------------------------------------

  /** p makes no step after m and before n. */
  ghost predicate Away(r: Run, p: int, m: nat, n: nat)
    requires n <= |r.states|
  {
    forall i :: m < i < n ==> r.states[i].k.active != p
  }

  lemma SuspendStep(s: Good, e: Event, p: int)
    requires Enabled(s, e) && (p != s.k.active || PlanOf(s, e).fin.Block?) && Alive(s.k, p)
    requires var c := if p == s.k.active then PlanOf(s, e).fin.cont else ContOf(s.k, p); !c.Asleep?
    ensures Alive(Step(s, e).k, p)
    ensures ContOf(Step(s, e).k, p) == if p == s.k.active then PlanOf(s, e).fin.cont else ContOf(s.k, p)
  {
    hide PlanOf, Move, Core;
    PlanIsRegular(s, e);
    var f := PlanOf(s, e);
    Self(s, f.wake, f.fin);
    if p != s.k.active {
      Others(s, f.wake, f.fin, p);
    }
  }

  /** A process that blocks (other than in Delay) is found, when it next runs, at the point
      where it blocked. */
  lemma {:induction false} StaysSuspended(r: Run, m: nat, n: nat)
    requires m < n < |r.states| && PlanOf(r.states[m], r.events[m]).fin.Block?
    requires !PlanOf(r.states[m], r.events[m]).fin.cont.Asleep?
    requires Away(r, r.states[m].k.active, m, n)
    ensures Alive(r.states[n].k, r.states[m].k.active)
    ensures ContOf(r.states[n].k, r.states[m].k.active) == PlanOf(r.states[m], r.events[m]).fin.cont
    decreases n
  {
    hide PlanOf, Step, Core;
    EveryProcessHasOnePlace(r, n - 1);
    ActiveAlive(r.states[n - 1]);
    if m < n - 1 {
      StaysSuspended(r, m, n - 1);
    }
    SuspendStep(r.states[n - 1], r.events[n - 1], r.states[m].k.active);
  }

  // ----- fairness -------------------------------------------------------------

  ghost function SchedsOf(r: Run): seq<Sched> {
    seq(|r.states|, i requires 0 <= i < |r.states| => r.states[i].k)
  }

  ghost function MovesOf(r: Run): seq<Mv>
  {
    seq(|r.events|, i requires 0 <= i < |r.events| => Mv(PlanOf(r.states[i], r.events[i]).wake, PlanOf(r.states[i], r.events[i]).fin))
  }

  lemma StepIsMove(r: Run, i: nat)
    requires i < |r.events|
    ensures MoveOk(r.states[i].k, MovesOf(r)[i].fin)
    ensures r.states[i + 1].k == Move(r.states[i].k, MovesOf(r)[i].wake, MovesOf(r)[i].fin)
  {
    EveryProcessHasOnePlace(r, i);
    PlanIsRegular(r.states[i], r.events[i]);
  }

  /** The kernel's run, from any point on, seen by the ready queue. */
  lemma RunIsMoveRun(r: Run, from: nat)
    requires from < |r.states|
    ensures MoveRun(SchedsOf(r)[from..], MovesOf(r)[from..])
  {
    hide PlanOf, Step, Move, MoveOk, SchedInv;
    var all, moves := SchedsOf(r), MovesOf(r);
    var ks, ms := all[from..], moves[from..];
    EveryProcessHasOnePlace(r, from);
    assert ks[0] == r.states[from].k;
    forall i | 0 <= i < |ms|
      ensures MoveOk(ks[i], ms[i].fin) && ks[i + 1] == Move(ks[i], ms[i].wake, ms[i].fin)
    {
      StepIsMove(r, from + i);
      assert ks[i] == all[from + i] == r.states[from + i].k;
      assert ks[i + 1] == all[from + i + 1] == r.states[from + i + 1].k;
      assert ms[i] == moves[from + i];
    }
  }

  /** On every run, a process with j non-idle processes ahead of it in the ready queue at
      time `from` is dispatched by exactly the (j+1)-th scheduling decision after it. */
  lemma FairTurn(r: Run, from: nat, p: int, j: nat, n: nat)
    requires from + n < |r.events|
    requires j < |NonIdle(r.states[from].k.ready)| && NonIdle(r.states[from].k.ready)[j] == p
    requires Decisions(SchedsOf(r)[from..], MovesOf(r)[from..], n) == j
    requires Decides(r.states[from + n].k, MovesOf(r)[from + n].wake, MovesOf(r)[from + n].fin)
    ensures r.states[from + n + 1].k.active == p
  {
    var ks, ms := SchedsOf(r)[from..], MovesOf(r)[from..];
    RunIsMoveRun(r, from);
    assert ks[0] == r.states[from].k && ks[n] == r.states[from + n].k && ks[n + 1] == r.states[from + n + 1].k;
    TurnComes(ks, ms, p, j, n);
  }

  // ----- Delay ----------------------------------------------------------------

  /** How many clock ticks the events from..n hold. */
  function Ticks(es: seq<Event>, from: nat, n: nat): nat
    requires from <= n <= |es|
  {
    if n == from then 0 else Ticks(es, from, n - 1) + (if es[n - 1].Tick? then 1 else 0)
  }

  lemma SleeperKernelStep(s: Good, e: Event, p: int, n: int)
    requires Enabled(s, e) && Sleeping(s.k, p, n)
    ensures !e.Tick? ==> Sleeping(Step(s, e).k, p, n)
    ensures e.Tick? && n > 1 ==> Sleeping(Step(s, e).k, p, n - 1)
    ensures e.Tick? && n <= 1 ==> Runnable(Step(s, e).k, p)
  {
    PlanIsRegular(s, e);
    var pl := PlanOf(s, e);
    SleeperStep(s.k, pl.wake, pl.fin, p, n);
  }

  lemma SleeperRunStep(r: Run, i: nat, p: int, n: int)
    requires i < |r.events| && Sleeping(r.states[i].k, p, n)
    ensures !r.events[i].Tick? ==> Sleeping(r.states[i + 1].k, p, n)
    ensures r.events[i].Tick? && n > 1 ==> Sleeping(r.states[i + 1].k, p, n - 1)
    ensures r.events[i].Tick? && n <= 1 ==> Runnable(r.states[i + 1].k, p)
  {
    EveryProcessHasOnePlace(r, i);
    SleeperKernelStep(r.states[i], r.events[i], p, n);
  }

  lemma DelayStarts(s: Good, d: int)
    requires Enabled(s, Delay(d)) && d > 0
    ensures Sleeping(Step(s, Delay(d)).k, s.k.active, d)
  {
    PlanIsRegular(s, Delay(d));
    MoveLists(s.k, NoWake, Block(Asleep(d)), SleepQ);
    MoveSelf(s.k, NoWake, Block(Asleep(d)));
  }

  lemma DelayRunStarts(r: Run, at: nat, d: int)
    requires at < |r.events| && r.events[at] == Delay(d) && d > 0
    ensures Sleeping(r.states[at + 1].k, r.states[at].k.active, d)
  {
    hide Sleeping;
    EveryProcessHasOnePlace(r, at);
    DelayStarts(r.states[at], d);
  }

  lemma {:induction false} SleepsOn(r: Run, from: nat, n: nat, p: int, d: int)
    requires from <= n < |r.states|
    requires Sleeping(r.states[from].k, p, d) && Ticks(r.events, from, n) < d
    ensures Sleeping(r.states[n].k, p, d - Ticks(r.events, from, n))
    decreases n
  {
    hide Step, Sleeping;
    if n > from {
      SleepsOn(r, from, n - 1, p, d);
      SleeperRunStep(r, n - 1, p, d - Ticks(r.events, from, n - 1));
    }
  }

  /** After Delay(d) at step `at`, and for as long as fewer than d ticks have come, the
      caller sleeps with exactly the remaining ticks to go ... */
  lemma DelaySleeps(r: Run, at: nat, d: int, n: nat)
    requires at < n < |r.states|
    requires r.events[at] == Delay(d) && d > 0
    requires Ticks(r.events, at + 1, n) < d
    ensures Sleeping(r.states[n].k, r.states[at].k.active, d - Ticks(r.events, at + 1, n))
  {
    hide Step, Sleeping;
    DelayRunStarts(r, at, d);
    SleepsOn(r, at + 1, n, r.states[at].k.active, d);
  }

  /** ... and exactly the d-th tick makes it ready (or running). */
  lemma DelayWakes(r: Run, at: nat, d: int, n: nat)
    requires at < n < |r.events|
    requires r.events[at] == Delay(d) && d > 0
    requires r.events[n].Tick? && Ticks(r.events, at + 1, n) == d - 1
    ensures Runnable(r.states[n + 1].k, r.states[at].k.active)
  {
    hide Step, Sleeping;
    DelaySleeps(r, at, d, n);
    SleeperRunStep(r, n, r.states[at].k.active, 1);
  }
}
