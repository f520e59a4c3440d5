/**
 Two runs on which a single waiter does not notice that its object was reclaimed.  Process 2 waits,
 is woken, finds nothing for it and waits again; the flag it set on the way is not cleared.  Then
 the object is reclaimed.  That wakes 2, which takes the old flag for "the object exists" and waits
 for the reclaimed object, and never runs again.
 */
module StaleFlag {
  import opened Scheduler
  import opened KernelSteps
  import opened KernelRuns
  import opened SampleRuns
  import opened Reclaims

  const forked := [Kin(NOBODY, [2]), idle, Kin(0, [])]

  // ----- a lock ----------------------------------------------------------------------

  const lockEvents: seq<Event> :=
    [LockInit, Acquire(1), Fork, Tick, Acquire(1), Release(1), Acquire(1), Tick, Resume, Reclaim(1), Tick, Resume]

  function Tries(seen: bool): Pcb { Pcb(true, RetryAcquire(0, 1, seen), 0) }

  function OnLock(q: seq<int>): map<Chan, seq<int>> { noSleepers[LockQ(0) := q] }

  const l1 := Boot().(locks := [Lock(1, true, false, 0)], reclaims := [ReclaimInfo(1, LockKind)])
  const l2 := l1.(locks := [Lock(1, true, true, 0)], log := l1.log.(lockTrace := map[0 := [Acq(0)]]))
  const l3 := l2.(k := Sched(0, [1, 2], map[], [P(2), P(0), P(0)]), family := forked)
  const l4 := l3.(k := Sched(2, [0, 1], noSleepers, [P(2), P(0), P(0)]))
  const l5 := l3.(k := Sched(0, [1], OnLock([2]), [P(2), P(0), Tries(false)]))
  const l6 := l3.(k := Sched(0, [1, 2], OnLock([]), [P(0), P(0), Tries(false)]),
                  locks := [Lock(1, true, false, 2)], log := l1.log.(lockTrace := map[0 := [Acq(0), Rel(0)]]))
  const l7 := l3.(k := Sched(0, [1, 2], OnLock([]), [P(0), P(0), Tries(false)]),
                  locks := [Lock(1, true, true, 0)], log := l1.log.(lockTrace := map[0 := [Acq(0), Rel(0), Acq(0)]]))
  const l8 := Next(l7, 2, [0, 1], OnLock([]))
  const l9 := l7.(k := Sched(0, [1], OnLock([2]), [P(0), P(0), Tries(true)]))
  const l10 := l7.(k := Sched(0, [1, 2], OnLock([]), [P(0), P(0), Tries(true)]),
                   locks := [Lock(1, false, true, 0)], reclaims := [])
  const l11 := Next(l10, 2, [0, 1], OnLock([]))
  const l12 := l10.(k := Sched(0, [1], OnLock([2]), [P(0), P(0), Tries(true)]))

  lemma LockTaken()
    ensures Goes(Boot(), LockInit, l1) && Goes(l1, Acquire(1), l2)
  {
    assert Boot().k.pcbs[0 := P(0)] == Boot().k.pcbs;
    assert FindLock(l1.locks, 1, 0) == Some(0);
    assert [] + [Acq(0)] == [Acq(0)];
  }

  lemma TwoStarts()
    ensures Goes(l2, Fork, l3) && Goes(l3, Tick, l4)
  {
    hide Goes;
    ForkAdds(l2, [2], l3);
    TickRotates(l3, 2, [0, 1], l4);
  }

  lemma TwoBlocks()
    ensures Goes(l4, Acquire(1), l5)
  {
    hide Goes;
    assert FindLock(l4.locks, 1, 0) == Some(0);
    Blocks(l4, Acquire(1), RetryAcquire(0, 1, false), [2], 0, [1], l5);
  }

  lemma InitReleases()
    ensures Goes(l5, Release(1), l6)
  {
    hide Goes, PlanRelease;
    ReleasePlan();
    assert Q(l5.k, LockQ(0)) == [2] + [];
    WakesFirst(l5, Release(1), l6.(k := l5.k), LockQ(0), 0, 2, [], l6);
  }

  lemma ReleasePlan()
    ensures PlanRelease(l5, 1) == Plan(l6.(k := l5.k), Heads(LockQ(0), 1), Ret(0))
  {
    assert FindHeld(l5.locks, 1, 0, 0) == Some(0);
    assert Q(l5.k, LockQ(0)) == [2];
    assert [Acq(0)] + [Rel(0)] == [Acq(0), Rel(0)];
  }

  lemma InitTakesItBack()
    ensures Goes(l6, Acquire(1), l7)
  {
    hide Goes;
    assert FindLock(l6.locks, 1, 0) == Some(0);
    assert [Acq(0), Rel(0)] + [Acq(0)] == [Acq(0), Rel(0), Acq(0)];
    Returns(l6, Acquire(1), l7.(k := l6.k), 0, l7);
  }

  lemma TwoRuns()
    ensures Goes(l7, Tick, l8)
  {
    hide Goes;
    TickRotates(l7, 2, [0, 1], l8);
  }

  lemma TwoBlocksAgain()
    ensures Goes(l8, Resume, l9)
  {
    hide Goes;
    assert FindLock(l8.locks, 1, 0) == Some(0);
    Blocks(l8, Resume, RetryAcquire(0, 1, true), [2], 0, [1], l9);
  }

  lemma LockReclaimed()
    ensures Goes(l9, Reclaim(1), l10)
  {
    hide Goes, PlanReclaim;
    LockReclaimPlan();
    assert Q(l9.k, LockQ(0)) == [2] + [];
    WakesFirst(l9, Reclaim(1), l10.(k := l9.k), LockQ(0), 0, 2, [], l10);
  }

  lemma LockReclaimPlan()
    ensures PlanReclaim(l9, 1) == Plan(l10.(k := l9.k), Heads(LockQ(0), 1), Ret(0))
  {
    assert FindReclaim(l9.reclaims, 1, 0) == Some(0) && FindDisposable(l9.locks, 1, 0, 0) == Some(0);
    assert Q(l9.k, LockQ(0)) == [2];
  }

  lemma TwoRunsAgain()
    ensures Goes(l10, Tick, l11)
  {
    hide Goes;
    TickRotates(l10, 2, [0, 1], l11);
  }

  lemma TwoDoesNotNotice()
    ensures Goes(l11, Resume, l12)
  {
    hide Goes;
    Blocks(l11, Resume, RetryAcquire(0, 1, true), [2], 0, [1], l12);
  }

  /** One waiter, woken by the Reclaim as it should be, and blocked on the reclaimed lock for all that. */
  lemma WaiterFooled() returns (r: Run)
    ensures r.events == lockEvents && |r.states| == 13 && r.events[9] == Reclaim(1)
    ensures Q(r.states[9].k, LockQ(0)) == [2] && Q(r.states[10].k, LockQ(0)) == []
    ensures Gone(r.states[12], 0) && 2 in Q(r.states[12].k, LockQ(0))
  {
    hide Step, Enabled;
    r := LockRun();
    assert Q(l9.k, LockQ(0)) == [2] && Q(l10.k, LockQ(0)) == [] && Q(l12.k, LockQ(0)) == [2];
  }

  lemma LockRun() returns (r: Run)
    ensures r == Trace([Boot(), l1, l2, l3, l4, l5, l6, l7, l8, l9, l10, l11, l12], lockEvents)
  {
    hide *;
    var t := Trace([Boot(), l1, l2, l3, l4, l5, l6, l7, l8, l9, l10, l11, l12],
                   [LockInit, Acquire(1), Fork, Tick, Acquire(1), Release(1), Acquire(1), Tick, Resume, Reclaim(1), Tick, Resume]);
    LockTaken();
    TwoStarts();
    TwoBlocks();
    InitReleases();
    InitTakesItBack();
    TwoRuns();
    TwoBlocksAgain();
    LockReclaimed();
    TwoRunsAgain();
    TwoDoesNotNotice();
    RunOf(t.states, t.events);
    r := t;
    LockEventsAre();
  }

  lemma LockEventsAre()
    ensures lockEvents ==
            [LockInit, Acquire(1), Fork, Tick, Acquire(1), Release(1), Acquire(1), Tick, Resume, Reclaim(1), Tick, Resume]
  {
  }

  /** On every continuation of that run process 2 never runs again. */
  lemma FooledWaiterStays(r: Run, n: nat)
    requires 12 <= n < |r.states| && lockEvents <= r.events
    ensures !Runnable(r.states[n].k, 2)
  {
    hide Step, Enabled, Gone, Runnable, lockEvents;
    var r0 := WaiterFooled();
    SameStart(r0, r, 12);
    LeftBehindForEver(r, 12, n, 0, 2);
  }

  // ----- a pipe ------------------------------------------------------------------------

  const data := [5]

  const pipeEvents: seq<Event> :=
    [PipeInit, Fork, Tick, PipeRead(1, 2), PipeWrite(1, 1, data), Tick, Resume, Reclaim(1), Tick, Resume]

  function Reads(seen: bool): Pcb { Pcb(true, RetryRead(0, 1, 2, seen), 0) }

  function OnPipe(q: seq<int>): map<Chan, seq<int>> { noSleepers[PipeQ(0) := q] }

  const p1 := Boot().(pipes := [Pipe(1, true, [])], reclaims := [ReclaimInfo(1, PipeKind)])
  const p2 := p1.(k := Sched(0, [1, 2], map[], [P(2), P(0), P(0)]), family := forked)
  const p3 := p2.(k := Sched(2, [0, 1], noSleepers, [P(2), P(0), P(0)]))
  const p4 := p2.(k := Sched(0, [1], OnPipe([2]), [P(2), P(0), Reads(false)]))
  const p5 := p2.(k := Sched(0, [1, 2], OnPipe([]), [P(1), P(0), Reads(false)]),
                  pipes := [Pipe(1, true, data)], log := p1.log.(accepted := map[0 := data]))
  const p6 := Next(p5, 2, [0, 1], OnPipe([]))
  const p7 := p5.(k := Sched(0, [1], OnPipe([2]), [P(1), P(0), Reads(true)]))
  const p8 := p5.(k := Sched(0, [1, 2], OnPipe([]), [P(0), P(0), Reads(true)]), pipes := [Pipe(1, false, data)], reclaims := [])
  const p9 := Next(p8, 2, [0, 1], OnPipe([]))
  const p10 := p8.(k := Sched(0, [1], OnPipe([2]), [P(0), P(0), Reads(true)]))

  lemma PipeMade()
    ensures Goes(Boot(), PipeInit, p1)
  {
    assert Boot().k.pcbs[0 := P(0)] == Boot().k.pcbs;
  }

  lemma ReaderStarts()
    ensures Goes(p1, Fork, p2) && Goes(p2, Tick, p3)
  {
    hide Goes;
    ForkAdds(p1, [2], p2);
    TickRotates(p2, 2, [0, 1], p3);
  }

  lemma ReaderBlocks()
    ensures Goes(p3, PipeRead(1, 2), p4)
  {
    hide Goes;
    assert FindPipe(p3.pipes, 1, 0) == Some(0);
    Blocks(p3, PipeRead(1, 2), RetryRead(0, 1, 2, false), [2], 0, [1], p4);
  }

  lemma InitWrites()
    ensures Goes(p4, PipeWrite(1, 1, data), p5)
  {
    hide Goes, PlanPipeWrite;
    WritePlan();
    assert Q(p4.k, PipeQ(0)) == [2] + [];
    WakesFirst(p4, PipeWrite(1, 1, data), p5.(k := p4.k), PipeQ(0), 1, 2, [], p5);
  }

  lemma WritePlan()
    ensures PlanPipeWrite(p4, 1, 1, data) == Plan(p5.(k := p4.k), Heads(PipeQ(0), 1), Ret(1))
  {
    assert FindPipe(p4.pipes, 1, 0) == Some(0);
    assert [] + data[..1] == data;
  }

  lemma ReaderRuns()
    ensures Goes(p5, Tick, p6)
  {
    hide Goes;
    TickRotates(p5, 2, [0, 1], p6);
  }

  lemma ReaderBlocksAgain()
    ensures Goes(p6, Resume, p7)
  {
    hide Goes;
    assert FindPipe(p6.pipes, 1, 0) == Some(0);
    Blocks(p6, Resume, RetryRead(0, 1, 2, true), [2], 0, [1], p7);
  }

  lemma PipeReclaimed()
    ensures Goes(p7, Reclaim(1), p8)
  {
    hide Goes, PlanReclaim;
    PipeReclaimPlan();
    assert Q(p7.k, PipeQ(0)) == [2] + [];
    WakesFirst(p7, Reclaim(1), p8.(k := p7.k), PipeQ(0), 0, 2, [], p8);
  }

  lemma PipeReclaimPlan()
    ensures PlanReclaim(p7, 1) == Plan(p8.(k := p7.k), Heads(PipeQ(0), 1), Ret(0))
  {
    assert FindReclaim(p7.reclaims, 1, 0) == Some(0) && FindPipe(p7.pipes, 1, 0) == Some(0);
    assert Q(p7.k, PipeQ(0)) == [2];
  }

  lemma ReaderRunsAgain()
    ensures Goes(p8, Tick, p9)
  {
    hide Goes;
    TickRotates(p8, 2, [0, 1], p9);
  }

  lemma ReaderDoesNotNotice()
    ensures Goes(p9, Resume, p10)
  {
    hide Goes;
    Blocks(p9, Resume, RetryRead(0, 1, 2, true), [2], 0, [1], p10);
  }

  lemma ReaderFooled() returns (r: Run)
    ensures r.events == pipeEvents && |r.states| == 11 && r.events[7] == Reclaim(1)
    ensures Q(r.states[7].k, PipeQ(0)) == [2] && Q(r.states[8].k, PipeQ(0)) == []
    ensures GonePipe(r.states[10], 0) && 2 in Q(r.states[10].k, PipeQ(0)) && NoRetry(r.states[10], 0)
  {
    hide Step, Enabled;
    r := PipeRun();
    assert Q(p7.k, PipeQ(0)) == [2] && Q(p8.k, PipeQ(0)) == [] && Q(p10.k, PipeQ(0)) == [2];
  }

  lemma PipeRun() returns (r: Run)
    ensures r == Trace([Boot(), p1, p2, p3, p4, p5, p6, p7, p8, p9, p10], pipeEvents)
  {
    hide *;
    var t := Trace([Boot(), p1, p2, p3, p4, p5, p6, p7, p8, p9, p10],
                   [PipeInit, Fork, Tick, PipeRead(1, 2), PipeWrite(1, 1, data), Tick, Resume, Reclaim(1), Tick, Resume]);
    PipeMade();
    ReaderStarts();
    ReaderBlocks();
    InitWrites();
    ReaderRuns();
    ReaderBlocksAgain();
    PipeReclaimed();
    ReaderRunsAgain();
    ReaderDoesNotNotice();
    RunOf(t.states, t.events);
    r := t;
    PipeEventsAre();
  }

  lemma PipeEventsAre()
    ensures pipeEvents == [PipeInit, Fork, Tick, PipeRead(1, 2), PipeWrite(1, 1, data), Tick, Resume, Reclaim(1), Tick, Resume]
  {
  }

  /** On every continuation of that run the reader never runs again. */
  lemma FooledReaderStays(r: Run, n: nat)
    requires 10 <= n < |r.states| && pipeEvents <= r.events
    ensures !Runnable(r.states[n].k, 2)
  {
    hide Step, Enabled, GonePipe, NoRetry, Runnable, pipeEvents;
    var r0 := ReaderFooled();
    SameStart(r0, r, 10);
    PipeLeftForEver(r, 10, n, 0, 2);
  }
}
