/**
 A run on which Reclaim strands a process.  Two processes wait for a lock whose owner reclaims
 it; only the first is woken.
 */
module HalfReclaim {
  import opened Scheduler
  import opened KernelSteps
  import opened KernelRuns
  import opened SampleRuns
  import opened Reclaims

  const events: seq<Event> := [LockInit, Acquire(1), Fork, Fork, Tick, Acquire(1), Acquire(1), Reclaim(1)]

  const waits := Pcb(true, RetryAcquire(0, 1, false), 0)

  const s1 := Boot().(locks := [Lock(1, true, false, 0)], reclaims := [ReclaimInfo(1, LockKind)])
  const s2 := s1.(locks := [Lock(1, true, true, 0)], log := s1.log.(lockTrace := map[0 := [Acq(0)]]))
  const s3 := s2.(k := Sched(0, [1, 2], map[], [P(2), P(0), P(0)]), family := [Kin(NOBODY, [2]), idle, Kin(0, [])])
  const s4 := s2.(k := Sched(0, [1, 2, 3], map[], threePcbs), family := threeKin)
  const s5 := s4.(k := Sched(2, [3, 0, 1], noSleepers, threePcbs))
  const s6 := s5.(k := Sched(3, [0, 1], noSleepers[LockQ(0) := [2]], [P(3), P(0), waits, P(0)]))
  const s7 := s5.(k := Sched(0, [1], noSleepers[LockQ(0) := [2, 3]], [P(3), P(0), waits, waits]))
  const s8 := s5.(k := Sched(0, [1, 2], noSleepers[LockQ(0) := [3]], [P(0), P(0), waits, waits]),
                  locks := [Lock(1, false, true, 0)], reclaims := [])

  lemma LockTaken()
    ensures Goes(Boot(), LockInit, s1) && Goes(s1, Acquire(1), s2)
  {
    assert Boot().k.pcbs[0 := P(0)] == Boot().k.pcbs;
    assert FindLock(s1.locks, 1, 0) == Some(0);
    assert [] + [Acq(0)] == [Acq(0)];
  }

  lemma TwoWait()
    ensures Goes(s5, Acquire(1), s6) && Goes(s6, Acquire(1), s7)
  {
    hide Goes;
    assert FindLock(s5.locks, 1, 0) == Some(0);
    Blocks(s5, Acquire(1), RetryAcquire(0, 1, false), [2], 3, [0, 1], s6);
    Blocks(s6, Acquire(1), RetryAcquire(0, 1, false), [2, 3], 0, [1], s7);
  }

  lemma OneWoken()
    ensures Goes(s7, Reclaim(1), s8)
  {
    hide Goes, PlanReclaim;
    ReclaimPlan();
    WakesFirst(s7, Reclaim(1), s8.(k := s7.k), LockQ(0), 0, 2, [3], s8);
  }

  lemma ReclaimPlan()
    ensures PlanReclaim(s7, 1) == Plan(s8.(k := s7.k), Heads(LockQ(0), 1), Ret(0))
  {
    assert FindReclaim(s7.reclaims, 1, 0) == Some(0);
    assert FindDisposable(s7.locks, 1, 0, 0) == Some(0);
    assert Q(s7.k, LockQ(0)) == [2, 3];
  }

  /** The run up to the Reclaim ... */
  lemma ReclaimStrands() returns (r: Run)
    ensures r.events == events && |r.states| == 9
    ensures Gone(r.states[8], 0) && 3 in Q(r.states[8].k, LockQ(0))
  {
    hide Step, Enabled;
    LockTaken();
    TwoForks(s2, s3, s4, s5);
    TwoWait();
    OneWoken();
    r := Trace([Boot(), s1, s2, s3, s4, s5, s6, s7, s8], events);
  }

  /** ... and whatever follows it, process 3 never runs again. */
  lemma StrandedForEver(r: Run, n: nat)
    requires 8 <= n < |r.states| && events <= r.events
    ensures !Runnable(r.states[n].k, 3)
  {
    hide Step, Enabled, Gone, Runnable;
    var r0 := ReclaimStrands();
    SameStart(r0, r, 8);
    LeftBehindForEver(r, 8, n, 0, 3);
  }
}
