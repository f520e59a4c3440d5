/**
 A run on which a woken Wait fails.  Process 4 has exited, and its entry waits for its parent 2.
 Then 3 and 0 block in Wait behind that entry, and a child of each exits.  The second scan of 0
 reports its own child but removes the entry of the child of 3, and 3 finds nothing.
 */
module WaitFails {
  import opened Constants
  import opened Scheduler
  import opened KernelSteps
  import opened KernelRuns
  import opened SampleRuns
  import opened DeadList

  const of2 := DeadInfo(2, 4, 0)
  const of0 := DeadInfo(0, 2, 7)
  const of3 := DeadInfo(3, 5, 9)

  const events: seq<Event> :=
    [Fork, Fork, Tick, Fork, Tick, Fork, Tick, Tick, Exit(0), Tick, Tick, Wait, Wait, Exit(7), Exit(9), Resume, Tick, Resume]

  const kin4 := [Kin(NOBODY, [2, 3]), idle, Kin(0, [4]), Kin(0, []), Kin(2, [])]
  const kin5 := [Kin(NOBODY, [2, 3]), idle, Kin(0, [4]), Kin(0, [5]), Kin(2, []), Kin(3, [])]
  const kin9 := [Kin(NOBODY, [2, 3]), idle, Kin(0, []), Kin(0, [5]), Kin(2, []), Kin(3, [])]
  const kin14 := [Kin(NOBODY, [3]), idle, Kin(0, []), Kin(0, [5]), Kin(2, []), Kin(3, [])]
  const kin15 := [Kin(NOBODY, [3]), idle, Kin(0, []), Kin(0, []), Kin(2, []), Kin(3, [])]

  const scan0 := Pcb(true, ScanDead(2), 3)
  const scan3 := Pcb(true, ScanDead(2), 5)

  const s1 := Boot().(k := Sched(0, [1, 2], map[], [P(2), P(0), P(0)]), family := [Kin(NOBODY, [2]), idle, Kin(0, [])])
  const s2 := Boot().(k := Sched(0, [1, 2, 3], map[], threePcbs), family := threeKin)
  const s3 := s2.(k := Sched(2, [3, 0, 1], noSleepers, threePcbs))
  const s4 := Snapshot(2, [3, 0, 1, 4], noSleepers, [P(3), P(0), P(4), P(0), P(0)], kin4, [], [], [])
  const s5 := Next(s4, 3, [0, 1, 4, 2], noSleepers)
  const s6 := Snapshot(3, [0, 1, 4, 2, 5], noSleepers, [P(3), P(0), P(4), P(5), P(0), P(0)], kin5, [], [], [])
  const s7 := Next(s6, 0, [1, 4, 2, 5, 3], noSleepers)
  const s8 := Next(s6, 4, [2, 5, 3, 0, 1], noSleepers)
  const s9 := Snapshot(2, [5, 3, 0, 1], noSleepers, [P(3), P(0), P(4), P(5), Dead(0), P(0)], kin9, [of2], [of2], [])
  const s10 := Next(s9, 5, [3, 0, 1, 2], noSleepers)
  const s11 := Next(s9, 3, [0, 1, 2, 5], noSleepers)
  const s12 := s9.(k := Sched(0, [1, 2, 5], noSleepers[WaitQ := [3]], [P(3), P(0), P(4), scan3, Dead(0), P(0)]))
  const s13 := s9.(k := Sched(2, [5, 1], noSleepers[WaitQ := [3, 0]], [scan0, P(0), P(4), scan3, Dead(0), P(0)]))
  const s14 := Snapshot(5, [1, 0], noSleepers[WaitQ := [3]], [scan0, P(0), Dead(4), scan3, Dead(0), P(0)], kin14,
                        [of2, of0], [of2, of0], [])
  const s15 := Snapshot(0, [3, 1], noSleepers[WaitQ := []], [scan0, P(0), Dead(4), scan3, Dead(0), Dead(0)], kin15,
                        [of2, of0, of3], [of2, of0, of3], [])
  const s16 := Snapshot(0, [3, 1], noSleepers[WaitQ := []], [P(2), P(0), Dead(4), scan3, Dead(0), Dead(0)], kin15,
                        [of2, of0], [of2, of0, of3], [of0])
  const s17 := Next(s16, 3, [1, 0], noSleepers[WaitQ := []])
  const s18 := s17.(k := s17.k.(pcbs := [P(2), P(0), Dead(4), P(ERROR), Dead(0), Dead(0)]))

  lemma TwoForksFour()
    ensures Goes(s3, Fork, s4) && Goes(s4, Tick, s5)
  {
    hide Goes;
    ForkAdds(s3, [4], s4);
    TickRotates(s4, 3, [0, 1, 4, 2], s5);
  }

  lemma ThreeForksFive()
    ensures Goes(s5, Fork, s6)
  {
    hide Goes;
    ForkAdds(s5, [5], s6);
  }

  lemma FourComesAround()
    ensures Goes(s6, Tick, s7) && Goes(s7, Tick, s8)
  {
    hide Goes;
    TickRotates(s6, 0, [1, 4, 2, 5, 3], s7);
    TickRotates(s7, 4, [2, 5, 3, 0, 1], s8);
  }

  lemma FourExits()
    ensures Goes(s8, Exit(0), s9)
  {
    hide Goes, PlanExit;
    FourExitsPlan();
    ExitGoes(s8, 0, s9.(k := s8.k), [], [], [], [], 2, [5, 3, 0, 1], s9);
  }

  lemma FourExitsPlan()
    ensures PlanExit(s8, 0) == Plan(s9.(k := s8.k), NoWake, Die)
  {
    assert Orphaned(kin5, []) == kin5;
    assert DropPid([4], 4) == [];
  }

  lemma ThreeComesAround()
    ensures Goes(s9, Tick, s10) && Goes(s10, Tick, s11) && Goes(s16, Tick, s17)
  {
    hide Goes;
    TickRotates(s9, 5, [3, 0, 1, 2], s10);
    TickRotates(s10, 3, [0, 1, 2, 5], s11);
    TickRotates(s16, 3, [1, 0], s17);
  }

  lemma ThreeWaits()
    ensures Goes(s11, Wait, s12)
  {
    hide Goes;
    assert FindDead([of2], 3, 0) == None;
    Blocks(s11, Wait, ScanDead(2), [3], 0, [1, 2, 5], s12);
  }

  lemma InitWaits()
    ensures Goes(s12, Wait, s13)
  {
    hide Goes;
    assert FindDead([of2], 0, 0) == None;
    Blocks(s12, Wait, ScanDead(2), [3, 0], 2, [5, 1], s13);
  }

  lemma TwoExits()
    ensures Goes(s13, Exit(7), s14)
  {
    hide Goes, PlanExit;
    TwoExitsPlan();
    ExitGoes(s13, 7, s14.(k := s13.k), [3], [0], [], [3], 5, [1, 0], s14);
  }

  lemma TwoExitsPlan()
    ensures PlanExit(s13, 7) == Plan(s14.(k := s13.k), At(WaitQ, 1), Die)
  {
    assert Orphaned(kin9, []) == kin9;
    assert DropPid([2, 3], 2) == [3];
    assert FindPid([3, 0], 0, 0) == Some(1);
  }

  lemma FiveExits()
    ensures Goes(s14, Exit(9), s15)
  {
    hide Goes, PlanExit, PlanOf;
    FiveExitsPlan();
    FiveCanExit();
    assert s14.k.pcbs[5 := Dead(0)] == s15.k.pcbs;
    assert s14.k.lists[WaitQ := []] == s15.k.lists;
    ExitGoes(s14, 9, s15.(k := s14.k), [], [3], [], [], 0, [3, 1], s15);
  }

  lemma FiveCanExit()
    ensures Enabled(s14, Exit(9)) && PlanOf(s14, Exit(9)) == PlanExit(s14, 9)
  {
    hide PlanExit;
  }

  lemma FiveExitsPlan()
    ensures PlanExit(s14, 9) == Plan(s15.(k := s14.k), At(WaitQ, 0), Die)
  {
    assert Orphaned(kin14, []) == kin14;
    assert DropPid([5], 5) == [];
    assert FindPid([3], 3, 0) == Some(0);
  }

  lemma InitTakesTheOther()
    ensures Goes(s15, Resume, s16)
  {
    hide Goes, PlanScan;
    assert FindDead([of2, of0, of3], 0, 0) == Some(1);
    WrongEntry();
    Returns(s15, Resume, s16.(k := s15.k), 2, s16);
  }

  lemma WrongEntry()
    ensures PlanScan(s15, 2, 1) == Plan(s16.(k := s15.k), NoWake, Ret(2))
  {
  }

  lemma ThreeFails()
    ensures Goes(s17, Resume, s18)
  {
    hide Goes, PlanScan;
    assert FindDead([of2, of0], 3, 0) == None;
    Returns(s17, Resume, s17, ERROR, s18);
  }

  /** The Wait of process 3 blocks at step 11, its child 5 exits at step 14, the second scan of
      init takes that entry at step 15, and at step 17 the Wait of process 3 returns ERROR. */
  lemma WokenWaitFails() returns (r: Run)
    ensures r.events == events && |r.states| == 19 && WaitsFromTo(r, 11, 17) && r.states[17].k.active == 3
    ensures PlanOf(r.states[17], r.events[17]).fin == Ret(ERROR)
    ensures of3 in r.states[17].log.exits && of3 !in r.states[17].log.reaped
    ensures Steals(r.states[15], r.events[15]) && Stolen(r.states[15], r.events[15]) == of3
  {
    hide Step, Enabled, Goes, PlanOf, Steals, Stolen;
    r := TheRun();
    Facts();
  }

  lemma TheRun() returns (r: Run)
    ensures r == Trace([Boot(), s1, s2, s3, s4, s5, s6, s7, s8, s9, s10, s11, s12, s13, s14, s15, s16, s17, s18], events)
  {
    hide *;
    var states := [Boot(), s1, s2, s3, s4, s5, s6, s7, s8, s9, s10, s11, s12, s13, s14, s15, s16, s17, s18];
    TheSteps();
    RunOf(states, events);
    r := Trace(states, events);
  }

  lemma TheSteps()
    ensures var s := [Boot(), s1, s2, s3, s4, s5, s6, s7, s8, s9, s10, s11, s12, s13, s14, s15, s16, s17, s18];
            |s| == |events| + 1 && forall i :: 0 <= i < |events| ==> Goes(s[i], events[i], s[i + 1])
  {
    hide Goes, Boot;
    FirstForks();
    TwoForksFour(); ThreeForksFive(); FourComesAround(); FourExits(); ThreeComesAround(); ThreeWaits(); InitWaits();
    TwoExits(); FiveExits(); InitTakesTheOther(); ThreeFails();
  }

  lemma FirstForks()
    ensures Goes(Boot(), Fork, s1) && Goes(s1, Fork, s2) && Goes(s2, Tick, s3)
  {
    hide Goes;
    TwoForks(Boot(), s1, s2, s3);
  }

  lemma Facts()
    ensures Enabled(s11, Wait) && PlanOf(s11, Wait).fin == Block(ScanDead(2))
    ensures Enabled(s17, Resume) && PlanOf(s17, Resume).fin == Ret(ERROR)
    ensures Steals(s15, Resume) && Stolen(s15, Resume) == of3
  {
    hide Enabled, PlanOf, Steals, Stolen;
    ThreeBlocks();
    ThreeGetsError();
    InitSteals();
  }

  lemma ThreeBlocks()
    ensures Enabled(s11, Wait) && PlanOf(s11, Wait).fin == Block(ScanDead(2))
  {
    assert FindDead([of2], 3, 0) == None;
  }

  lemma ThreeGetsError()
    ensures Enabled(s17, Resume) && PlanOf(s17, Resume).fin == Ret(ERROR)
  {
    assert FindDead([of2, of0], 3, 0) == None;
  }

  lemma InitSteals()
    ensures Steals(s15, Resume) && Stolen(s15, Resume) == of3
  {
    assert FindDead([of2, of0, of3], 0, 0) == Some(1);
  }

  // ----- only dead children -------------------------------------------------------------

  const only := DeadInfo(0, 2, 7)
  const w2 := Next(s1, 2, [0, 1], noSleepers)
  const w3 := Snapshot(0, [1], noSleepers, [P(2), P(0), Dead(0)], [idle, idle, Kin(0, [])], [only], [only], [])
  const w4 := w3.(k := w3.k.(pcbs := [P(ERROR), P(0), Dead(0)]))

  lemma TwoRuns()
    ensures Goes(Boot(), Fork, s1) && Goes(s1, Tick, w2)
  {
    hide Goes;
    ForkAdds(Boot(), [2], s1);
    TickRotates(s1, 2, [0, 1], w2);
  }

  lemma OnlyChildExits()
    ensures Goes(w2, Exit(7), w3)
  {
    hide Goes, PlanExit;
    OnlyChildExitsPlan();
    ExitGoes(w2, 7, w3.(k := w2.k), [], [], [], [], 0, [1], w3);
  }

  lemma OnlyChildExitsPlan()
    ensures PlanExit(w2, 7) == Plan(w3.(k := w2.k), NoWake, Die)
  {
    assert Orphaned(s1.family, []) == s1.family;
    assert DropPid([2], 2) == [];
  }

  lemma InitGetsError()
    ensures Goes(w3, Wait, w4) && Enabled(w3, Wait) && PlanOf(w3, Wait) == Fails(w3)
  {
    Returns(w3, Wait, w3, ERROR, w4);
  }

  /** init's only child has exited and its entry is there, but Wait returns ERROR. */
  lemma DeadChildNotCollected() returns (r: Run)
    ensures r.events == [Fork, Tick, Exit(7), Wait] && |r.states| == 5 && r.states[3].k.active == 0
    ensures only in r.states[3].dead && PlanOf(r.states[3], r.events[3]).fin == Ret(ERROR) && r.states[4].log.reaped == []
  {
    hide Step, Enabled, Goes, PlanOf, Boot;
    var t := Trace([Boot(), s1, w2, w3, w4], [Fork, Tick, Exit(7), Wait]);
    TwoRuns();
    OnlyChildExits();
    InitGetsError();
    RunOf(t.states, t.events);
    r := t;
    NothingReaped();
  }

  lemma NothingReaped()
    ensures w4.log.reaped == [] && only in w3.dead && w3.k.active == 0
  {
  }
}
