/**
 A run on which Wait reports the same exit twice.  `sys_Wait` does not reset its running location
 before the second scan, so a Wait that blocked while the dead list held somebody else's entry
 removes the wrong location, here one past the end, and leaves its own entry to be found again.
 */
module WaitTwice {
  import opened Scheduler
  import opened KernelSteps
  import opened KernelRuns
  import opened SampleRuns

  const first := DeadInfo(2, 3, 0)
  const twice := DeadInfo(0, 2, 7)

  /** init (0) forks 2 and 4, and 2 forks 3. */
  const pcbs := [P(4), P(0), P(3), P(0), P(0)]
  const kin := [Kin(NOBODY, [2, 4]), idle, Kin(0, [3]), Kin(2, []), Kin(0, [])]

  /** 3 exits while its parent is not waiting. */
  const pcbs3 := [P(4), P(0), P(3), Dead(0), P(0)]
  const kin3 := [Kin(NOBODY, [2, 4]), idle, Kin(0, []), Kin(2, []), Kin(0, [])]

  /** init blocks in Wait behind that entry, and 2 exits. */
  const pcbs2 := [Pcb(true, ScanDead(2), 4), P(0), P(3), Dead(0), P(0)]
  const pcbs32 := [Pcb(true, ScanDead(2), 4), P(0), Dead(3), Dead(0), P(0)]
  const kin32 := [Kin(NOBODY, [4]), idle, Kin(0, []), Kin(2, []), Kin(0, [])]
  const woken: map<Chan, seq<int>> := noSleepers[WaitQ := []]

  const events: seq<Event> := [Fork, Tick, Fork, Tick, Fork, Tick, Exit(0), Tick, Tick, Wait, Exit(7), Tick, Resume, Wait]

  const s1 := Snapshot(0, [1, 2], map[], [P(2), P(0), P(0)], [Kin(NOBODY, [2]), idle, Kin(0, [])], [], [], [])
  const s2 := Next(s1, 2, [0, 1], noSleepers)
  const s3 := Snapshot(2, [0, 1, 3], noSleepers, [P(2), P(0), P(3), P(0)], [Kin(NOBODY, [2]), idle, Kin(0, [3]), Kin(2, [])], [], [], [])
  const s4 := Next(s3, 0, [1, 3, 2], noSleepers)
  const s5 := Snapshot(0, [1, 3, 2, 4], noSleepers, pcbs, kin, [], [], [])
  const s6 := Next(s5, 3, [2, 4, 0, 1], noSleepers)
  const s7 := Snapshot(2, [4, 0, 1], noSleepers, pcbs3, kin3, [first], [first], [])
  const s8 := Next(s7, 4, [0, 1, 2], noSleepers)
  const s9 := Next(s8, 0, [1, 2, 4], noSleepers)
  const s10 := Snapshot(2, [4, 1], noSleepers[WaitQ := [0]], pcbs2, kin3, [first], [first], [])
  const s11 := Snapshot(4, [1, 0], woken, pcbs32, kin32, [first, twice], [first, twice], [])
  const s12 := Next(s11, 0, [4, 1], woken)
  const s13 := Snapshot(0, [4, 1], woken, pcbs32[0 := P(2)], kin32, [first, twice], [first, twice], [twice])
  const s14 := Snapshot(0, [4, 1], woken, pcbs32[0 := P(2)], kin32, [first], [first, twice], [twice, twice])

  lemma InitForksTwo()
    ensures Goes(Boot(), Fork, s1) && Goes(s1, Tick, s2)
  {
    hide Goes;
    ForkAdds(Boot(), [2], s1);
    TickRotates(s1, 2, [0, 1], s2);
  }

  lemma TwoForksThree()
    ensures Goes(s2, Fork, s3) && Goes(s3, Tick, s4)
  {
    hide Goes;
    ForkAdds(s2, [3], s3);
    TickRotates(s3, 0, [1, 3, 2], s4);
  }

  lemma InitForksFour()
    ensures Goes(s4, Fork, s5)
  {
    hide Goes;
    ForkAdds(s4, [2, 4], s5);
  }

  lemma ThreeRuns()
    ensures Goes(s5, Tick, s6)
  {
    hide Goes;
    TickRotates(s5, 3, [2, 4, 0, 1], s6);
  }

  lemma ThreeExits()
    ensures Goes(s6, Exit(0), s7)
  {
    hide Goes, PlanExit;
    ThreeExitsPlan();
    ExitGoes(s6, 0, s7.(k := s6.k), [], [], [], [], 2, [4, 0, 1], s7);
  }

  lemma ThreeExitsPlan()
    ensures PlanExit(s6, 0) == Plan(s7.(k := s6.k), NoWake, Die)
  {
    assert Orphaned(kin, []) == kin;
    assert DropPid([3], 3) == [];
  }

  lemma InitComesAround()
    ensures Goes(s7, Tick, s8) && Goes(s8, Tick, s9) && Goes(s11, Tick, s12)
  {
    hide Goes;
    TickRotates(s7, 4, [0, 1, 2], s8);
    TickRotates(s8, 0, [1, 2, 4], s9);
    TickRotates(s11, 0, [4, 1], s12);
  }

  lemma InitWaits()
    ensures Goes(s9, Wait, s10)
  {
    hide Goes;
    assert FindDead([first], 0, 0) == None;
    Blocks(s9, Wait, ScanDead(2), [0], 2, [4, 1], s10);
  }

  lemma TwoExits()
    ensures Goes(s10, Exit(7), s11)
  {
    hide Goes, PlanExit, PlanOf;
    TwoExitsPlan();
    TwoCanExit();
    assert s10.k.pcbs[2 := Dead(3)] == s11.k.pcbs;
    assert s10.k.lists[WaitQ := []] == s11.k.lists;
    ExitGoes(s10, 7, s11.(k := s10.k), [], [0], [], [], 4, [1, 0], s11);
  }

  lemma TwoCanExit()
    ensures Enabled(s10, Exit(7)) && PlanOf(s10, Exit(7)) == PlanExit(s10, 7)
  {
    hide PlanExit;
  }

  lemma TwoExitsPlan()
    ensures PlanExit(s10, 7) == Plan(s11.(k := s10.k), Wake.At(WaitQ, 0), Die)
  {
    assert Orphaned(kin3, []) == kin3;
    assert DropPid([2, 4], 2) == [4];
    assert FindPid([0], 0, 0) == Some(0);
  }

  lemma InitCollects()
    ensures Goes(s12, Resume, s13)
  {
    hide Goes, PlanScan;
    assert FindDead([first, twice], 0, 0) == Some(1);
    ScanLeaves();
    Returns(s12, Resume, s13.(k := s12.k), 2, s13);
  }

  lemma ScanLeaves()
    ensures PlanScan(s12, 2, 1) == Plan(s13.(k := s12.k), NoWake, Ret(2))
    ensures PlanScan(s13, 1, 1) == Plan(s14.(k := s13.k), NoWake, Ret(2))
  {
  }

  lemma InitCollectsAgain()
    ensures Goes(s13, Wait, s14)
  {
    hide Goes, PlanScan;
    assert FindDead([first, twice], 0, 0) == Some(1);
    ScanLeaves();
    Returns(s13, Wait, s14.(k := s13.k), 2, s14);
  }

  /** On this run Wait returns pid 2 with status 7 to init twice, though 2 exited once. */
  lemma ExitCollectedTwice() returns (r: Run)
    ensures r.events == events
    ensures |r.states| == 15 && r.states[14].log.reaped == [twice, twice] && r.states[14].log.exits == [first, twice]
  {
    hide Step, Enabled;
    var states := [Boot(), s1, s2, s3, s4, s5, s6, s7, s8, s9, s10, s11, s12, s13, s14];
    InitForksTwo(); TwoForksThree(); InitForksFour(); ThreeRuns(); ThreeExits();
    InitComesAround(); InitWaits(); TwoExits(); InitCollects(); InitCollectsAgain();
    r := Trace(states, events);
  }
}
