/**
 The dead list, Exit and the two scans of Wait, over every run.

 `sys_Wait` does not reset its location counter before its second scan.  So a Wait that blocked
 while the list held other entries reports an entry of its own but removes another location: one
 past the end, or an entry that belongs to somebody else.  Here is exactly when that happens, and
 exactly what follows: which exits are reported twice, and which woken Waits fail.
 */
module DeadList {
  import opened Constants
  import opened Scheduler
  import opened KernelSteps
  import opened KernelRuns
  import opened Families

  // ----- what a step does to the list ----------------------------------------------

  /** A scan that finds an entry: the counter it starts with, and the place of the entry. */
  datatype Scan = Scan(index: int, j: nat)

  function ScanOf(s: State, e: Event): (r: Option<Scan>)
    ensures r.Some? ==> r.value.j < |s.dead| && s.dead[r.value.j].ppid == s.k.active
    ensures r.Some? ==> forall i :: 0 <= i < r.value.j ==> s.dead[i].ppid != s.k.active
  {
    var a, c := s.k.active, ContOf(s.k, s.k.active);
    if (e.Wait? && 0 <= a < |s.family| && s.family[a].children != []) || (e.Resume? && c.ScanDead?) then
      match FindDead(s.dead, a, 0)
      case None => None
      case Some(j) => Some(Scan(if e.Resume? && c.ScanDead? then c.index else 1, j))
    else None
  }

  /** The entry an exit adds. */
  function EntryOf(s: State, e: Event): Option<DeadInfo> {
    if e.Exit? && 0 <= s.k.active < |s.family| && s.family[s.k.active].ppid != NOBODY
    then Some(DeadInfo(s.family[s.k.active].ppid, s.k.active, e.status)) else None
  }

  ghost predicate Effect(s: State, e: Event, s': State) {
    match ScanOf(s, e)
    case Some(x) =>
      && s'.dead == RemoveLoc(s.dead, x.index + x.j)
      && s'.log.reaped == s.log.reaped + [s.dead[x.j]] && s'.log.exits == s.log.exits
    case None =>
      && s'.log.reaped == s.log.reaped
      && (match EntryOf(s, e)
          case Some(d) => s'.dead == s.dead + [d] && s'.log.exits == s.log.exits + [d]
          case None => s'.dead == s.dead && s'.log.exits == s.log.exits)
  }

  lemma StepEffect(s: Good, e: Event)
    requires Enabled(s, e)
    ensures Effect(s, e, Step(s, e))
    ensures PlanOf(s, e).fin.Block? && PlanOf(s, e).fin.cont.ScanDead? ==>
              e.Wait? && PlanOf(s, e).fin.cont.index == |s.dead| + 1
    ensures PlanOf(s, e).fin.Die? <==> e.Exit?
  {
    hide Move, Core;
    PlanIsRegular(s, e);
    if AreaOf(s, e) == KinArea {
      KinEffect(s, e);
    } else {
      OtherEffect(s, e);
    }
  }

  lemma OtherEffect(s: Good, e: Event)
    requires Enabled(s, e) && AreaOf(s, e) != KinArea
    ensures KinAlone(s, PlanOf(s, e)) && ScanOf(s, e).None? && EntryOf(s, e).None?
  {
    hide Core, PlanOf, KinAlone;
    PlanIsRegular(s, e);
  }

  lemma KinEffect(s: Good, e: Event)
    requires Enabled(s, e) && AreaOf(s, e) == KinArea
    ensures Effect(s, e, PlanOf(s, e).next)
    ensures PlanOf(s, e).fin.Block? && PlanOf(s, e).fin.cont.ScanDead? ==>
              e.Wait? && PlanOf(s, e).fin.cont.index == |s.dead| + 1
  {
    hide Core, Within, DropChild, Orphaned, RemoveLoc;
    ActiveAlive(s);
  }

  // ----- the list on every run -------------------------------------------------------

  ghost predicate Exited(s: State, p: int) {
    InTable(s.k, p) && !Alive(s.k, p)
  }

  ghost predicate Distinct(dead: seq<DeadInfo>) {
    forall i, j :: 0 <= i < j < |dead| ==> dead[i].pid != dead[j].pid
  }

  ghost predicate IndexOk(s: State, p: int) {
    ContOf(s.k, p).ScanDead? ==> ContOf(s.k, p).index >= 1
  }

  /** Every entry and everything reported is an exit that happened, and a process exits once. */
  ghost predicate DeadInv(s: State) {
    && (forall d :: d in s.log.exits ==> Exited(s, d.pid))
    && Distinct(s.log.exits) && Distinct(s.dead)
    && (forall d :: d in s.dead ==> d in s.log.exits)
    && (forall d :: d in s.log.reaped ==> d in s.log.exits)
    && (forall p :: Alive(s.k, p) ==> IndexOk(s, p))
  }

  lemma RemoveKeeps(dead: seq<DeadInfo>, loc: int)
    requires Distinct(dead)
    ensures Distinct(RemoveLoc(dead, loc))
    ensures forall d :: d in RemoveLoc(dead, loc) <==> d in dead && !(1 <= loc <= |dead| && d == dead[loc - 1])
  {
    var r := RemoveLoc(dead, loc);
    if 1 <= loc <= |dead| {
      assert forall i :: 0 <= i < |r| ==> r[i] == dead[if i < loc - 1 then i else i + 1];
      forall d | d in dead && d != dead[loc - 1] ensures d in r {
        var i :| 0 <= i < |dead| && dead[i] == d;
        assert r[if i < loc - 1 then i else i - 1] == d;
      }
    }
  }

  lemma AppendKeeps(s: seq<DeadInfo>, d: DeadInfo)
    requires Distinct(s) && forall x :: x in s ==> x.pid != d.pid
    ensures Distinct(s + [d])
  {
    forall i, j | 0 <= i < j < |s + [d]| ensures (s + [d])[i].pid != (s + [d])[j].pid {
      assert s[i] in s;
    }
  }

  lemma DeadStep(s: Good, e: Event)
    requires Enabled(s, e) && DeadInv(s)
    ensures DeadInv(Step(s, e))
  {
    hide Core, Step, PlanOf, Enabled, RemoveLoc, Distinct, Exited, IndexOk;
    StepEffect(s, e);
    var s' := Step(s, e);
    PeopleStep(s, e);
    match ScanOf(s, e)
    case Some(x) => RemoveKeeps(s.dead, x.index + x.j);
    case None =>
      match EntryOf(s, e) {
        case None =>
        case Some(d) =>
          forall x | x in s.log.exits ensures x.pid != d.pid {
            NotExited(s, x.pid);
          }
          AppendKeeps(s.log.exits, d);
          AppendKeeps(s.dead, d);
      }
  }

  lemma NotExited(s: Good, p: int)
    requires Exited(s, p)
    ensures p != s.k.active
  {
  }

  /** Exited processes stay so, a step's exit joins them, and saved counters stay positive. */
  lemma PeopleStep(s: Good, e: Event)
    requires Enabled(s, e) && forall p :: Alive(s.k, p) ==> IndexOk(s, p)
    ensures forall p :: Exited(s, p) ==> Exited(Step(s, e), p)
    ensures e.Exit? ==> Exited(Step(s, e), s.k.active)
    ensures forall p :: Alive(Step(s, e).k, p) ==> IndexOk(Step(s, e), p)
  {
    hide Core, Move, PlanOf, Effect;
    StepEffect(s, e);
    PlanIsRegular(s, e);
    ActiveAlive(s);
    var f, s' := PlanOf(s, e), Step(s, e);
    Self(s, f.wake, f.fin);
    forall p | Exited(s, p) ensures Exited(s', p) {
      Others(s, f.wake, f.fin, p);
    }
    forall p | Alive(s'.k, p) ensures IndexOk(s', p) {
      if p != s.k.active {
        Others(s, f.wake, f.fin, p);
      }
      assert Alive(s.k, p) ==> IndexOk(s, p);
    }
  }

  /** On every run the entries of the dead list are distinct exits, and so is what was reported. */
  lemma {:induction false} EntriesAreDistinctExits(r: Run, n: nat)
    requires n < |r.states|
    ensures DeadInv(r.states[n])
  {
    hide Step, Core, DeadInv;
    if n > 0 {
      EntriesAreDistinctExits(r, n - 1);
      EveryProcessHasOnePlace(r, n - 1);
      DeadStep(r.states[n - 1], r.events[n - 1]);
    } else {
      BootHasNoDead();
    }
  }

  lemma BootHasNoDead()
    ensures DeadInv(Boot())
  {
  }

  lemma RunEffect(r: Run, n: nat)
    requires n < |r.events|
    ensures Effect(r.states[n], r.events[n], r.states[n + 1]) && DeadInv(r.states[n])
    ensures Enabled(r.states[n], r.events[n])
  {
    hide Core, Step, Effect, DeadInv;
    EveryProcessHasOnePlace(r, n);
    EntriesAreDistinctExits(r, n);
    StepEffect(r.states[n], r.events[n]);
  }

  // ----- entries that leave the list ---------------------------------------------------

  /** A second scan whose counter was not reset reports an entry but does not remove it. */
  predicate Misplaced(s: State, e: Event) {
    ScanOf(s, e).Some? && ScanOf(s, e).value.index >= 2
  }

  /** ... and then it removes another entry, if there is one that far down the list. */
  predicate Steals(s: State, e: Event) {
    Misplaced(s, e) && ScanOf(s, e).value.index + ScanOf(s, e).value.j <= |s.dead|
  }

  function Stolen(s: State, e: Event): DeadInfo
    requires Steals(s, e)
  {
    s.dead[ScanOf(s, e).value.index + ScanOf(s, e).value.j - 1]
  }

  lemma DistinctAt(dead: seq<DeadInfo>, i: nat, j: nat)
    requires Distinct(dead) && i < |dead| && j < |dead|
    ensures dead[i] == dead[j] <==> i == j
  {
  }

  /** On every run an entry leaves the dead list without being reported if and only if a second
      scan removes it by the wrong location. */
  lemma TakesOtherIff(r: Run, n: nat, d: DeadInfo)
    requires n < |r.events| && d in r.states[n].dead
    ensures d !in r.states[n + 1].dead && r.states[n + 1].log.reaped != r.states[n].log.reaped + [d]
            <==> Steals(r.states[n], r.events[n]) && d == Stolen(r.states[n], r.events[n])
    ensures d !in r.states[n + 1].dead ==>
              || (Steals(r.states[n], r.events[n]) && d == Stolen(r.states[n], r.events[n]))
              || (ScanOf(r.states[n], r.events[n]).Some? && d == r.states[n].dead[ScanOf(r.states[n], r.events[n]).value.j])
  {
    hide Step, Enabled, RemoveLoc, Distinct, ScanOf;
    RunEffect(r, n);
    var s, e := r.states[n], r.events[n];
    match ScanOf(s, e)
    case None =>
    case Some(x) =>
      ScanIndex(r, n);
      RemoveKeeps(s.dead, x.index + x.j);
      assert s.log.reaped + [s.dead[x.j]] == s.log.reaped + [d] <==> s.dead[x.j] == d by {
        assert (s.log.reaped + [d])[|s.log.reaped|] == d;
        assert (s.log.reaped + [s.dead[x.j]])[|s.log.reaped|] == s.dead[x.j];
      }
      if x.index + x.j <= |s.dead| {
        DistinctAt(s.dead, x.index + x.j - 1, x.j);
      }
  }

  lemma ScanIndex(r: Run, n: nat)
    requires n < |r.events| && ScanOf(r.states[n], r.events[n]).Some?
    ensures ScanOf(r.states[n], r.events[n]).value.index >= 1
    ensures ScanOf(r.states[n], r.events[n]).value.j < |r.states[n].dead|
  {
    hide Step, Core;
    EveryProcessHasOnePlace(r, n);
    ActiveAlive(r.states[n]);
    EntriesAreDistinctExits(r, n);
    assert IndexOk(r.states[n], r.states[n].k.active);
  }

  // ----- the second scan of a blocked Wait ------------------------------------------------

  /** The Wait of step m blocks, and its caller next runs at step n. */
  ghost predicate WaitsFromTo(r: Run, m: nat, n: nat) {
    && m < n < |r.events|
    && r.events[m].Wait? && PlanOf(r.states[m], r.events[m]).fin.Block?
    && Away(r, r.states[m].k.active, m, n) && r.states[n].k.active == r.states[m].k.active
  }

  lemma SecondScan(r: Run, m: nat, n: nat)
    requires WaitsFromTo(r, m, n)
    ensures r.events[n] == Resume
    ensures ContOf(r.states[n].k, r.states[n].k.active) == ScanDead(|r.states[m].dead| + 1)
  {
    hide Step, Core, PlanOf, Effect;
    EveryProcessHasOnePlace(r, m);
    StepEffect(r.states[m], r.events[m]);
    WaitBlocksAs(r.states[m]);
    StaysSuspended(r, m, n);
  }

  lemma WaitBlocksAs(s: Good)
    requires Enabled(s, Wait) && PlanOf(s, Wait).fin.Block?
    ensures PlanOf(s, Wait).fin.cont == ScanDead(|s.dead| + 1)
  {
    hide Core, Within;
  }

  /** On every run, a woken Wait that finds an entry of its own takes that entry off the list if
      and only if the dead list was empty when it blocked.  Otherwise the exit it reports stays
      on the list, to be reported again. */
  lemma RescanRemovesIff(r: Run, m: nat, n: nat, j: nat)
    requires WaitsFromTo(r, m, n)
    requires FindDead(r.states[n].dead, r.states[n].k.active, 0) == Some(j)
    ensures r.states[n].dead[j] !in r.states[n + 1].dead <==> r.states[m].dead == []
    ensures r.states[n + 1].log.reaped == r.states[n].log.reaped + [r.states[n].dead[j]]
  {
    hide Step, Core, PlanOf, RemoveLoc, Distinct;
    SecondScan(r, m, n);
    RunEffect(r, n);
    var d := r.states[n].dead;
    var loc := |r.states[m].dead| + 1 + j;
    RemoveKeeps(d, loc);
    if loc <= |d| {
      DistinctAt(d, loc - 1, j);
    }
  }

  // ----- exactly when a woken Wait fails ----------------------------------------------------

  /** The step takes p's last entry off the list. */
  ghost predicate TakesLast(s: State, e: Event, p: int) {
    Steals(s, e) && Stolen(s, e).ppid == p && forall d :: d in s.dead && d.ppid == p ==> d == Stolen(s, e)
  }

  predicate ChildExits(s: State, e: Event, p: int) {
    EntryOf(s, e).Some? && EntryOf(s, e).value.ppid == p
  }

  lemma HasEntryIs(dead: seq<DeadInfo>, p: int)
    ensures HasEntry(dead, p) <==> exists d :: d in dead && d.ppid == p
  {
    if d :| d in dead && d.ppid == p {
      var i :| 0 <= i < |dead| && dead[i] == d;
      assert dead[i].ppid == p;
    }
  }

  /** What a step of somebody else does to the question whether p has an entry. */
  lemma EntryStep(r: Run, n: nat, p: int)
    requires n < |r.events| && p != r.states[n].k.active
    ensures HasEntry(r.states[n + 1].dead, p) <==>
            || (HasEntry(r.states[n].dead, p) && !TakesLast(r.states[n], r.events[n], p))
            || ChildExits(r.states[n], r.events[n], p)
  {
    hide Step, Enabled, RemoveLoc, Distinct, ScanOf, EntryOf, HasEntry;
    RunEffect(r, n);
    var s, e, s' := r.states[n], r.events[n], r.states[n + 1];
    HasEntryIs(s.dead, p);
    HasEntryIs(s'.dead, p);
    match ScanOf(s, e)
    case Some(x) =>
      ScanIndex(r, n);
      NoEntryToo(s, e);
      RemoveKeeps(s.dead, x.index + x.j);
      ScanIsOwn(s, e);
      if HasEntry(s.dead, p) && !TakesLast(s, e, p) {
        var d :| d in s.dead && d.ppid == p && !(Steals(s, e) && d == Stolen(s, e));
        assert d in s'.dead;
      }
    case None =>
      match EntryOf(s, e) {
        case None =>
        case Some(d) => assert forall x :: x in s'.dead <==> x in s.dead || x == d;
      }
  }

  lemma NoEntryToo(s: State, e: Event)
    requires ScanOf(s, e).Some?
    ensures EntryOf(s, e).None?
  {
  }

  lemma ScanIsOwn(s: State, e: Event)
    requires ScanOf(s, e).Some?
    ensures ScanOf(s, e).value.j < |s.dead| && s.dead[ScanOf(s, e).value.j].ppid == s.k.active
  {
  }

  /** Between m and n a step took p's last entry, and no child of p has exited since. */
  ghost predicate Lost(r: Run, p: int, m: nat, n: nat)
    requires n <= |r.events|
  {
    exists i :: m < i < n && TakesLast(r.states[i], r.events[i], p)
      && forall k :: i < k < n ==> !ChildExits(r.states[k], r.events[k], p)
  }

  lemma LostNext(r: Run, p: int, m: nat, n: nat)
    requires m < n < |r.events|
    ensures Lost(r, p, m, n + 1) <==>
            || TakesLast(r.states[n], r.events[n], p)
            || (Lost(r, p, m, n) && !ChildExits(r.states[n], r.events[n], p))
  {
    hide TakesLast, ChildExits, Step, Enabled;
    if Lost(r, p, m, n + 1) {
      var i :| m < i < n + 1 && TakesLast(r.states[i], r.events[i], p)
        && forall k :: i < k < n + 1 ==> !ChildExits(r.states[k], r.events[k], p);
    }
    if Lost(r, p, m, n) && !ChildExits(r.states[n], r.events[n], p) {
      var i :| m < i < n && TakesLast(r.states[i], r.events[i], p)
        && forall k :: i < k < n ==> !ChildExits(r.states[k], r.events[k], p);
      assert forall k :: i < k < n + 1 ==> !ChildExits(r.states[k], r.events[k], p);
    }
  }

  /** Only the exit of a child takes a process out of the wait list. */
  lemma LeavesWaitList(s: Good, e: Event, p: int)
    requires Enabled(s, e) && p in Q(s.k, WaitQ) && p !in Q(Step(s, e).k, WaitQ)
    ensures ChildExits(s, e, p)
  {
    hide Core, Move, WakeUp, PlanOf;
    PlanIsRegular(s, e);
    ActiveAlive(s);
    var f := PlanOf(s, e);
    MoveLists(s.k, f.wake, f.fin, WaitQ);
    if e.Exit? {
      ExitWakesParent(s, e.status, p);
    } else {
      OnlyExitWakes(s, e);
    }
  }

  lemma OnlyExitWakes(s: Good, e: Event)
    requires Enabled(s, e) && !e.Exit?
    ensures WakesNone(PlanOf(s, e).wake) || PlanOf(s, e).wake.chan != WaitQ
  {
    hide Core, PlanOf;
    if AreaOf(s, e) != KinArea {
      OtherEffect(s, e);
    } else {
      EntriesOnlyLeave(s, e);
    }
  }

  lemma ExitWakesParent(s: Good, status: int, p: int)
    requires Enabled(s, Exit(status)) && p in Q(s.k, WaitQ)
    requires p !in Q(WakeUp(s.k, PlanOf(s, Exit(status)).wake), WaitQ)
    ensures ChildExits(s, Exit(status), p)
  {
    hide Within, Orphaned, DropChild;
    var q := Q(s.k, WaitQ);
    var i :| 0 <= i < |q| && q[i] == p;
    var f := FindPid(q, s.family[s.k.active].ppid, 0);
    Waiter(s, WaitQ, p);
    if f.Some? {
      CutKeeps(q, i, f.value);
    }
  }

  lemma CutKeeps(q: seq<int>, i: nat, f: nat)
    requires i < |q| && f < |q|
    ensures i != f ==> q[i] in q[..f] + q[f + 1..]
  {
    var rest := q[..f] + q[f + 1..];
    if i < f {
      assert rest[i] == q[i];
    } else if i > f {
      assert rest[i - 1] == q[i];
    }
  }

  lemma JoinsWaitList(s: Good)
    requires Enabled(s, Wait) && PlanOf(s, Wait).fin.Block?
    ensures s.k.active in Q(Step(s, Wait).k, WaitQ)
  {
    hide Core, Move, PlanOf;
    WaitBlocksAs(s);
    PlanIsRegular(s, Wait);
    MoveLists(s.k, PlanOf(s, Wait).wake, PlanOf(s, Wait).fin, WaitQ);
  }

  lemma ExitTakesNothing(s: State, e: Event, p: int)
    requires ChildExits(s, e, p)
    ensures !TakesLast(s, e, p)
  {
  }

  /** While the caller of a blocked Wait is away it is in the wait list, or it has been woken and
      has an entry unless that was taken. */
  lemma {:induction false} WhileAway(r: Run, m: nat, n: nat)
    requires m < n < |r.states| && r.events[m].Wait? && PlanOf(r.states[m], r.events[m]).fin.Block?
    requires Away(r, r.states[m].k.active, m, n)
    ensures var p := r.states[m].k.active;
            p !in Q(r.states[n].k, WaitQ) ==> (HasEntry(r.states[n].dead, p) <==> !Lost(r, p, m, n))
    decreases n
  {
    hide Step, Core, PlanOf, HasEntry, Lost, Enabled, TakesLast, ChildExits;
    var p := r.states[m].k.active;
    EveryProcessHasOnePlace(r, n - 1);
    var s, e := r.states[n - 1], r.events[n - 1];
    if n == m + 1 {
      JoinsWaitList(s);
    } else {
      WhileAway(r, m, n - 1);
      EntryStep(r, n - 1, p);
      LostNext(r, p, m, n - 1);
      if ChildExits(s, e, p) {
        ExitTakesNothing(s, e, p);
      }
      if p in Q(s.k, WaitQ) && p !in Q(r.states[n].k, WaitQ) {
        LeavesWaitList(s, e, p);
      }
    }
  }

  /** What a scan that succeeds returns: an exit of a child of the caller, with its status. */
  ghost predicate Collects(r: Run, n: nat, d: DeadInfo)
    requires n < |r.events|
  {
    && d in r.states[n].log.exits && d.ppid == r.states[n].k.active
    && PlanOf(r.states[n], r.events[n]).fin == Ret(d.pid)
    && r.states[n + 1].log.reaped == r.states[n].log.reaped + [d]
  }

  /** On every run, a Wait that blocked at step m and goes on at step n fails if and only if, in
      between, another process's second scan took the caller's last entry and no child of the
      caller has exited since.  Otherwise it returns an exited child of its own. */
  lemma WaitFailsIff(r: Run, m: nat, n: nat)
    requires WaitsFromTo(r, m, n)
    ensures r.events[n] == Resume
    ensures PlanOf(r.states[n], r.events[n]).fin == Ret(ERROR) <==> Lost(r, r.states[m].k.active, m, n)
    ensures !Lost(r, r.states[m].k.active, m, n) ==> exists d :: Collects(r, n, d)
  {
    hide Step, Core, PlanOf, Lost, Distinct, Exited, RemoveLoc;
    var s, p := r.states[n], r.states[m].k.active;
    SecondScan(r, m, n);
    WhileAway(r, m, n);
    EveryProcessHasOnePlace(r, n);
    NotWaiting(s);
    RunEffect(r, n);
    RescanEnds(s);
    var f := FindDead(s.dead, p, 0);
    if f.Some? {
      assert s.dead[f.value] in s.log.exits;
      ExitedPid(s, s.dead[f.value].pid);
      assert Collects(r, n, s.dead[f.value]);
    }
  }

  lemma ExitedPid(s: State, p: int)
    requires Exited(s, p)
    ensures p >= 0
  {
  }

  lemma NotWaiting(s: Good)
    ensures s.k.active !in Q(s.k, WaitQ)
  {
    if s.k.active in Q(s.k, WaitQ) {
      Waiter(s, WaitQ, s.k.active);
    }
  }

  lemma RescanEnds(s: Good)
    requires Enabled(s, Resume) && ContOf(s.k, s.k.active).ScanDead?
    ensures HasEntry(s.dead, s.k.active) <==> FindDead(s.dead, s.k.active, 0).Some?
    ensures PlanOf(s, Resume).fin ==
            match FindDead(s.dead, s.k.active, 0) case None => Ret(ERROR) case Some(j) => Ret(s.dead[j].pid)
  {
    hide Core, Within;
  }

  /** A woken Wait returns an exited child of its own, with its status, and not the final ERROR,
      as long as no second scan removes a wrong entry in the meantime. */
  lemma WokenWaitSucceeds(r: Run, m: nat, n: nat)
    requires WaitsFromTo(r, m, n) && forall i :: m < i < n ==> !Steals(r.states[i], r.events[i])
    ensures exists d :: Collects(r, n, d)
  {
    hide Step, PlanOf, Steals;
    WaitFailsIff(r, m, n);
  }

  // ----- exactly when every exit is accounted for once ------------------------------------------

  /** Every exit is still on the dead list or has been collected, once. */
  ghost predicate Conserved(s: State) {
    multiset(s.log.exits) == multiset(s.dead) + multiset(s.log.reaped)
  }

  /** Too much was reported, or an exit is gone for good. */
  ghost predicate Broken(s: State) {
    |s.dead| + |s.log.reaped| > |s.log.exits| || exists d :: Vanished(s, d)
  }

  ghost predicate Vanished(s: State, d: DeadInfo) {
    d in s.log.exits && d !in s.dead && d !in s.log.reaped
  }

  lemma BrokenIsNot(s: State)
    requires Broken(s)
    ensures !Conserved(s)
  {
    if d :| Vanished(s, d) {
      assert d in multiset(s.log.exits) && d !in multiset(s.dead) + multiset(s.log.reaped);
    } else {
      assert |multiset(s.log.exits)| == |s.log.exits| && |multiset(s.dead) + multiset(s.log.reaped)| == |s.dead| + |s.log.reaped|;
    }
  }

  lemma BrokenStays(r: Run, n: nat)
    requires n < |r.events| && Broken(r.states[n])
    ensures Broken(r.states[n + 1])
  {
    hide Step, Enabled, ScanOf, EntryOf, Distinct, Exited;
    RunEffect(r, n);
    EntriesAreDistinctExits(r, n + 1);
    var s, e, s' := r.states[n], r.events[n], r.states[n + 1];
    if d :| Vanished(s, d) {
      match ScanOf(s, e)
      case Some(x) =>
        ScanIsOwn(s, e);
        RemoveSubset(s.dead, x.index + x.j);
        assert Vanished(s', d);
      case None =>
        match EntryOf(s, e) {
          case None => assert Vanished(s', d);
          case Some(x) =>
            if d == x {
              TwiceIn(s.log.exits, x);
            }
            assert Vanished(s', d);
        }
    }
  }

  lemma RemoveSubset(dead: seq<DeadInfo>, loc: int)
    ensures forall d :: d in RemoveLoc(dead, loc) ==> d in dead
    ensures |RemoveLoc(dead, loc)| >= |dead| - 1
  {
  }

  lemma TwiceIn(s: seq<DeadInfo>, d: DeadInfo)
    requires d in s
    ensures !Distinct(s + [d])
  {
    var i :| 0 <= i < |s| && s[i] == d;
    assert (s + [d])[i].pid == (s + [d])[|s|].pid;
  }

  lemma ConservedStep(r: Run, n: nat)
    requires n < |r.events| && Conserved(r.states[n])
    ensures !Misplaced(r.states[n], r.events[n]) ==> Conserved(r.states[n + 1])
    ensures Misplaced(r.states[n], r.events[n]) ==> Broken(r.states[n + 1])
  {
    hide Step, Enabled, ScanOf, EntryOf, Distinct, Exited, RemoveLoc;
    RunEffect(r, n);
    var s, e, s' := r.states[n], r.events[n], r.states[n + 1];
    match ScanOf(s, e)
    case Some(x) =>
      ScanIndex(r, n);
      if x.index == 1 {
        RemoveAt(s.dead, x.j);
      } else if x.index + x.j <= |s.dead| {
        StolenVanishes(s, s', x.index + x.j - 1, x.j);
      } else {
        RemoveNothing(s.dead, x.index + x.j);
        assert |multiset(s.log.exits)| == |multiset(s.dead) + multiset(s.log.reaped)|;
      }
    case None =>
  }

  lemma RemoveAt(dead: seq<DeadInfo>, j: nat)
    requires j < |dead|
    ensures multiset(dead) == multiset(RemoveLoc(dead, j + 1)) + multiset{dead[j]}
  {
    assert dead == dead[..j] + [dead[j]] + dead[j + 1..];
  }

  lemma RemoveNothing(dead: seq<DeadInfo>, loc: int)
    requires loc > |dead|
    ensures RemoveLoc(dead, loc) == dead
  {
  }

  lemma StolenVanishes(s: State, s': State, i: nat, j: nat)
    requires DeadInv(s) && Conserved(s) && i < |s.dead| && j < |s.dead| && i != j
    requires s'.dead == RemoveLoc(s.dead, i + 1) && s'.log.reaped == s.log.reaped + [s.dead[j]] && s'.log.exits == s.log.exits
    ensures Broken(s')
  {
    hide Exited, RemoveLoc;
    var d := s.dead[i];
    RemoveKeeps(s.dead, i + 1);
    DistinctAt(s.dead, i, j);
    OneCount(s.log.exits, d);
    assert d in multiset(s.dead);
    assert d !in s.log.reaped by {
      assert multiset(s.dead)[d] >= 1 && multiset(s.log.reaped)[d] == 0;
    }
    assert Vanished(s', d);
  }

  lemma {:induction false} OneCount(s: seq<DeadInfo>, d: DeadInfo)
    requires Distinct(s)
    ensures multiset(s)[d] <= 1
  {
    if s != [] {
      var t := s[..|s| - 1];
      assert s == t + [s[|s| - 1]];
      OneCount(t, d);
      assert forall i :: 0 <= i < |t| ==> t[i] == s[i] && t[i].pid != s[|s| - 1].pid;
    }
  }

  /** On every run the exits so far are exactly the dead list plus what was reported, each once, if
      and only if no second scan has used a counter that was not reset. */
  lemma {:induction false} ExitsAccountedIff(r: Run, n: nat)
    requires n < |r.states|
    ensures Conserved(r.states[n]) <==> forall i :: 0 <= i < n ==> !Misplaced(r.states[i], r.events[i])
    ensures Conserved(r.states[n]) || Broken(r.states[n])
  {
    hide Step, Enabled, Misplaced, Conserved, Broken;
    if n > 0 {
      ExitsAccountedIff(r, n - 1);
      if Broken(r.states[n - 1]) {
        BrokenIsNot(r.states[n - 1]);
        BrokenStays(r, n - 1);
        BrokenIsNot(r.states[n]);
      } else {
        ConservedStep(r, n - 1);
        if Misplaced(r.states[n - 1], r.events[n - 1]) {
          BrokenIsNot(r.states[n]);
        }
      }
    } else {
      BootConserved();
    }
  }

  lemma BootConserved()
    ensures Conserved(Boot())
  {
  }

  /** Without such a scan no exit is reported twice, and none that was reported is still listed. */
  lemma CollectedAtMostOnce(r: Run, n: nat, i: nat, j: nat)
    requires n < |r.states| && i < |r.states[n].log.reaped|
    requires forall k :: 0 <= k < n ==> !Misplaced(r.states[k], r.events[k])
    ensures i < j < |r.states[n].log.reaped| ==> r.states[n].log.reaped[i].pid != r.states[n].log.reaped[j].pid
    ensures j < |r.states[n].dead| ==> r.states[n].log.reaped[i].pid != r.states[n].dead[j].pid
    ensures r.states[n].log.reaped[i] in r.states[n].log.exits
  {
    hide Step, Misplaced, Exited;
    ExitsAccountedIff(r, n);
    EntriesAreDistinctExits(r, n);
    var s := r.states[n];
    var all := s.dead + s.log.reaped;
    assert multiset(all) == multiset(s.log.exits);
    DistinctPids(s.log.exits, all);
    assert all[|s.dead| + i] == s.log.reaped[i];
    if j < |s.dead| {
      assert all[j] == s.dead[j];
    }
    if i < j < |s.log.reaped| {
      assert all[|s.dead| + j] == s.log.reaped[j];
    }
  }

  /** Two lists with the same entries agree on whether their pids are distinct. */
  lemma DistinctPids(a: seq<DeadInfo>, b: seq<DeadInfo>)
    requires multiset(a) == multiset(b) && Distinct(a)
    ensures Distinct(b)
  {
    forall i, j | 0 <= i < j < |b| ensures b[i].pid != b[j].pid {
      assert b == b[..i] + [b[i]] + b[i + 1..j] + [b[j]] + b[j + 1..];
      if b[i].pid == b[j].pid {
        assert b[i] in multiset(a) && b[j] in multiset(a);
        assert b[i] in a && b[j] in a;
        assert b[i] == b[j];
        assert multiset(b)[b[i]] >= 2;
        OneCount(a, b[i]);
      }
    }
  }

  // ----- exactly when an exit is reported again -----------------------------------------------------

  /** d is p's first entry. */
  ghost predicate FirstOwn(dead: seq<DeadInfo>, p: int, d: DeadInfo) {
    exists j :: 0 <= j < |dead| && dead[j] == d && d.ppid == p && forall i :: 0 <= i < j ==> dead[i].ppid != p
  }

  /** Where an entry that is not removed goes. */
  lemma RemovedIndex(dead: seq<DeadInfo>, loc: int, i: nat)
    requires i < |dead| && loc != i + 1
    ensures var i' := if 1 <= loc <= i then i - 1 else i;
            0 <= i' < |RemoveLoc(dead, loc)| && RemoveLoc(dead, loc)[i'] == dead[i]
  {
  }

  lemma FirstOwnRemove(dead: seq<DeadInfo>, p: int, d: DeadInfo, loc: int)
    requires FirstOwn(dead, p, d) && !(1 <= loc <= |dead| && dead[loc - 1] == d)
    ensures FirstOwn(RemoveLoc(dead, loc), p, d)
  {
    hide RemoveLoc;
    var j :| 0 <= j < |dead| && dead[j] == d && d.ppid == p && forall i :: 0 <= i < j ==> dead[i].ppid != p;
    var r := RemoveLoc(dead, loc);
    var j' := if 1 <= loc <= j then j - 1 else j;
    RemovedIndex(dead, loc, j);
    assert 0 <= j' < |r| && r[j'] == d;
    forall i | 0 <= i < j' ensures r[i].ppid != p {
      RemovedIndex(dead, loc, if 1 <= loc <= i + 1 then i + 1 else i);
    }
  }

  lemma FirstOwnAppend(dead: seq<DeadInfo>, p: int, d: DeadInfo, x: DeadInfo)
    requires FirstOwn(dead, p, d)
    ensures FirstOwn(dead + [x], p, d)
  {
    var j :| 0 <= j < |dead| && dead[j] == d && d.ppid == p && forall i :: 0 <= i < j ==> dead[i].ppid != p;
    assert (dead + [x])[j] == d && forall i :: 0 <= i < j ==> (dead + [x])[i] == dead[i];
  }

  /** p reports nothing after i and before n. */
  ghost predicate NoReportBy(r: Run, p: int, i: nat, n: nat)
    requires n <= |r.events|
  {
    forall k :: i < k < n && r.states[k].k.active == p ==> ScanOf(r.states[k], r.events[k]).None?
  }

  ghost predicate Takes(s: State, e: Event, d: DeadInfo) {
    Steals(s, e) && Stolen(s, e) == d
  }

  lemma StillFirst(r: Run, n: nat, p: int, d: DeadInfo)
    requires n < |r.events| && FirstOwn(r.states[n].dead, p, d)
    requires r.states[n].k.active == p ==> ScanOf(r.states[n], r.events[n]).None?
    ensures if Takes(r.states[n], r.events[n], d) then d !in r.states[n + 1].dead else FirstOwn(r.states[n + 1].dead, p, d)
  {
    hide Step, Enabled, ScanOf, EntryOf, Distinct, Exited, RemoveLoc, FirstOwn;
    RunEffect(r, n);
    var s, e := r.states[n], r.events[n];
    FirstOwnIn(s.dead, p, d);
    match ScanOf(s, e)
    case Some(x) =>
      ScanIsOwn(s, e);
      ScanIndex(r, n);
      RemoveKeeps(s.dead, x.index + x.j);
      if !Takes(s, e, d) {
        FirstOwnRemove(s.dead, p, d, x.index + x.j);
      }
    case None =>
      match EntryOf(s, e) {
        case None =>
        case Some(x) => FirstOwnAppend(s.dead, p, d, x);
      }
  }

  lemma FirstOwnIn(dead: seq<DeadInfo>, p: int, d: DeadInfo)
    requires FirstOwn(dead, p, d)
    ensures d in dead && d.ppid == p && FindDead(dead, p, 0).Some? && dead[FindDead(dead, p, 0).value] == d
  {
    var j :| 0 <= j < |dead| && dead[j] == d && d.ppid == p && forall i :: 0 <= i < j ==> dead[i].ppid != p;
    assert FindDead(dead, p, 0) == Some(j);
  }

  lemma GoneForGood(r: Run, n: nat, d: DeadInfo)
    requires n < |r.events| && d in r.states[n].log.exits && d !in r.states[n].dead
    ensures d in r.states[n + 1].log.exits && d !in r.states[n + 1].dead
  {
    hide Step, Enabled, ScanOf, EntryOf, Distinct, Exited;
    RunEffect(r, n);
    EntriesAreDistinctExits(r, n + 1);
    var s, e := r.states[n], r.events[n];
    match ScanOf(s, e)
    case Some(x) => RemoveSubset(s.dead, x.index + x.j);
    case None =>
      match EntryOf(s, e) {
        case None =>
        case Some(x) =>
          if d == x {
            TwiceIn(s.log.exits, x);
          }
      }
  }

  lemma {:induction false} FirstOrTaken(r: Run, i: nat, n: nat, p: int, d: DeadInfo)
    requires i < n <= |r.events| && FirstOwn(r.states[i + 1].dead, p, d) && NoReportBy(r, p, i, n)
    ensures if exists k :: i < k < n && Takes(r.states[k], r.events[k], d)
            then d in r.states[n].log.exits && d !in r.states[n].dead
            else FirstOwn(r.states[n].dead, p, d)
    decreases n
  {
    hide Step, Enabled, FirstOwn, Takes, Exited, Distinct;
    if n > i + 1 {
      FirstOrTaken(r, i, n - 1, p, d);
      if exists k :: i < k < n - 1 && Takes(r.states[k], r.events[k], d) {
        GoneForGood(r, n - 1, d);
      } else {
        FirstOwnIn(r.states[n - 1].dead, p, d);
        StillFirst(r, n - 1, p, d);
        EntriesAreDistinctExits(r, n - 1);
        RunEffect(r, n - 1);
        assert d in r.states[n].log.exits by { ExitsGrow(r, n - 1, d); }
      }
    }
  }

  lemma ExitsGrow(r: Run, n: nat, d: DeadInfo)
    requires n < |r.events| && d in r.states[n].log.exits
    ensures d in r.states[n + 1].log.exits
  {
    hide Step, Enabled, ScanOf, EntryOf, DeadInv, RemoveLoc;
    RunEffect(r, n);
  }

  lemma MisplacedKeepsFirst(r: Run, i: nat)
    requires i < |r.events| && Misplaced(r.states[i], r.events[i])
    ensures ScanOf(r.states[i], r.events[i]).value.j < |r.states[i].dead|
    ensures FirstOwn(r.states[i + 1].dead, r.states[i].k.active, r.states[i].dead[ScanOf(r.states[i], r.events[i]).value.j])
  {
    hide Step, Enabled, Exited, RemoveLoc;
    RunEffect(r, i);
    var s, x := r.states[i], ScanOf(r.states[i], r.events[i]).value;
    assert FirstOwn(s.dead, s.k.active, s.dead[x.j]);
    if x.index + x.j <= |s.dead| {
      DistinctAt(s.dead, x.index + x.j - 1, x.j);
    }
    FirstOwnRemove(s.dead, s.k.active, s.dead[x.j], x.index + x.j);
  }

  /** A second scan with a stale counter at step i reports an exit and leaves it listed.  The next
      Wait of the same process (with a live child, and no other report by it in between) reports
      that same exit again if and only if no other second scan has taken it in the meantime. */
  lemma ReportedAgainIff(r: Run, i: nat, n: nat)
    requires i < n < |r.events| && Misplaced(r.states[i], r.events[i])
    requires r.events[n] == Wait && r.states[n].k.active == r.states[i].k.active
    requires NoReportBy(r, r.states[i].k.active, i, n)
    requires 0 <= r.states[n].k.active < |r.states[n].family| && r.states[n].family[r.states[n].k.active].children != []
    ensures ScanOf(r.states[i], r.events[i]).value.j < |r.states[i].dead|
    ensures var d := r.states[i].dead[ScanOf(r.states[i], r.events[i]).value.j];
            r.states[n + 1].log.reaped == r.states[n].log.reaped + [d] <==>
            forall k :: i < k < n ==> !Takes(r.states[k], r.events[k], d)
  {
    hide Step, Enabled, FirstOwn, Takes, Distinct, Exited, RemoveLoc, NoReportBy;
    MisplacedKeepsFirst(r, i);
    var p, d := r.states[i].k.active, r.states[i].dead[ScanOf(r.states[i], r.events[i]).value.j];
    FirstOrTaken(r, i, n, p, d);
    RunEffect(r, n);
    var s := r.states[n];
    if FirstOwn(s.dead, p, d) {
      FirstOwnIn(s.dead, p, d);
    }
    if ScanOf(s, Wait).Some? {
      var x := s.dead[ScanOf(s, Wait).value.j];
      assert (s.log.reaped + [x])[|s.log.reaped|] == x && (s.log.reaped + [d])[|s.log.reaped|] == d;
    }
  }
}
