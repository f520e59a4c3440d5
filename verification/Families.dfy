/**
 Fork, Exit and Wait.  Over every run the live processes form a forest whose children lists
 and parent pids agree, and a process blocked in Wait has a live child and nothing to collect.
 */
module Families {
  import opened Constants
  import opened Scheduler
  import opened KernelSteps
  import opened KernelRuns

  // ----- the process forest -------------------------------------------------

  /** Each listed child is alive, is listed once, and names P as its parent. */
  ghost predicate ParentOk(s: State, P: int)
    requires 0 <= P < |s.family|
  {
    && NoDup(s.family[P].children)
    && (forall c :: c in s.family[P].children ==> Alive(s.k, c) && 0 <= c < |s.family| && s.family[c].ppid == P)
  }

  /** A parent that is named is alive, older, and lists the child. */
  ghost predicate ChildOk(s: State, c: int)
    requires 0 <= c < |s.family|
  {
    var P := s.family[c].ppid;
    P == NOBODY || (Alive(s.k, P) && 0 <= P < c && c in s.family[P].children)
  }

  ghost predicate ForestInv(s: State) {
    && |s.family| == |s.k.pcbs|
    && (forall p :: Alive(s.k, p) ==> ParentOk(s, p) && ChildOk(s, p))
  }

  /** The two views agree: c is P's child exactly when P is c's parent. */
  lemma ChildIffParent(s: State, P: int, c: int)
    requires ForestInv(s) && Alive(s.k, P) && Alive(s.k, c)
    ensures c in s.family[P].children <==> s.family[c].ppid == P
    ensures c in s.family[P].children ==> multiset(s.family[P].children)[c] == 1 && P < c
  {
    assert ParentOk(s, P) && ChildOk(s, c);
    CountOnce(s.family[P].children, c);
  }

  lemma ForestUntouched(s: Good, p: Plan, s': State)
    requires MoveOk(s.k, p.fin) && ForestInv(s) && p.next.family == s.family && !p.fin.Die? && !p.fin.Spawn?
    requires s' == p.next.(k := Move(s.k, p.wake, p.fin))
    ensures ForestInv(s')
  {
    hide Move, Core;
    Self(s, p.wake, p.fin);
    forall x ensures Alive(s'.k, x) <==> Alive(s.k, x) {
      ActiveAlive(s);
      if x != s.k.active {
        Others(s, p.wake, p.fin, x);
      }
    }
    forall x | Alive(s'.k, x) ensures ParentOk(s', x) && ChildOk(s', x) {
      assert ParentOk(s, x) && ChildOk(s, x);
    }
  }

  lemma ForkKeeps(s: Good)
    requires Enabled(s, Fork) && ForestInv(s)
    ensures ForestInv(Step(s, Fork))
  {
    hide Move, Core, Within;
    ActiveAlive(s);
    var s' := Step(s, Fork);
    var a, n := s.k.active, |s.k.pcbs|;
    Self(s, NoWake, Spawn);
    assert ParentOk(s, a);
    NoDupAppend(s.family[a].children, [n]);
    forall x ensures Alive(s'.k, x) <==> Alive(s.k, x) || x == n {
      if x != a {
        Others(s, NoWake, Spawn, x);
      }
    }
    forall x | Alive(s'.k, x) ensures ParentOk(s', x) && ChildOk(s', x) {
      if x != n {
        assert ParentOk(s, x) && ChildOk(s, x);
      }
    }
  }

  lemma DropsOne(q: seq<int>, x: int, y: int)
    requires NoDup(q)
    ensures NoDup(DropPid(q, x)) && (y in DropPid(q, x) <==> y in q && y != x)
  {
    var f := FindPid(q, x, 0);
    if f.Some? {
      CutOne(q, f.value, y);
    }
  }

  lemma CutOne(q: seq<int>, i: nat, y: int)
    requires NoDup(q) && i < |q|
    ensures NoDup(q[..i] + q[i + 1..]) && (y in q[..i] + q[i + 1..] <==> y in q && y != q[i])
  {
    var a, b := q[..i], q[i + 1..];
    assert NoDup(a) && NoDup(b);
    assert forall j :: 0 <= j < |b| ==> b[j] == q[i + 1 + j];
    assert q[i] !in a && q[i] !in b;
    NoDupAppend(a, b);
    assert q == a + [q[i]] + b;
  }

  /** What an exit does to the family of every other process. */
  lemma ExitFamily(s: State, a: int, P: int, x: int)
    requires ForestInv(s) && Alive(s.k, a) && Alive(s.k, x) && x != a && P == s.family[a].ppid
    ensures var f := DropChild(Orphaned(s.family, s.family[a].children), P, a);
            && |f| == |s.family| && NoDup(f[x].children)
            && f[x].ppid == (if s.family[x].ppid == a then NOBODY else s.family[x].ppid)
            && (forall c :: c in f[x].children <==> c in s.family[x].children && c != a)
  {
    assert ParentOk(s, a) && ParentOk(s, x) && ChildOk(s, x) && ChildOk(s, a);
    var f := Orphaned(s.family, s.family[a].children);
    forall c ensures NoDup(DropPid(s.family[x].children, a))
      && (c in DropPid(s.family[x].children, a) <==> c in s.family[x].children && c != a)
    {
      DropsOne(s.family[x].children, a, c);
    }
    assert a in s.family[x].children ==> P == x;
  }

  lemma ExitKeeps(s: Good, status: int)
    requires Enabled(s, Exit(status)) && ForestInv(s)
    ensures ForestInv(Step(s, Exit(status)))
  {
    hide Move, Core, Within, Orphaned, DropChild;
    ActiveAlive(s);
    var p := PlanExit(s, status);
    var s' := Step(s, Exit(status));
    var a := s.k.active;
    var P := s.family[a].ppid;
    Self(s, p.wake, Die);
    ExitNextFamily(s, status);
    forall x ensures Alive(s'.k, x) <==> Alive(s.k, x) && x != a {
      if x != a {
        Others(s, p.wake, Die, x);
      }
    }
    forall x | Alive(s'.k, x) ensures ParentOk(s', x) && ChildOk(s', x) {
      assert ParentOk(s, x) && ChildOk(s, x);
      ExitFamily(s, a, P, x);
      forall c | c in s'.family[x].children ensures s'.family[c].ppid == x {
        ExitFamily(s, a, P, c);
      }
      if s'.family[x].ppid != NOBODY {
        ExitFamily(s, a, P, s'.family[x].ppid);
      }
    }
  }

  lemma ExitNextFamily(s: State, status: int)
    requires Sane(s)
    ensures var f := PlanExit(s, status).next.family;
            && |f| == |s.family|
            && f == DropChild(Orphaned(s.family, s.family[s.k.active].children), s.family[s.k.active].ppid, s.k.active)
  {
  }

  lemma ForestStep(s: Good, e: Event)
    requires Enabled(s, e) && ForestInv(s)
    ensures ForestInv(Step(s, e))
  {
    hide Move, Core, ForestInv, KinAlone, PlanExit, PlanFork;
    PlanIsRegular(s, e);
    match e
    case Fork => ForkKeeps(s);
    case Exit(status) => ExitKeeps(s, status);
    case Wait => ForestUntouched(s, PlanOf(s, e), Step(s, e));
    case _ =>
      ScanFamily(s, e);
      ForestUntouched(s, PlanOf(s, e), Step(s, e));
  }

  lemma ScanFamily(s: Good, e: Event)
    requires Enabled(s, e) && !e.Fork? && !e.Exit?
    ensures PlanOf(s, e).next.family == s.family
  {
    hide Core;
    PlanIsRegular(s, e);
  }

  /** On every run the live processes form a forest ordered by pid. */
  lemma {:induction false} ProcessesFormAForest(r: Run, n: nat)
    requires n < |r.states|
    ensures ForestInv(r.states[n])
  {
    hide PlanOf, Move, Core;
    if n > 0 {
      ProcessesFormAForest(r, n - 1);
      EveryProcessHasOnePlace(r, n - 1);
      ForestStep(r.states[n - 1], r.events[n - 1]);
    }
  }

  // ----- blocked in Wait ------------------------------------------------------

  ghost predicate HasEntry(dead: seq<DeadInfo>, p: int) {
    exists i :: 0 <= i < |dead| && dead[i].ppid == p
  }

  ghost predicate WaiterOk(s: State, p: int)
    requires 0 <= p < |s.family|
  {
    s.family[p].children != [] && !HasEntry(s.dead, p)
  }

  /** Everybody in `wait_list` has a live child and no child to collect. */
  ghost predicate WaitersOk(s: State) {
    && |s.family| == |s.k.pcbs|
    && forall p :: p in Q(s.k, WaitQ) ==> 0 <= p < |s.family| && WaiterOk(s, p)
  }

  lemma WaitersUntouched(s: Good, p: Plan, s': State)
    requires MoveOk(s.k, p.fin) && WaitersOk(s) && KinAlone(s, p)
    requires s' == p.next.(k := Move(s.k, p.wake, p.fin))
    ensures WaitersOk(s')
  {
    hide Move, WakeUp, Core;
    ActiveAlive(s);
    MoveLists(s.k, p.wake, p.fin, WaitQ);
    Self(s, p.wake, p.fin);
    forall x | x in Q(s'.k, WaitQ) ensures 0 <= x < |s'.family| && WaiterOk(s', x) {
      assert WaiterOk(s, x);
    }
  }

  lemma WaitKeepsWaiters(s: Good, e: Event)
    requires Enabled(s, e) && WaitersOk(s) && (e.Wait? || e.Fork? || (e.Resume? && ContOf(s.k, s.k.active).ScanDead?))
    ensures WaitersOk(Step(s, e))
  {
    hide Move, WakeUp, Core, Within;
    ActiveAlive(s);
    var p := PlanOf(s, e);
    var s' := Step(s, e);
    MoveLists(s.k, p.wake, p.fin, WaitQ);
    Self(s, p.wake, p.fin);
    EntriesOnlyLeave(s, e);
    forall x | x in Q(s'.k, WaitQ) ensures 0 <= x < |s'.family| && WaiterOk(s', x) {
      if x in Q(s.k, WaitQ) {
        assert WaiterOk(s, x);
        assert HasEntry(s'.dead, x) ==> HasEntry(s.dead, x);
      }
    }
  }

  lemma EntriesOnlyLeave(s: Good, e: Event)
    requires Enabled(s, e) && (e.Wait? || e.Fork? || (e.Resume? && ContOf(s.k, s.k.active).ScanDead?))
    ensures forall d :: d in PlanOf(s, e).next.dead ==> d in s.dead
    ensures !e.Fork? ==> PlanOf(s, e).next.family == s.family
    ensures PlanOf(s, e).wake == NoWake
  {
    hide Core, Within;
  }

  /** An exit wakes its parent out of the wait list, so the new entry finds nobody waiting. */
  lemma ExitKeepsWaiters(s: Good, status: int)
    requires Enabled(s, Exit(status)) && WaitersOk(s) && ForestInv(s)
    ensures WaitersOk(Step(s, Exit(status)))
  {
    hide Move, WakeUp, Core, Within, Orphaned, DropChild;
    ActiveAlive(s);
    var p := PlanExit(s, status);
    var s' := Step(s, Exit(status));
    var a := s.k.active;
    var P := s.family[a].ppid;
    Self(s, p.wake, Die);
    MoveLists(s.k, p.wake, Die, WaitQ);
    ExitNextFamily(s, status);
    forall x | x in Q(s'.k, WaitQ) ensures 0 <= x < |s'.family| && WaiterOk(s', x) {
      ParentLeaves(s, p.wake, P, x);
      assert WaiterOk(s, x);
      Waiter(s, WaitQ, x);
      ExitFamily(s, a, P, x);
      assert ParentOk(s, x);
      var c := s.family[x].children[0];
      assert c in s.family[x].children && c != a;
      assert c in s'.family[x].children;
      assert HasEntry(s'.dead, x) ==> HasEntry(s.dead, x);
    }
  }

  lemma ParentLeaves(s: Good, w: Wake, P: int, x: int)
    requires w == (match FindPid(Q(s.k, WaitQ), P, 0) case None => NoWake case Some(j) => At(WaitQ, j))
    requires x in Q(WakeUp(s.k, w), WaitQ)
    ensures x in Q(s.k, WaitQ) && x != P
  {
    var q := Q(s.k, WaitQ);
    assert NoDup(q);
    var f := FindPid(q, P, 0);
    if f.Some? {
      assert q == q[..f.value] + [q[f.value]] + q[f.value + 1..];
    }
  }

  lemma WaiterStep(s: Good, e: Event)
    requires Enabled(s, e) && WaitersOk(s) && ForestInv(s)
    ensures WaitersOk(Step(s, e))
  {
    hide Move, Core, ForestInv, KinAlone, WaitersOk, PlanExit, PlanFork, PlanWait, PlanRescan;
    PlanIsRegular(s, e);
    if e.Exit? {
      ExitKeepsWaiters(s, e.status);
    } else if AreaOf(s, e) == KinArea {
      WaitKeepsWaiters(s, e);
    } else {
      WaitersUntouched(s, PlanOf(s, e), Step(s, e));
    }
  }

  /** On every run, whoever is blocked in Wait has a live child and nothing to collect. */
  lemma {:induction false} WaitersHaveLiveChildren(r: Run, n: nat)
    requires n < |r.states|
    ensures WaitersOk(r.states[n])
  {
    hide PlanOf, Move, Core, ForestInv;
    if n > 0 {
      WaitersHaveLiveChildren(r, n - 1);
      EveryProcessHasOnePlace(r, n - 1);
      ProcessesFormAForest(r, n - 1);
      WaiterStep(r.states[n - 1], r.events[n - 1]);
    }
  }

  // ----- the first scan ---------------------------------------------------------

  /** Wait collects a dead child exactly when it has one and also has a live child: with
      only dead children left it answers ERROR. */
  lemma WaitCollectsIff(s: Good)
    requires Enabled(s, Wait)
    ensures PlanWait(s).next.log.reaped != s.log.reaped <==>
            s.family[s.k.active].children != [] && HasEntry(s.dead, s.k.active)
    ensures s.family[s.k.active].children == [] ==> PlanWait(s).fin == Ret(ERROR) && PlanWait(s).next == s
  {
    hide Core, Within;
    var f := FindDead(s.dead, s.k.active, 0);
    if f.Some? {
      assert s.log.reaped + [s.dead[f.value]] != s.log.reaped;
    }
  }
}
