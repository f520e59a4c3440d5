/**
 What Fork, Exit and Wait do, over every run: the pids they return, the families, the dead list, and who is
 woken.
 */
module KinCalls {
  import opened Constants
  import opened Scheduler
  import opened KernelSteps
  import opened KernelRuns
  import opened Families
  import opened DeadList
  import opened Calls

  lemma RunInv(r: Run, n: nat)
    requires n < |r.events|
    ensures Core(r.states[n]) && ForestInv(r.states[n])
    ensures Enabled(r.states[n], r.events[n]) && r.states[n + 1] == Step(r.states[n], r.events[n])
  {
    hide Step, Enabled, Core, ForestInv;
    EveryProcessHasOnePlace(r, n);
    ProcessesFormAForest(r, n);
  }

  /** Fork returns the next pid to the parent; the child, last in the ready queue, will find 0 in register 0.  It is the
      newest child of its parent and has none itself. */
  lemma ForkOutcome(r: Run, n: nat)
    requires n < |r.events| && r.events[n] == Fork
    ensures var s, s', a, child := r.states[n], r.states[n + 1], r.states[n].k.active, |r.states[n].k.pcbs|;
            && Returned(s, s', child) && s' == s.(k := s'.k, family := s'.family)
            && s'.k.ready == s.k.ready + [child] && (forall c :: Q(s'.k, c) == Q(s.k, c))
            && |s'.k.pcbs| == child + 1 && s'.k.pcbs[child] == Pcb(true, User, 0)
            && (forall p :: 0 <= p < child && p != a ==> s'.k.pcbs[p] == s.k.pcbs[p])
            && |s.family| == child && |s'.family| == child + 1 && s'.family[child] == Kin(a, [])
            && 0 <= a < child && s'.family[a] == s.family[a].(children := s.family[a].children + [child])
            && (forall p :: 0 <= p < child && p != a ==> s'.family[p] == s.family[p])
  {
    hide Core, ForestInv, Within;
    RunInv(r, n);
    ActiveAlive(r.states[n]);
  }

  /** Exit: the caller is dead and every child of it has no parent.  If it has a parent, the dead list gains its entry at the
      end, and the parent's children are those without it; a parent that waits leaves the wait list
      for the ready queue.  No other family, object or list changes. */
  lemma ExitOutcome(r: Run, n: nat, status: int)
    requires n < |r.events| && r.events[n] == Exit(status)
    ensures |r.states[n].family| == |r.states[n + 1].family| && 0 <= r.states[n].k.active < |r.states[n].family|
    ensures var s, s', a := r.states[n], r.states[n + 1], r.states[n].k.active;
            var P := s.family[a].ppid;
            && InTable(s'.k, a) && !s'.k.pcbs[a].alive
            && s' == s.(k := s'.k, family := s'.family, dead := s'.dead, log := s.log.(exits := s'.log.exits))
            && s'.dead == (if P == -1 then s.dead else s.dead + [DeadInfo(P, a, status)])
            && (forall x :: Alive(s.k, x) && x != a ==>
                  && 0 <= x < |s.family|
                  && s'.family[x].ppid == (if s.family[x].ppid == a then -1 else s.family[x].ppid)
                  && (forall c :: c in s'.family[x].children <==> c in s.family[x].children && !(x == P && c == a)))
            && (forall c :: c != WaitQ ==> Q(s'.k, c) == Q(s.k, c))
            && (P !in Q(s.k, WaitQ) ==> Q(s'.k, WaitQ) == Q(s.k, WaitQ))
            && (forall i :: 0 <= i < |Q(s.k, WaitQ)| && Q(s.k, WaitQ)[i] == P ==>
                  Q(s'.k, WaitQ) == Q(s.k, WaitQ)[..i] + Q(s.k, WaitQ)[i + 1..] && Runnable(s'.k, P))
  {
    hide Enabled, Core, ForestInv, Move, WakeUp, Within, Orphaned, DropChild, FindPid, PlanExit;
    RunInv(r, n);
    var s, s', a := r.states[n], r.states[n + 1], r.states[n].k.active;
    ActiveAlive(s);
    ExitBooks(s, status);
    ExitLists(s, status);
    forall x | Alive(s.k, x) && x != a
      ensures && 0 <= x < |s.family|
              && s'.family[x].ppid == (if s.family[x].ppid == a then -1 else s.family[x].ppid)
              && (forall c :: c in s'.family[x].children <==> c in s.family[x].children && !(x == s.family[a].ppid && c == a))
    {
      ExitKin(s, status, x);
    }
  }

  lemma ExitBooks(s: Good, status: int)
    requires Enabled(s, Exit(status))
    ensures var p, P := PlanExit(s, status), s.family[s.k.active].ppid;
            && |p.next.family| == |s.family| && 0 <= s.k.active < |s.family| && p.fin == Die
            && p.next == s.(family := p.next.family, dead := p.next.dead, log := s.log.(exits := p.next.log.exits))
            && p.next.dead == (if P == -1 then s.dead else s.dead + [DeadInfo(P, s.k.active, status)])
    ensures var s' := Step(s, Exit(status)); InTable(s'.k, s.k.active) && !s'.k.pcbs[s.k.active].alive
  {
    hide Core, Move, Within, FindPid;
    ActiveAlive(s);
    PlanIsRegular(s, Exit(status));
    Self(s, PlanExit(s, status).wake, Die);
  }

  lemma ExitKin(s: Good, status: int, x: int)
    requires Enabled(s, Exit(status)) && ForestInv(s) && Alive(s.k, x) && x != s.k.active
    ensures var f, a := PlanExit(s, status).next.family, s.k.active;
            && 0 <= x < |s.family| == |f| && 0 <= a < |s.family|
            && f[x].ppid == (if s.family[x].ppid == a then -1 else s.family[x].ppid)
            && (forall c :: c in f[x].children <==> c in s.family[x].children && !(x == s.family[a].ppid && c == a))
  {
    hide Core, Within, Orphaned, DropChild, FindPid;
    ActiveAlive(s);
    var a := s.k.active;
    var P := s.family[a].ppid;
    assert ParentOk(s, a) && ChildOk(s, a) && ParentOk(s, x) && ChildOk(s, x);
    ExitFamily(s, a, P, x);
    DropNobody(Orphaned(s.family, s.family[a].children), a);
  }

  lemma DropNobody(f: seq<Kin>, a: int)
    ensures DropChild(f, NOBODY, a) == f
  {
  }

  lemma ExitLists(s: Good, status: int)
    requires Enabled(s, Exit(status))
    ensures var s', P, q := Step(s, Exit(status)), s.family[s.k.active].ppid, Q(s.k, WaitQ);
            && (forall c :: c != WaitQ ==> Q(s'.k, c) == Q(s.k, c))
            && (P !in q ==> Q(s'.k, WaitQ) == q)
            && (forall i :: 0 <= i < |q| && q[i] == P ==> Q(s'.k, WaitQ) == q[..i] + q[i + 1..] && Runnable(s'.k, P))
  {
    hide Core, Move, Within, Orphaned, DropChild;
    ActiveAlive(s);
    var w := PlanExit(s, status).wake;
    var q, P := Q(s.k, WaitQ), s.family[s.k.active].ppid;
    forall c ensures c != WaitQ ==> Q(Step(s, Exit(status)).k, c) == Q(s.k, c) {
      MoveLists(s.k, w, Die, c);
    }
    MoveLists(s.k, w, Die, WaitQ);
    ParentPlace(s, P);
    var f := FindPid(q, P, 0);
    if f.Some? {
      Waiter(s, WaitQ, P);
      PlanIsRegular(s, Exit(status));
      Others(s, w, Die, P);
    }
  }

  lemma ParentPlace(s: Good, P: int)
    ensures var q := Q(s.k, WaitQ);
            FindPid(q, P, 0).None? <==> P !in q
    ensures forall i :: 0 <= i < |Q(s.k, WaitQ)| && Q(s.k, WaitQ)[i] == P ==> FindPid(Q(s.k, WaitQ), P, 0) == Some(i)
  {
    assert NoDup(Q(s.k, WaitQ));
  }

  // ----- Wait -------------------------------------------------------------------------------

  /** The j-th entry of the dead list is the first of a child of the caller. */
  ghost predicate EntryIs(s: State, j: int) {
    0 <= j < |s.dead| && s.dead[j].ppid == s.k.active && forall i :: 0 <= i < j ==> s.dead[i].ppid != s.k.active
  }

  ghost predicate NoEntry(s: State) {
    forall i :: 0 <= i < |s.dead| ==> s.dead[i].ppid != s.k.active
  }

  lemma EntryFound(s: State)
    ensures FindDead(s.dead, s.k.active, 0).None? <==> NoEntry(s)
    ensures forall j :: EntryIs(s, j) <==> FindDead(s.dead, s.k.active, 0) == Some(j)
  {
    var f := FindDead(s.dead, s.k.active, 0);
    forall j ensures EntryIs(s, j) <==> f == Some(j) {
      if EntryIs(s, j) {
        assert f.Some?;
      }
    }
  }

  /** A scan that reports entry j and removes location loc (counted from 1), if there is one. */
  ghost predicate Collects(s: State, s': State, j: nat, loc: int) {
    && j < |s.dead| && Returned(s, s', s.dead[j].pid) && ListsSame(s, s')
    && s'.dead == (if 1 <= loc <= |s.dead| then s.dead[..loc - 1] + s.dead[loc..] else s.dead)
    && s' == s.(k := s'.k, dead := s'.dead, log := s.log.(reaped := s.log.reaped + [s.dead[j]]))
  }

  /** Wait without a live child is an error; with an entry it returns the pid of the first and removes it;
      otherwise the caller is the newest of the wait list. */
  lemma WaitOutcome(r: Run, n: nat)
    requires n < |r.events| && r.events[n] == Wait
    ensures 0 <= r.states[n].k.active < |r.states[n].family|
    ensures var s, s' := r.states[n], r.states[n + 1];
            && (s.family[s.k.active].children == [] ==> Refused(s, s'))
            && (forall j: nat :: s.family[s.k.active].children != [] && EntryIs(s, j) ==> Collects(s, s', j, j + 1))
            && (s.family[s.k.active].children != [] && NoEntry(s) ==> WaitsIn(s, s', WaitQ) && ObjectsSame(s, s'))
  {
    hide Enabled, Core, Move, Within, EntryIs, NoEntry, FindDead, OnlyReturned, Returned, ListsSame, WaitsIn, ForestInv;
    RunInv(r, n);
    var s := r.states[n];
    ActiveAlive(s);
    EntryFound(s);
    FoundInList(s);
    if s.family[s.k.active].children == [] {
      RetEnds(s, Wait, ERROR);
    } else if FindDead(s.dead, s.k.active, 0).Some? {
      RetEnds(s, Wait, s.dead[FindDead(s.dead, s.k.active, 0).value].pid);
    } else {
      BlockEnds(s, Wait, ScanDead(|s.dead| + 1));
    }
  }

  lemma FoundInList(s: State)
    ensures FindDead(s.dead, s.k.active, 0).Some? ==> FindDead(s.dead, s.k.active, 0).value < |s.dead|
  {
  }

  /** A Wait that blocked at step m and runs again at step n: it returns the pid of its first entry and removes the location
      that is as far behind that entry as the dead list was long at step m; without an entry it is an
      error. */
  lemma RescanOutcome(r: Run, m: nat, n: nat)
    requires WaitsFromTo(r, m, n)
    ensures var s, s' := r.states[n], r.states[n + 1];
            && (NoEntry(s) ==> Refused(s, s'))
            && (forall j: nat :: EntryIs(s, j) ==> Collects(s, s', j, j + 1 + |r.states[m].dead|))
  {
    hide Enabled, Core, Move, Within, EntryIs, NoEntry, FindDead, OnlyReturned, Returned, ListsSame, ForestInv, WaitsFromTo;
    InRange(r, m, n);
    SecondScan(r, m, n);
    RunInv(r, n);
    var s := r.states[n];
    EntryFound(s);
    FoundInList(s);
    if FindDead(s.dead, s.k.active, 0).Some? {
      RetEnds(s, Resume, s.dead[FindDead(s.dead, s.k.active, 0).value].pid);
    } else {
      RetEnds(s, Resume, ERROR);
    }
  }

  lemma InRange(r: Run, m: nat, n: nat)
    requires WaitsFromTo(r, m, n)
    ensures m < n < |r.events|
  {
    hide Step, Enabled, PlanOf;
  }
}
