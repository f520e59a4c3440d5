/**
 Semaphores.  Over every run the signed count, the wait list and the history agree: the
 waits let through are exactly the first min(waits, signals) of them, in arrival order.
 */
module Semaphores {
  import opened Scheduler
  import opened KernelSteps
  import opened KernelRuns

  /** One semaphore against its history: who called wait, who was let through, how many signals. */
  ghost predicate SemOk(count: int, q: seq<int>, arrivals: seq<int>, passed: seq<int>, signals: nat) {
    && |q| == (if count < 0 then -count else 0)
    && count == signals - |arrivals|
    && arrivals == passed + q
  }

  /** What follows for the caller: exactly min(waits, signals) waits have passed, the oldest ones. */
  lemma PassedInOrder(count: int, q: seq<int>, arrivals: seq<int>, passed: seq<int>, signals: nat)
    requires SemOk(count, q, arrivals, passed, signals)
    ensures |passed| == Min(|arrivals|, signals) && passed == arrivals[..Min(|arrivals|, signals)]
  {
  }

  /** A wait arrives: it joins the queue exactly when the decremented count is negative. */
  lemma WaitedOk(count: int, q: seq<int>, arrivals: seq<int>, passed: seq<int>, signals: nat, p: int)
    requires SemOk(count, q, arrivals, passed, signals)
    ensures count - 1 < 0 ==> SemOk(count - 1, q + [p], arrivals + [p], passed, signals)
    ensures count - 1 >= 0 ==> SemOk(count - 1, q, arrivals + [p], passed + [p], signals)
  {
    assert passed + (q + [p]) == (passed + q) + [p];
  }

  /** A signal: it lets the oldest waiter through exactly when there is one. */
  lemma SignalledOk(count: int, q: seq<int>, arrivals: seq<int>, passed: seq<int>, signals: nat)
    requires SemOk(count, q, arrivals, passed, signals)
    ensures count + 1 <= 0 && q != [] ==> SemOk(count + 1, q[1..], arrivals, passed + [q[0]], signals + 1)
    ensures count + 1 > 0 || q == [] ==> SemOk(count + 1, q, arrivals, passed, signals + 1)
  {
    if q != [] {
      assert passed + [q[0]] + q[1..] == passed + q;
    }
  }

  ghost predicate SemAt(s: State, h: nat)
    requires h < |s.sems|
  {
    && s.sems[h].id == h
    && SemOk(s.sems[h].count, Q(s.k, SemQ(h)), At0(s.log.arrivals, h), At0(s.log.passed, h), SignalsOf(s.log, h))
  }

  ghost predicate SemFits(s: State, p: int) {
    ContOf(s.k, p).SemPassed? ==> ContOf(s.k, p).sem < |s.sems|
  }

  ghost predicate Unused(g: Log, h: nat) {
    At0(g.arrivals, h) == [] && At0(g.passed, h) == [] && SignalsOf(g, h) == 0
  }

  ghost predicate SemInv(s: State) {
    && s.nextSem == |s.sems|
    && (forall h :: 0 <= h < |s.sems| ==> SemAt(s, h))
    && (forall h :: h >= |s.sems| ==> Unused(s.log, h))
    && (forall p :: Alive(s.k, p) ==> SemFits(s, p))
  }

  lemma SemsFit(s: Good, w: Wake, f: Fin, s': State)
    requires Moved(s, w, f, s') && SemInv(s) && |s.sems| <= |s'.sems|
    requires f.Block? && f.cont.SemPassed? ==> f.cont.sem < |s.sems|
    ensures forall p :: Alive(s'.k, p) ==> SemFits(s', p)
  {
    hide Move, Core;
    ActiveAlive(s);
    forall p | Alive(s'.k, p) ensures SemFits(s', p) {
      Self(s, w, f);
      if p != s.k.active {
        Others(s, w, f, p);
      }
      if Alive(s.k, p) {
        assert SemFits(s, p);
      }
    }
  }

  lemma OtherSem(s: Good, w: Wake, f: Fin, s': State, g: nat)
    requires Moved(s, w, f, s') && g < |s.sems| && g < |s'.sems| && SemAt(s, g) && s'.sems[g] == s.sems[g]
    requires At0(s'.log.arrivals, g) == At0(s.log.arrivals, g) && At0(s'.log.passed, g) == At0(s.log.passed, g)
    requires SignalsOf(s'.log, g) == SignalsOf(s.log, g)
    requires WakesNone(w) || w.chan != SemQ(g)
    requires f.Block? ==> ChanOf(f.cont) != SemQ(g)
    ensures SemAt(s', g)
  {
    hide Move, WakeUp, Core;
    ActiveAlive(s);
    MoveLists(s.k, w, f, SemQ(g));
  }

  lemma SemsUntouched(s: Good, p: Plan, s': State)
    requires MoveOk(s.k, p.fin) && SemInv(s) && SemsAlone(s, p)
    requires s' == p.next.(k := Move(s.k, p.wake, p.fin))
    ensures SemInv(s')
  {
    hide Move, Core, SemAt;
    SemsFit(s, p.wake, p.fin, s');
    forall g | g >= |s.sems| ensures Unused(s'.log, g) {
      assert Unused(s.log, g);
    }
    forall g | 0 <= g < |s'.sems| ensures SemAt(s', g) {
      assert SemAt(s, g);
      OtherSem(s, p.wake, p.fin, s', g);
    }
  }

  /** A step on semaphore h that keeps it right keeps them all right. */
  lemma OneSem(s: Good, p: Plan, s': State, h: nat)
    requires MoveOk(s.k, p.fin) && SemInv(s) && h < |s.sems|
    requires s' == p.next.(k := Move(s.k, p.wake, p.fin)) && s'.nextSem == s.nextSem
    requires |s'.sems| == |s.sems| && s'.sems == s.sems[h := s'.sems[h]]
    requires forall g: nat :: g != h ==> At0(s'.log.arrivals, g) == At0(s.log.arrivals, g)
    requires forall g: nat :: g != h ==> At0(s'.log.passed, g) == At0(s.log.passed, g)
    requires forall g: nat :: g != h ==> SignalsOf(s'.log, g) == SignalsOf(s.log, g)
    requires WakesNone(p.wake) || p.wake.chan == SemQ(h)
    requires p.fin.Block? ==> p.fin.cont == SemPassed(h)
    requires SemAt(s', h)
    ensures SemInv(s')
  {
    hide Move, Core, SemAt;
    SemsFit(s, p.wake, p.fin, s');
    forall g | g >= |s.sems| ensures Unused(s'.log, g) {
      assert Unused(s.log, g);
    }
    forall g | 0 <= g < |s'.sems| ensures SemAt(s', g) {
      assert SemAt(s, g);
      if g != h {
        OtherSem(s, p.wake, p.fin, s', g);
      }
    }
  }

  lemma SemCallIs(s: Good, e: Event)
    requires Enabled(s, e) && (e.SemSignal? || e.SemWait?)
    ensures PlanOf(s, e) == if e.SemSignal? then PlanSemSignal(s, e.id) else PlanSemWait(s, e.id)
  {
  }

  lemma SignalKeeps(s: Good, id: int)
    requires Enabled(s, SemSignal(id)) && SemInv(s)
    ensures SemInv(Step(s, SemSignal(id)))
  {
    hide PlanOf, Move, Core, Within, SemOk;
    ActiveAlive(s);
    SemCallIs(s, SemSignal(id));
    var p := PlanSemSignal(s, id);
    var s' := Step(s, SemSignal(id));
    var h := FindSem(s.sems, id, 0).value;
    assert SemAt(s, h);
    MoveLists(s.k, p.wake, p.fin, SemQ(h));
    HeadsMove(s.k, SemQ(h), 1, 0);
    SignalledOk(s.sems[h].count, Q(s.k, SemQ(h)), At0(s.log.arrivals, h), At0(s.log.passed, h), SignalsOf(s.log, h));
    OneSem(s, p, s', h);
  }

  lemma WaitKeeps(s: Good, id: int)
    requires Enabled(s, SemWait(id)) && SemInv(s)
    ensures SemInv(Step(s, SemWait(id)))
  {
    hide PlanOf, Move, Core, Within, SemOk;
    ActiveAlive(s);
    SemCallIs(s, SemWait(id));
    var p := PlanSemWait(s, id);
    var s' := Step(s, SemWait(id));
    var h := FindSem(s.sems, id, 0).value;
    assert SemAt(s, h);
    MoveLists(s.k, p.wake, p.fin, SemQ(h));
    WaitedOk(s.sems[h].count, Q(s.k, SemQ(h)), At0(s.log.arrivals, h), At0(s.log.passed, h), SignalsOf(s.log, h), s.k.active);
    OneSem(s, p, s', h);
  }

  lemma SemInitKeeps(s: Good)
    requires Enabled(s, SemInit) && SemInv(s)
    ensures SemInv(Step(s, SemInit))
  {
    hide Move, Core, Within;
    ActiveAlive(s);
    var n := |s.sems|;
    var p := PlanSemInit(s);
    var s' := Step(s, SemInit);
    SemsFit(s, p.wake, p.fin, s');
    MoveLists(s.k, p.wake, p.fin, SemQ(n));
    if Q(s.k, SemQ(n)) != [] {
      var x := Q(s.k, SemQ(n))[0];
      Waiter(s, SemQ(n), x);
    }
    assert Unused(s.log, n);
    forall g | g > n ensures Unused(s'.log, g) {
      assert Unused(s.log, g);
    }
    forall g | 0 <= g < |s'.sems| ensures SemAt(s', g) {
      if g < n {
        assert SemAt(s, g);
        OtherSem(s, p.wake, p.fin, s', g);
      }
    }
  }

  lemma SemStep(s: Good, e: Event)
    requires Enabled(s, e) && SemInv(s)
    ensures SemInv(Step(s, e))
  {
    hide Move, Core, SemInv, SemsAlone, PlanSemWait, PlanSemSignal, PlanSemInit;
    PlanIsRegular(s, e);
    if AreaOf(s, e) == SemArea {
      match e
      case SemInit => SemInitKeeps(s);
      case SemSignal(id) => SignalKeeps(s, id);
      case SemWait(id) => WaitKeeps(s, id);
    } else {
      SemsUntouched(s, PlanOf(s, e), Step(s, e));
    }
  }

  /** On every run: `count` is signals minus waits, the wait list is as long as `count` is
      negative, blocked waits are let through in arrival order, and semaphore k is the
      (k+1)-th of the list. */
  lemma {:induction false} SemaphoresCount(r: Run, n: nat)
    requires n < |r.states|
    ensures SemInv(r.states[n])
  {
    hide PlanOf, Move, Core;
    if n > 0 {
      SemaphoresCount(r, n - 1);
      EveryProcessHasOnePlace(r, n - 1);
      SemStep(r.states[n - 1], r.events[n - 1]);
    }
  }

  /** The number of waits that have passed semaphore h is min(waits, signals), on every run. */
  lemma PassedIsMin(r: Run, n: nat, h: nat)
    requires n < |r.states| && h < |r.states[n].sems|
    ensures var g := r.states[n].log;
            var m := Min(|At0(g.arrivals, h)|, SignalsOf(g, h));
            At0(g.passed, h) == At0(g.arrivals, h)[..m]
    ensures FindSem(r.states[n].sems, h, 0) == Some(h)
  {
    hide Step;
    SemaphoresCount(r, n);
    var s := r.states[n];
    assert SemAt(s, h);
    PassedInOrder(s.sems[h].count, Q(s.k, SemQ(h)), At0(s.log.arrivals, h), At0(s.log.passed, h), SignalsOf(s.log, h));
    var f := FindSem(s.sems, h, 0);
    if f.Some? {
      assert SemAt(s, f.value);
    }
  }
}
