/**
 Condition variables.  CvarWait gives up the lock and joins the wait list in one step, so no later
 Signal or Broadcast can miss it: over every run the waiter keeps its place, each Signal of its
 condition variable moves it up by one, and the Signal or Broadcast that reaches it makes it ready.
 */
module Cvars {
  import opened Scheduler
  import opened KernelSteps
  import opened KernelRuns

  // ----- what a step does to one wait list -----------------------------------------------

  predicate Signals(s: State, e: Event, h: nat) {
    e.CvarSignal? && e.id >= 0 && FindCvar(s.cvars, e.id, 0) == Some(h)
  }

  predicate Broadcasts(s: State, e: Event, h: nat) {
    e.CvarBroadcast? && e.id >= 0 && FindCvar(s.cvars, e.id, 0) == Some(h)
  }

  /** A Reclaim that finds the condition variable. */
  predicate Disposes(s: State, e: Event, h: nat) {
    e.Reclaim? && e.id >= 0 && FindReclaim(s.reclaims, e.id, 0).Some? &&
    var x := s.reclaims[FindReclaim(s.reclaims, e.id, 0).value];
    x.kind == CvarKind && FindCvar(s.cvars, x.id, 0) == Some(h)
  }

  predicate Joins(s: State, e: Event, h: nat) {
    e.CvarWait? && FindHeld(s.locks, e.lockId, s.k.active, 0).Some? && FindCvar(s.cvars, e.id, 0) == Some(h)
  }

  /** How many waiters of h the step wakes: one, all, half of them rounded up, or none. */
  function WokenBy(s: State, e: Event, h: nat): (n: nat)
    ensures n <= |Q(s.k, CvarQ(h))|
  {
    var q := Q(s.k, CvarQ(h));
    if Signals(s, e, h) then Min(1, |q|) else
    if Broadcasts(s, e, h) then |q| else
    if Disposes(s, e, h) then (|q| + 1) / 2 else 0
  }

  lemma CvarPlan(s: Good, e: Event, h: nat)
    requires Enabled(s, e)
    ensures var w, f := PlanOf(s, e).wake, PlanOf(s, e).fin;
            && (Signals(s, e, h) || Broadcasts(s, e, h) || Disposes(s, e, h) ==>
                  w.Heads? && w.chan == CvarQ(h) && f == Ret(0) && Min(w.count, |Q(s.k, CvarQ(h))|) == WokenBy(s, e, h))
            && (!Signals(s, e, h) && !Broadcasts(s, e, h) && !Disposes(s, e, h) ==>
                  w == NoWake || w == Expire || (!WakesNone(w) && w.chan != CvarQ(h)))
            && (f.Block? && f.cont.CvarBlocked? && f.cont.cvar == h <==> Joins(s, e, h))
  {
    hide Core, Within, PlanOf;
    PlanIsRegular(s, e);
    if e.CvarSignal? || e.CvarBroadcast? || e.Reclaim? {
      WakingPlan(s, e, h);
    } else {
      OtherPlan(s, e, h);
    }
  }

  lemma WakingPlan(s: Good, e: Event, h: nat)
    requires Enabled(s, e) && (e.CvarSignal? || e.CvarBroadcast? || e.Reclaim?)
    ensures PlanOf(s, e).fin.Ret?
    ensures var w, f := PlanOf(s, e).wake, PlanOf(s, e).fin;
            && (Signals(s, e, h) || Broadcasts(s, e, h) || Disposes(s, e, h) ==>
                  w.Heads? && w.chan == CvarQ(h) && f == Ret(0) && Min(w.count, |Q(s.k, CvarQ(h))|) == WokenBy(s, e, h))
            && (!Signals(s, e, h) && !Broadcasts(s, e, h) && !Disposes(s, e, h) ==>
                  w == NoWake || w == Expire || (!WakesNone(w) && w.chan != CvarQ(h)))
  {
    hide Core, Within, Q;
  }

  lemma OtherPlan(s: Good, e: Event, h: nat)
    requires Enabled(s, e) && !e.CvarSignal? && !e.CvarBroadcast? && !e.Reclaim?
    ensures WakesNone(PlanOf(s, e).wake) || PlanOf(s, e).wake.chan != CvarQ(h)
    ensures var f := PlanOf(s, e).fin; f.Block? && f.cont.CvarBlocked? && f.cont.cvar == h <==> Joins(s, e, h)
  {
    hide Core, PlanOf;
    PlanIsRegular(s, e);
    if e.CvarWait? {
      JoinPlan(s, e, h);
    } else {
      NoJoinPlan(s, e);
    }
  }

  lemma JoinPlan(s: Good, e: Event, h: nat)
    requires Enabled(s, e) && e.CvarWait?
    ensures var f := PlanOf(s, e).fin; f.Block? && f.cont.CvarBlocked? && f.cont.cvar == h <==> Joins(s, e, h)
  {
    hide Core, Within;
  }

  lemma NoJoinPlan(s: Good, e: Event)
    requires Enabled(s, e) && !e.CvarWait?
    ensures !(PlanOf(s, e).fin.Block? && PlanOf(s, e).fin.cont.CvarBlocked?)
  {
    hide Core, Within, Q, FindLock, FindHeld, FindDead, FindPipe, FindSem, FindCvar, FindReclaim, FindDisposable, RemoveLoc, Freed;
  }

  /** The whole effect of a step on the wait list of condition variable h: some waiters leave from
      the head, and the caller of a CvarWait on h joins at the tail. */
  lemma CvarStep(s: Good, e: Event, h: nat)
    requires Enabled(s, e)
    ensures Q(Step(s, e).k, CvarQ(h)) ==
            Q(s.k, CvarQ(h))[WokenBy(s, e, h)..] + (if Joins(s, e, h) then [s.k.active] else [])
    ensures WokenBy(s, e, h) > 0 ==> Step(s, e).k.ready == s.k.ready + Q(s.k, CvarQ(h))[..WokenBy(s, e, h)]
  {
    hide Core, Move, PlanOf, WakeUp, Signals, Broadcasts, Disposes, Joins;
    PlanIsRegular(s, e);
    ActiveAlive(s);
    CvarPlan(s, e, h);
    var p, q := PlanOf(s, e), Q(s.k, CvarQ(h));
    MoveLists(s.k, p.wake, p.fin, CvarQ(h));
    if Signals(s, e, h) || Broadcasts(s, e, h) || Disposes(s, e, h) {
      HeadsMove(s.k, CvarQ(h), p.wake.count, 0);
      JoinsNotWakes(s, e, h);
    } else {
      assert q[0..] == q;
    }
  }

  lemma JoinsNotWakes(s: State, e: Event, h: nat)
    requires Signals(s, e, h) || Broadcasts(s, e, h) || Disposes(s, e, h)
    ensures !Joins(s, e, h)
  {
  }

  /** CvarWait releases the lock and joins the wait list in one step. */
  lemma CvarWaitQueues(s: Good, id: int, lockId: int, l: nat, h: nat)
    requires Enabled(s, CvarWait(id, lockId))
    requires FindHeld(s.locks, lockId, s.k.active, 0) == Some(l) && FindCvar(s.cvars, id, 0) == Some(h)
    ensures var s' := Step(s, CvarWait(id, lockId));
            && Q(s'.k, CvarQ(h)) == Q(s.k, CvarQ(h)) + [s.k.active]
            && l < |s'.locks| && !s'.locks[l].locked
  {
    hide Core, WakeUp, Finish, Within;
    CvarStep(s, CvarWait(id, lockId), h);
  }

  /** Nobody leaves the wait list of h but by a Signal, Broadcast or successful Reclaim of h itself. */
  lemma CvarWaitersKept(s: Good, e: Event, h: nat)
    requires Enabled(s, e) && !Signals(s, e, h) && !Broadcasts(s, e, h) && !Disposes(s, e, h)
    ensures Q(s.k, CvarQ(h)) <= Q(Step(s, e).k, CvarQ(h))
  {
    hide Step, Core, Joins;
    CvarStep(s, e, h);
  }

  /** Signal moves exactly the oldest waiter to the tail of the ready queue ... */
  lemma SignalMovesOldest(s: Good, id: int)
    requires Enabled(s, CvarSignal(id)) && id >= 0 && FindCvar(s.cvars, id, 0).Some?
    ensures var q := Q(s.k, CvarQ(FindCvar(s.cvars, id, 0).value));
            var q' := Q(Step(s, CvarSignal(id)).k, CvarQ(FindCvar(s.cvars, id, 0).value));
            var ready' := Step(s, CvarSignal(id)).k.ready;
            if q == [] then q' == [] && ready' == s.k.ready
            else q == [q[0]] + q' && ready' == s.k.ready + [q[0]]
  {
    hide Core, Move, Q, FindCvar, Within;
    ActiveAlive(s);
    var h := FindCvar(s.cvars, id, 0).value;
    HeadsMove(s.k, CvarQ(h), 1, 0);
  }

  /** ... and Broadcast moves all of them, in order. */
  lemma BroadcastMovesAll(s: Good, id: int)
    requires Enabled(s, CvarBroadcast(id)) && id >= 0 && FindCvar(s.cvars, id, 0).Some?
    ensures var h := FindCvar(s.cvars, id, 0).value;
            && Q(Step(s, CvarBroadcast(id)).k, CvarQ(h)) == []
            && Step(s, CvarBroadcast(id)).k.ready == s.k.ready + Q(s.k, CvarQ(h))
  {
    hide Core, Move, Q, FindCvar, Within;
    ActiveAlive(s);
    var h := FindCvar(s.cvars, id, 0).value;
    HeadsMove(s.k, CvarQ(h), |Q(s.k, CvarQ(h))|, 0);
  }

  // ----- a waiter over a run -----------------------------------------------------------------

  /** How many Signals of h there are in steps from..n. */
  ghost function SignalsIn(r: Run, h: nat, from: nat, n: nat): nat
    requires from <= n <= |r.events|
  {
    if n == from then 0 else SignalsIn(r, h, from, n - 1) + (if Signals(r.states[n - 1], r.events[n - 1], h) then 1 else 0)
  }

  /** No Broadcast and no successful Reclaim of h in steps from..n. */
  ghost predicate OnlySignals(r: Run, h: nat, from: nat, n: nat)
    requires n <= |r.events|
  {
    forall k :: from <= k < n ==> !Broadcasts(r.states[k], r.events[k], h) && !Disposes(r.states[k], r.events[k], h)
  }

  lemma QueueShifts(q: seq<int>, q0: seq<int>, d: nat, p: int, k: nat, more: seq<int>)
    requires d <= |q0| && |q| > |q0| - d && q[..|q0| - d] == q0[d..] && q[|q0| - d] == p
    requires k <= 1 && d + k <= |q0|
    ensures var q' := q[k..] + more;
            |q'| > |q0| - (d + k) && q'[..|q0| - (d + k)] == q0[d + k..] && q'[|q0| - (d + k)] == p
  {
    var q', n := q[k..] + more, |q0| - d;
    assert q'[..n - k] == q[..n][k..];
    assert q0[d..][k..] == q0[d + k..];
  }

  /** CvarWait on h at step i, with `ahead` in front: as long as only Signals of h come, and at most as
      many as are ahead, the caller is in the wait list behind those of them not yet signalled. */
  lemma {:induction false} WaiterMovesUp(r: Run, i: nat, h: nat, n: nat)
    requires i < n < |r.states| && Joins(r.states[i], r.events[i], h)
    requires OnlySignals(r, h, i + 1, n) && SignalsIn(r, h, i + 1, n) <= |Q(r.states[i].k, CvarQ(h))|
    ensures var q, ahead, d := Q(r.states[n].k, CvarQ(h)), Q(r.states[i].k, CvarQ(h)), SignalsIn(r, h, i + 1, n);
            && |q| > |ahead| - d && q[..|ahead| - d] == ahead[d..] && q[|ahead| - d] == r.states[i].k.active
    decreases n
  {
    hide Step, Core, Joins, Signals, Broadcasts, Disposes;
    var s, e := r.states[n - 1], r.events[n - 1];
    EveryProcessHasOnePlace(r, n - 1);
    CvarStep(s, e, h);
    var q0 := Q(r.states[i].k, CvarQ(h));
    if n == i + 1 {
      JoinsAlone(s, e, h);
      assert q0[0..] == q0 && (q0 + [s.k.active])[..|q0|] == q0;
    } else {
      WaiterMovesUp(r, i, h, n - 1);
      QueueShifts(Q(s.k, CvarQ(h)), q0, SignalsIn(r, h, i + 1, n - 1), r.states[i].k.active, WokenBy(s, e, h),
                  if Joins(s, e, h) then [s.k.active] else []);
    }
  }

  lemma JoinsAlone(s: State, e: Event, h: nat)
    requires Joins(s, e, h)
    ensures WokenBy(s, e, h) == 0
  {
  }

  /** The Signal that comes after as many Signals as there were waiters ahead makes the caller ready,
      and so does any Broadcast before that. */
  lemma WaiterIsReached(r: Run, i: nat, h: nat, n: nat)
    requires i < n < |r.events| && Joins(r.states[i], r.events[i], h) && OnlySignals(r, h, i + 1, n)
    requires || (Signals(r.states[n], r.events[n], h) && SignalsIn(r, h, i + 1, n) == |Q(r.states[i].k, CvarQ(h))|)
             || (Broadcasts(r.states[n], r.events[n], h) && SignalsIn(r, h, i + 1, n) <= |Q(r.states[i].k, CvarQ(h))|)
    ensures r.states[i].k.active in r.states[n + 1].k.ready
    ensures Signals(r.states[n], r.events[n], h) ==> r.states[n + 1].k.ready == r.states[n].k.ready + [r.states[i].k.active]
  {
    hide Step, Core, Joins, Disposes, OnlySignals;
    var s, e, p := r.states[n], r.events[n], r.states[i].k.active;
    EveryProcessHasOnePlace(r, n);
    WaiterMovesUp(r, i, h, n);
    CvarStep(s, e, h);
    var q := Q(s.k, CvarQ(h));
    if Signals(s, e, h) {
      assert q[..1] == [p];
    } else {
      assert q[..|q|] == q && p in q;
    }
  }

  /** Until it is reached it stays blocked. */
  lemma WaiterStays(r: Run, i: nat, h: nat, n: nat)
    requires i < n < |r.states| && Joins(r.states[i], r.events[i], h)
    requires OnlySignals(r, h, i + 1, n) && SignalsIn(r, h, i + 1, n) <= |Q(r.states[i].k, CvarQ(h))|
    ensures r.states[i].k.active in Q(r.states[n].k, CvarQ(h)) && !Runnable(r.states[n].k, r.states[i].k.active)
  {
    hide Step, Core, Joins, OnlySignals;
    WaiterMovesUp(r, i, h, n);
    EveryProcessHasOnePlace(r, n);
    Waiter(r.states[n], CvarQ(h), r.states[i].k.active);
  }
}
