/**
 What Acquire, Release and CvarWait do, over every run.  A free lock is taken, a held one waited
 for; only the process inside can release; and CvarWait, once woken, competes for its lock again.
 */
module LockCalls {
  import opened Constants
  import opened Scheduler
  import opened KernelSteps
  import opened KernelRuns
  import opened Locks
  import opened Reclaims
  import opened Calls

  /** Nobody is inside lock h. */
  ghost predicate Vacant(s: State, h: nat) { forall p :: !Inside(s, h, p) }

  /** The record of a lock says who is inside. */
  lemma InsideIff(s: State, h: nat)
    requires LockInv(s) && h < |s.locks|
    ensures forall p :: Inside(s, h, p) <==> s.locks[h].locked && s.locks[h].owner == p
    ensures Vacant(s, h) <==> !s.locks[h].locked
  {
    assert LockOk(s, h);
    var t := At0(s.log.lockTrace, h);
    forall p ensures Inside(s, h, p) <==> s.locks[h].locked && s.locks[h].owner == p {
      if Inside(s, h, p) {
        InsideIsOwner(s, h, p);
      }
      if s.locks[h].locked && s.locks[h].owner == p {
        assert t[|t| - 1] == Acq(p);
      }
    }
    if s.locks[h].locked {
      assert Inside(s, h, s.locks[h].owner);
    }
  }

  /** Only lock h changes, and it keeps its id and its place in the list. */
  ghost predicate OnlyLock(s: State, s': State, h: nat) {
    && s' == s.(k := s'.k, locks := s'.locks, log := s.log.(lockTrace := s'.log.lockTrace))
    && h < |s.locks| == |s'.locks| && s'.locks[h].id == s.locks[h].id && s'.locks[h].listed == s.locks[h].listed
    && forall g :: 0 <= g < |s.locks| && g != h ==> s'.locks[g] == s.locks[g]
  }

  /** What an attempt on lock h comes to. */
  ghost predicate TakesOrWaits(s: State, s': State, h: nat) {
    if Vacant(s, h)
    then Returned(s, s', 0) && Inside(s', h, s.k.active) && ListsSame(s, s') && OnlyLock(s, s', h)
    else WaitsIn(s, s', LockQ(h)) && ObjectsSame(s, s')
  }

  lemma Attempt(s: Good, e: Event, h: nat, id: int, seen: bool)
    requires Enabled(s, e) && LockInv(s) && LockInv(Step(s, e)) && h < |s.locks| && PlanOf(s, e) == PlanTryAcquire(s, h, id, seen)
    ensures TakesOrWaits(s, Step(s, e), h)
  {
    hide PlanOf, Enabled, Core, Move, Within, LockInv, Vacant, Inside, WaitsIn, Returned, ListsSame;
    InsideIff(s, h);
    if s.locks[h].locked {
      BlockEnds(s, e, RetryAcquire(h, id, seen));
    } else {
      RetEnds(s, e, 0);
      InsideIff(Step(s, e), h);
    }
  }

  lemma RunInv(r: Run, n: nat)
    requires n < |r.events|
    ensures Core(r.states[n]) && LockInv(r.states[n]) && LockInv(r.states[n + 1])
    ensures Enabled(r.states[n], r.events[n]) && r.states[n + 1] == Step(r.states[n], r.events[n])
  {
    hide Step, Enabled, Core, LockInv;
    EveryProcessHasOnePlace(r, n);
    LocksAreSafe(r, n);
    LocksAreSafe(r, n + 1);
  }

  /** Acquire of a lock that is not there is an error; a vacant one is taken, and an occupied one waited for. */
  lemma AcquireOutcome(r: Run, n: nat, id: int)
    requires n < |r.events| && r.events[n] == Acquire(id)
    ensures NoLock(r.states[n], id) ==> Refused(r.states[n], r.states[n + 1])
    ensures forall h: nat :: LockIs(r.states[n], id, h) ==> TakesOrWaits(r.states[n], r.states[n + 1], h)
  {
    hide Step, Enabled, Core, LockInv, TakesOrWaits, LockIs, NoLock, PlanTryAcquire, OnlyReturned, FindLock;
    RunInv(r, n);
    var s := r.states[n];
    LockFound(s, id);
    match FindLock(s.locks, id, 0)
    case None => RetEnds(s, Acquire(id), ERROR);
    case Some(h) =>
      FoundIn(s, id);
      Attempt(s, Acquire(id), h, id, false);
  }

  lemma FoundIn(s: State, id: int)
    ensures FindLock(s.locks, id, 0).Some? ==> FindLock(s.locks, id, 0).value < |s.locks|
  {
  }

  /** A process that blocked for lock h runs again, and the lock has not been reclaimed: it tries again. */
  lemma RetryOutcome(r: Run, m: nat, n: nat, h: nat)
    requires BlocksFromTo(r, m, n) && PlanOf(r.states[m], r.events[m]).fin.cont.RetryAcquire?
    requires PlanOf(r.states[m], r.events[m]).fin.cont.lock == h && h < |r.states[n].locks| && r.states[n].locks[h].listed
    ensures TakesOrWaits(r.states[n], r.states[n + 1], h)
  {
    hide Step, Enabled, Core, LockInv, TakesOrWaits, PlanTryAcquire, PlanOf;
    RetryComes(r, m, n);
    RunInv(r, n);
    var s := r.states[n];
    var c := ContOf(s.k, s.k.active);
    RetryPlan(s, h);
    Attempt(s, Resume, h, c.lockId, true);
  }

  lemma RetryPlan(s: Good, h: nat)
    requires Enabled(s, Resume) && LockInv(s) && h < |s.locks| && s.locks[h].listed
    requires ContOf(s.k, s.k.active).RetryAcquire? && ContOf(s.k, s.k.active).lock == h
    ensures PlanOf(s, Resume) == PlanTryAcquire(s, h, ContOf(s.k, s.k.active).lockId, true)
  {
    hide Core, Within, PlanTryAcquire;
    ActiveAlive(s);
    assert RetryFits(s, s.k.active);
    LockFound(s, ContOf(s.k, s.k.active).lockId);
    assert ListedLock(s, ContOf(s.k, s.k.active).lockId, h);
  }

  // ----- Release ------------------------------------------------------------------------

  /** The caller is inside a listed lock with that id, the first such being h. */
  ghost predicate HoldsHere(s: State, id: int, h: int) {
    ListedLock(s, id, h) && Inside(s, h, s.k.active)
  }

  ghost predicate HeldIs(s: State, id: int, h: int) {
    HoldsHere(s, id, h) && forall g :: 0 <= g < h ==> !HoldsHere(s, id, g)
  }

  ghost predicate HoldsNone(s: State, id: int) { forall h :: !HoldsHere(s, id, h) }

  lemma HeldFound(s: State, id: int)
    requires LockInv(s)
    ensures FindHeld(s.locks, id, s.k.active, 0).None? <==> HoldsNone(s, id)
    ensures forall h :: HeldIs(s, id, h) <==> FindHeld(s.locks, id, s.k.active, 0) == Some(h)
  {
    hide LockInv, Inside;
    var f := FindHeld(s.locks, id, s.k.active, 0);
    forall h ensures HoldsHere(s, id, h) <==> 0 <= h < |s.locks| && IsHeld(s.locks[h], id, s.k.active) {
      if 0 <= h < |s.locks| {
        InsideIff(s, h);
      }
    }
    if f.Some? {
      assert HoldsHere(s, id, f.value);
    }
    forall h ensures HeldIs(s, id, h) <==> f == Some(h) {
      if HeldIs(s, id, h) {
        assert f.Some?;
      }
    }
  }

  lemma FreedIs(s: State, s': State, l: nat)
    requires LockInv(s) && LockInv(s') && l < |s.locks| && s' == Freed(s, l).(k := s'.k)
    ensures Vacant(s', l) && OnlyLock(s, s', l)
  {
    hide LockInv, Vacant;
    InsideIff(s', l);
  }

  /** Release by a process that is not inside is an error; otherwise the lock is vacant afterwards and
      its oldest waiter is ready. */
  lemma ReleaseOutcome(r: Run, n: nat, id: int)
    requires n < |r.events| && r.events[n] == Release(id)
    ensures HoldsNone(r.states[n], id) ==> Refused(r.states[n], r.states[n + 1])
    ensures forall h: nat :: HeldIs(r.states[n], id, h) ==>
              && Returned(r.states[n], r.states[n + 1], 0) && Vacant(r.states[n + 1], h)
              && FirstWoken(r.states[n], r.states[n + 1], LockQ(h)) && OnlyLock(r.states[n], r.states[n + 1], h)
  {
    hide Enabled, Core, LockInv, Move, HeldIs, HoldsNone, Freed, OnlyReturned, FindHeld, FirstWoken, OnlyLock, Returned, Vacant;
    RunInv(r, n);
    var s := r.states[n];
    HeldFound(s, id);
    match FindHeld(s.locks, id, s.k.active, 0)
    case None => RetEnds(s, Release(id), ERROR);
    case Some(h) =>
      HeldIn(s, id);
      RetEnds(s, Release(id), 0);
      FreedIs(s, r.states[n + 1], h);
  }

  lemma HeldIn(s: State, id: int)
    ensures FindHeld(s.locks, id, s.k.active, 0).Some? ==> FindHeld(s.locks, id, s.k.active, 0).value < |s.locks|
  {
  }

  // ----- CvarWait -----------------------------------------------------------------------

  /** CvarWait by a process outside the lock is an error.  Otherwise the caller is outside afterwards, and it
      is the newest waiter of the condition variable, or has an error if there is none. */
  lemma CvarWaitOutcome(r: Run, n: nat, id: int, lockId: int)
    requires n < |r.events| && r.events[n] == CvarWait(id, lockId)
    ensures HoldsNone(r.states[n], lockId) ==> Refused(r.states[n], r.states[n + 1])
    ensures forall l: nat :: HeldIs(r.states[n], lockId, l) ==>
              && Vacant(r.states[n + 1], l) && OnlyLock(r.states[n], r.states[n + 1], l)
              && (NoCvar(r.states[n], id) ==>
                    Returned(r.states[n], r.states[n + 1], -1) && FirstWoken(r.states[n], r.states[n + 1], LockQ(l)))
              && (forall h: nat :: CvarIs(r.states[n], id, h) ==>
                    && WaitsIn(r.states[n], r.states[n + 1], CvarQ(h))
                    && Q(r.states[n + 1].k, LockQ(l)) == (if Q(r.states[n].k, LockQ(l)) == [] then [] else Q(r.states[n].k, LockQ(l))[1..])
                    && (Q(r.states[n].k, LockQ(l)) != [] ==> Runnable(r.states[n + 1].k, Q(r.states[n].k, LockQ(l))[0])))
  {
    hide Enabled, Core, LockInv, Move, HeldIs, HoldsNone, CvarIs, NoCvar, Freed, OnlyReturned, FindHeld, FindCvar, FirstWoken, OnlyLock,
      Returned, Vacant, WaitsIn, WakeUp;
    RunInv(r, n);
    var s, e := r.states[n], r.events[n];
    HeldFound(s, lockId);
    CvarFound(s, id);
    match FindHeld(s.locks, lockId, s.k.active, 0)
    case None => RetEnds(s, e, ERROR);
    case Some(l) =>
      HeldIn(s, lockId);
      FreedIs(s, r.states[n + 1], l);
      match FindCvar(s.cvars, id, 0) {
        case None => RetEnds(s, e, ERROR);
        case Some(h) =>
          PlanIsRegular(s, e);
          BlockEnds(s, e, CvarBlocked(h, id, lockId));
          FirstLeaves(s, LockQ(l), CvarBlocked(h, id, lockId), r.states[n + 1]);
      }
  }

  lemma FirstLeaves(s: Good, c: Chan, b: Cont, s': State)
    requires MoveOk(s.k, Block(b)) && ChanOf(b) != c && s'.k == Move(s.k, Heads(c, 1), Block(b))
    ensures Q(s'.k, c) == (if Q(s.k, c) == [] then [] else Q(s.k, c)[1..])
    ensures Q(s.k, c) != [] ==> Runnable(s'.k, Q(s.k, c)[0])
  {
    hide Move, Core;
    MoveLists(s.k, Heads(c, 1), Block(b), c);
    if Q(s.k, c) != [] {
      HeadWoken(s, c, Block(b));
    }
  }

  lemma CvarWaitComes(r: Run, m: nat, n: nat, id: int, lockId: int)
    requires BlocksFromTo(r, m, n) && r.events[m] == CvarWait(id, lockId)
    ensures r.events[n] == Resume
    ensures ContOf(r.states[n].k, r.states[n].k.active).CvarBlocked?
    ensures ContOf(r.states[n].k, r.states[n].k.active).cvarId == id && ContOf(r.states[n].k, r.states[n].k.active).lockId == lockId
  {
    hide Step, Core, PlanOf;
    EveryProcessHasOnePlace(r, m);
    CvarWaitBlocks(r.states[m], id, lockId);
    StaysSuspended(r, m, n);
  }

  lemma CvarWaitBlocks(s: Good, id: int, lockId: int)
    requires Enabled(s, CvarWait(id, lockId)) && PlanOf(s, CvarWait(id, lockId)).fin.Block?
    ensures var c := PlanOf(s, CvarWait(id, lockId)).fin.cont; c.CvarBlocked? && c.cvarId == id && c.lockId == lockId
  {
    hide Core, Within, Freed;
  }

  /** A process that blocked in CvarWait at step m runs again at step n.  It returns ERROR if and only if the
      condition variable or the lock is gone; else it takes the lock and returns 0 if that is vacant,
      and waits for it if not. */
  lemma WokenCvarWait(r: Run, m: nat, n: nat, id: int, lockId: int)
    requires BlocksFromTo(r, m, n) && r.events[m] == CvarWait(id, lockId)
    ensures NoCvar(r.states[n], id) || NoLock(r.states[n], lockId) ==> Refused(r.states[n], r.states[n + 1])
    ensures Returned(r.states[n], r.states[n + 1], -1) ==> NoCvar(r.states[n], id) || NoLock(r.states[n], lockId)
    ensures forall l: nat :: LockIs(r.states[n], lockId, l) && !NoCvar(r.states[n], id) ==>
              TakesOrWaits(r.states[n], r.states[n + 1], l)
  {
    hide Step, Enabled, Core, LockInv, TakesOrWaits, LockIs, NoLock, NoCvar, PlanTryAcquire, OnlyReturned, Returned, FindLock, FindCvar, PlanOf;
    CvarWaitComes(r, m, n, id, lockId);
    RunInv(r, n);
    var s := r.states[n];
    LockFound(s, lockId);
    CvarFound(s, id);
    CvarWokenPlan(s, id, lockId);
    if FindCvar(s.cvars, id, 0).None? || FindLock(s.locks, lockId, 0).None? {
      RetEnds(s, Resume, ERROR);
    } else {
      FoundIn(s, lockId);
      Attempt(s, Resume, FindLock(s.locks, lockId, 0).value, lockId, false);
      NotRefused(s, r.states[n + 1], FindLock(s.locks, lockId, 0).value);
    }
  }

  lemma NotRefused(s: State, s': State, h: nat)
    requires TakesOrWaits(s, s', h)
    ensures !Returned(s, s', -1)
  {
    hide Vacant, Inside;
  }

  lemma CvarWokenPlan(s: Good, id: int, lockId: int)
    requires Enabled(s, Resume) && ContOf(s.k, s.k.active).CvarBlocked?
    requires ContOf(s.k, s.k.active).cvarId == id && ContOf(s.k, s.k.active).lockId == lockId
    ensures FindCvar(s.cvars, id, 0).None? || FindLock(s.locks, lockId, 0).None? ==> PlanOf(s, Resume) == Plan(s, NoWake, Ret(ERROR))
    ensures FindCvar(s.cvars, id, 0).Some? && FindLock(s.locks, lockId, 0).Some? ==>
              PlanOf(s, Resume) == PlanTryAcquire(s, FindLock(s.locks, lockId, 0).value, lockId, false)
  {
    hide Core, Within, FindLock, FindCvar, PlanTryAcquire;
  }
}
