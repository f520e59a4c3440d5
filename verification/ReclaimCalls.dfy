/**
 What Reclaim does, over every run: when it is refused, which object it takes out of its list, and whom it wakes.
 A lock can be reclaimed only when nobody is inside it, or by the process that is.  And what that means
 for ids, which count the reclaim records.
 */
module ReclaimCalls {
  import opened Constants
  import opened Scheduler
  import opened KernelSteps
  import opened KernelRuns
  import opened Locks
  import opened Calls
  import opened LockCalls

  /** The older half of the waiters of c, rounded up, joins the tail of the ready queue in order. */
  ghost predicate HalfWoken(s: State, s': State, c: Chan) {
    var q := Q(s.k, c);
    && Q(s'.k, c) == q[(|q| + 1) / 2..] && s'.k.ready == s.k.ready + q[..(|q| + 1) / 2]
    && forall d :: d != c ==> Q(s'.k, d) == Q(s.k, d)
  }

  lemma HalfEnds(s: Good, e: Event, c: Chan)
    requires Enabled(s, e) && PlanOf(s, e).fin == Ret(0) && PlanOf(s, e).wake == Heads(c, (|Q(s.k, c)| + 1) / 2)
    ensures Returned(s, Step(s, e), 0) && HalfWoken(s, Step(s, e), c)
  {
    hide PlanOf, Enabled, Core, Move, WakeUp, Returned, HalfWoken;
    ActiveAlive(s);
    RetEnds(s, e, 0);
    HalfMoved(s, c, Step(s, e));
  }

  lemma HalfMoved(s: State, c: Chan, s': State)
    requires InTable(s.k, s.k.active) && s'.k == Move(s.k, Heads(c, (|Q(s.k, c)| + 1) / 2), Ret(0))
    ensures HalfWoken(s, s', c)
  {
    hide Move, Q;
    HeadsMove(s.k, c, (|Q(s.k, c)| + 1) / 2, 0);
    OthersSame(s.k, c, (|Q(s.k, c)| + 1) / 2, 0);
  }

  /** The record is gone, and everything but it, the scheduler and one kind of objects is as before. */
  ghost predicate Forgotten(s: State, s': State, i: int) {
    && 0 <= i < |s.reclaims|
    && s' == s.(k := s'.k, locks := s'.locks, cvars := s'.cvars, pipes := s'.pipes, reclaims := s.reclaims[..i] + s.reclaims[i + 1..])
  }

  lemma RunInv(r: Run, n: nat)
    requires n < |r.events|
    ensures Core(r.states[n]) && LockInv(r.states[n])
    ensures Enabled(r.states[n], r.events[n]) && r.states[n + 1] == Step(r.states[n], r.events[n])
  {
    hide Step, Enabled, Core, LockInv;
    EveryProcessHasOnePlace(r, n);
    LocksAreSafe(r, n);
  }

  /** An id that is negative or has no record is an error. */
  lemma ReclaimUnknown(r: Run, n: nat, id: int)
    requires n < |r.events| && r.events[n] == Reclaim(id) && (id < 0 || NoRecord(r.states[n], id))
    ensures Refused(r.states[n], r.states[n + 1])
  {
    hide Enabled, Core, LockInv, Move, NoRecord, OnlyReturned, FindReclaim, PlanDestroy;
    RunInv(r, n);
    RecordFound(r.states[n], id);
    RetEnds(r.states[n], Reclaim(id), ERROR);
  }

  lemma DestroyPlan(s: Good, id: int, i: nat)
    requires Enabled(s, Reclaim(id)) && id >= 0 && RecordIs(s, id, i)
    ensures i < |s.reclaims| && s.reclaims[i].id == id && PlanOf(s, Reclaim(id)) == PlanDestroy(s, i)
  {
    hide Core, PlanDestroy, RecordIs;
    RecordFound(s, id);
    RecordIn(s, id);
  }

  lemma RecordIn(s: State, id: int)
    ensures FindReclaim(s.reclaims, id, 0).Some? ==>
              FindReclaim(s.reclaims, id, 0).value < |s.reclaims| && s.reclaims[FindReclaim(s.reclaims, id, 0).value].id == id
  {
  }

  /** A pipe record: the first listed pipe with the id goes out of the list. */
  lemma ReclaimPipeOutcome(r: Run, n: nat, id: int, i: nat)
    requires n < |r.events| && r.events[n] == Reclaim(id) && id >= 0 && RecordIs(r.states[n], id, i)
    requires r.states[n].reclaims[i].kind == PipeKind
    ensures NoPipe(r.states[n], id) ==> Refused(r.states[n], r.states[n + 1])
    ensures forall h: nat :: PipeIs(r.states[n], id, h) ==>
              var s, s' := r.states[n], r.states[n + 1];
              && Returned(s, s', 0) && HalfWoken(s, s', PipeQ(h)) && Forgotten(s, s', i)
              && s'.locks == s.locks && s'.cvars == s.cvars
              && h < |s.pipes| && s'.pipes == s.pipes[h := s.pipes[h].(listed := false)]
  {
    hide Enabled, Core, LockInv, Move, RecordIs, NoPipe, PipeIs, OnlyReturned, Returned, HalfWoken, FindPipe, PlanReclaim, Q, Within;
    RunInv(r, n);
    var s := r.states[n];
    DestroyPlan(s, id, i);
    PipeFound(s, id);
    if FindPipe(s.pipes, id, 0).None? {
      RetEnds(s, Reclaim(id), ERROR);
    } else {
      PipeIn(s, id);
      HalfEnds(s, Reclaim(id), PipeQ(FindPipe(s.pipes, id, 0).value));
    }
  }

  lemma PipeIn(s: State, id: int)
    ensures FindPipe(s.pipes, id, 0).Some? ==> FindPipe(s.pipes, id, 0).value < |s.pipes|
  {
  }

  /** A condition variable record: the same. */
  lemma ReclaimCvarOutcome(r: Run, n: nat, id: int, i: nat)
    requires n < |r.events| && r.events[n] == Reclaim(id) && id >= 0 && RecordIs(r.states[n], id, i)
    requires r.states[n].reclaims[i].kind == CvarKind
    ensures NoCvar(r.states[n], id) ==> Refused(r.states[n], r.states[n + 1])
    ensures forall h: nat :: CvarIs(r.states[n], id, h) ==>
              var s, s' := r.states[n], r.states[n + 1];
              && Returned(s, s', 0) && HalfWoken(s, s', CvarQ(h)) && Forgotten(s, s', i)
              && s'.locks == s.locks && s'.pipes == s.pipes
              && h < |s.cvars| && s'.cvars == s.cvars[h := s.cvars[h].(listed := false)]
  {
    hide Enabled, Core, LockInv, Move, RecordIs, NoCvar, CvarIs, OnlyReturned, Returned, HalfWoken, FindCvar, PlanReclaim, Q, Within;
    RunInv(r, n);
    var s := r.states[n];
    DestroyPlan(s, id, i);
    CvarFound(s, id);
    if FindCvar(s.cvars, id, 0).None? {
      RetEnds(s, Reclaim(id), ERROR);
    } else {
      CvarIn(s, id);
      HalfEnds(s, Reclaim(id), CvarQ(FindCvar(s.cvars, id, 0).value));
    }
  }

  lemma CvarIn(s: State, id: int)
    ensures FindCvar(s.cvars, id, 0).Some? ==> FindCvar(s.cvars, id, 0).value < |s.cvars|
  {
  }

  // ----- locks -----------------------------------------------------------------------------

  /** The caller may reclaim lock h: it is listed under the id, and nobody is inside or the caller is. */
  ghost predicate MayReclaim(s: State, id: int, h: int) {
    ListedLock(s, id, h) && (Vacant(s, h) || Inside(s, h, s.k.active))
  }

  ghost predicate ReclaimedIs(s: State, id: int, h: int) {
    MayReclaim(s, id, h) && forall g :: 0 <= g < h ==> !MayReclaim(s, id, g)
  }

  lemma {:induction false} FirstDisposable(s: seq<Lock>, id: int, p: int, i: nat)
    ensures FindDisposable(s, id, p, i).Some? ==> forall g :: i <= g < FindDisposable(s, id, p, i).value ==> !IsDisposable(s[g], id, p)
    decreases |s| - i
  {
    if i < |s| {
      FirstDisposable(s, id, p, i + 1);
    }
  }

  lemma DisposableFound(s: State, id: int)
    requires LockInv(s)
    ensures FindDisposable(s.locks, id, s.k.active, 0).None? <==> forall h :: !MayReclaim(s, id, h)
    ensures forall h :: ReclaimedIs(s, id, h) <==> FindDisposable(s.locks, id, s.k.active, 0) == Some(h)
    ensures FindDisposable(s.locks, id, s.k.active, 0).Some? ==> FindDisposable(s.locks, id, s.k.active, 0).value < |s.locks|
  {
    hide LockInv, Inside, Vacant;
    FirstDisposable(s.locks, id, s.k.active, 0);
    var f := FindDisposable(s.locks, id, s.k.active, 0);
    forall h ensures MayReclaim(s, id, h) <==> 0 <= h < |s.locks| && IsDisposable(s.locks[h], id, s.k.active) {
      if 0 <= h < |s.locks| {
        InsideIff(s, h);
      }
    }
    if f.Some? {
      assert MayReclaim(s, id, f.value);
    }
    forall h ensures ReclaimedIs(s, id, h) <==> f == Some(h) {
      if ReclaimedIs(s, id, h) {
        assert f.Some?;
      }
    }
  }

  /** A lock record: Reclaim returns 0 if and only if some listed lock with the id has nobody inside, or the
      caller; the first such lock goes out of the list.  Otherwise it is an error and nothing changes. */
  lemma ReclaimLockOutcome(r: Run, n: nat, id: int, i: nat)
    requires n < |r.events| && r.events[n] == Reclaim(id) && id >= 0 && RecordIs(r.states[n], id, i)
    requires r.states[n].reclaims[i].kind == LockKind
    ensures Returned(r.states[n], r.states[n + 1], 0) <==> exists h :: MayReclaim(r.states[n], id, h)
    ensures !(exists h :: MayReclaim(r.states[n], id, h)) ==> Refused(r.states[n], r.states[n + 1])
    ensures forall h: nat :: ReclaimedIs(r.states[n], id, h) ==>
              var s, s' := r.states[n], r.states[n + 1];
              && Returned(s, s', 0) && HalfWoken(s, s', LockQ(h)) && Forgotten(s, s', i)
              && s'.pipes == s.pipes && s'.cvars == s.cvars
              && h < |s.locks| && s'.locks == s.locks[h := s.locks[h].(listed := false)]
  {
    hide Enabled, Core, LockInv, Move, RecordIs, MayReclaim, ReclaimedIs, HalfWoken, FindDisposable, PlanReclaim, Q, Within;
    RunInv(r, n);
    var s := r.states[n];
    DestroyPlan(s, id, i);
    DisposableFound(s, id);
    if FindDisposable(s.locks, id, s.k.active, 0).None? {
      RetEnds(s, Reclaim(id), ERROR);
    } else {
      HalfEnds(s, Reclaim(id), LockQ(FindDisposable(s.locks, id, s.k.active, 0).value));
    }
  }
}
