/**
 Locks.  Over every run, reclaims included: acquires and releases
 of a lock strictly alternate, each release made by the process that acquired it; and a
 free lock that somebody waits for always has a runnable process about to retry it.
 */
module Locks {
  import opened Constants
  import opened Scheduler
  import opened ReadyQueue
  import opened KernelSteps
  import opened KernelRuns

  /** Acquire, release by the same process, acquire, release, ... */
  ghost predicate Alternates(t: seq<LockEv>) {
    forall i :: 0 <= i < |t| ==> InTurn(t, i)
  }

  ghost predicate InTurn(t: seq<LockEv>, i: int)
    requires 0 <= i < |t|
  {
    if i % 2 == 0 then t[i].Acq? else t[i] == Rel(t[i - 1].pid)
  }

  /** The trace is well formed and the lock record says who, if anybody, is inside. */
  ghost predicate TraceOk(l: Lock, t: seq<LockEv>) {
    && Alternates(t)
    && (l.locked <==> |t| % 2 == 1)
    && (l.locked ==> t[|t| - 1] == Acq(l.owner))
  }

  ghost predicate Retrying(k: Sched, p: int, h: nat) {
    Runnable(k, p) && ContOf(k, p).RetryAcquire? && ContOf(k, p).lock == h
  }

  ghost predicate NoLostWakeup(s: State, h: nat)
    requires h < |s.locks|
  {
    s.locks[h].listed && !s.locks[h].locked && Q(s.k, LockQ(h)) != [] ==> exists p :: Retrying(s.k, p, h)
  }

  /** A retry refers to a lock that exists, by its right id. */
  ghost predicate RetryFits(s: State, p: int) {
    ContOf(s.k, p).RetryAcquire? ==>
      ContOf(s.k, p).lock < |s.locks| && s.locks[ContOf(s.k, p).lock].id == ContOf(s.k, p).lockId
  }

  ghost predicate LockOk(s: State, h: nat)
    requires h < |s.locks|
  {
    TraceOk(s.locks[h], At0(s.log.lockTrace, h)) && NoLostWakeup(s, h)
  }

  ghost predicate LockInv(s: State) {
    && (forall h :: 0 <= h < |s.locks| ==> LockOk(s, h))
    && (forall p :: Alive(s.k, p) ==> RetryFits(s, p))
    && (forall h :: h >= |s.locks| ==> At0(s.log.lockTrace, h) == [])
  }

  /** A lock that a step does not concern keeps its state and its retrying process. */
  lemma OtherLock(s: Good, w: Wake, f: Fin, s': State, g: nat)
    requires Moved(s, w, f, s') && g < |s.locks| && g < |s'.locks| && LockOk(s, g)
    requires s'.locks[g] == s.locks[g] && At0(s'.log.lockTrace, g) == At0(s.log.lockTrace, g)
    requires (w.Heads? || w.At?) ==> w.chan != LockQ(g)
    requires f.Block? ==> ChanOf(f.cont) != LockQ(g)
    requires ContOf(s.k, s.k.active).RetryAcquire? ==> ContOf(s.k, s.k.active).lock != g
    ensures LockOk(s', g)
  {
    hide Move, WakeUp, Core;
    MoveLists(s.k, w, f, LockQ(g));
    if s.locks[g].listed && !s.locks[g].locked && Q(s.k, LockQ(g)) != [] {
      var p :| Retrying(s.k, p, g);
      Others(s, w, f, p);
      assert Retrying(s'.k, p, g);
    }
  }

  /** Locks never lose their id, so retries keep fitting. */
  lemma RetriesFit(s: Good, w: Wake, f: Fin, s': State)
    requires Moved(s, w, f, s') && LockInv(s)
    requires |s.locks| <= |s'.locks| && forall h :: 0 <= h < |s.locks| ==> s'.locks[h].id == s.locks[h].id
    requires f.Block? && f.cont.RetryAcquire? ==> f.cont.lock < |s.locks| && s.locks[f.cont.lock].id == f.cont.lockId
    ensures forall p :: Alive(s'.k, p) ==> RetryFits(s', p)
  {
    hide Move, Core;
    ActiveAlive(s);
    forall p | Alive(s'.k, p) ensures RetryFits(s', p) {
      Self(s, w, f);
      if p != s.k.active {
        Others(s, w, f, p);
        if Alive(s.k, p) {
          assert RetryFits(s, p);
        }
      } else {
        assert RetryFits(s, p);
      }
    }
  }

  /** A step that has nothing to do with locks. */
  lemma LocksUntouched(s: Good, w: Wake, f: Fin, s': State)
    requires Moved(s, w, f, s') && LockInv(s)
    requires s'.locks == s.locks && s'.log.lockTrace == s.log.lockTrace
    requires (w.Heads? || w.At?) ==> !w.chan.LockQ?
    requires f.Block? ==> !f.cont.RetryAcquire?
    requires !ContOf(s.k, s.k.active).RetryAcquire?
    ensures LockInv(s')
  {
    hide Move, Core;
    RetriesFit(s, w, f, s');
    forall h | 0 <= h < |s'.locks| ensures LockOk(s', h) {
      assert LockOk(s, h);
      OtherLock(s, w, f, s', h);
    }
  }

  /** A step that concerns lock h only. */
  lemma OneLock(s: Good, w: Wake, f: Fin, s': State, h: nat)
    requires Moved(s, w, f, s') && LockInv(s) && h < |s.locks|
    requires |s'.locks| == |s.locks| && s'.locks == s.locks[h := s'.locks[h]] && s'.locks[h].id == s.locks[h].id
    requires s'.log.lockTrace == s.log.lockTrace[h := At0(s'.log.lockTrace, h)] || s'.log.lockTrace == s.log.lockTrace
    requires (w.Heads? || w.At?) ==> w.chan == LockQ(h)
    requires f.Block? && f.cont.RetryAcquire? ==> f.cont.lock == h && f.cont.lockId == s.locks[h].id
    requires ContOf(s.k, s.k.active).RetryAcquire? ==> ContOf(s.k, s.k.active).lock == h
    requires LockOk(s', h)
    ensures LockInv(s')
  {
    hide Move, Core;
    RetriesFit(s, w, f, s');
    forall g | 0 <= g < |s'.locks| ensures LockOk(s', g) {
      if g != h {
        assert LockOk(s, g);
        OtherLock(s, w, f, s', g);
      }
    }
    forall g: nat | g >= |s'.locks| ensures At0(s'.log.lockTrace, g) == [] {
      assert At0(s.log.lockTrace, g) == [];
    }
  }

  /** Taking a free lock, or giving back one's own, extends a well-formed trace. */
  lemma TraceGrows(l: Lock, t: seq<LockEv>, l': Lock, ev: LockEv)
    requires TraceOk(l, t)
    requires ev.Acq? ==> !l.locked && l'.locked && l'.owner == ev.pid
    requires ev.Rel? ==> l.locked && !l'.locked && l.owner == ev.pid
    ensures TraceOk(l', t + [ev])
  {
    var t' := t + [ev];
    forall i | 0 <= i < |t'| ensures InTurn(t', i) {
      if i < |t| {
        assert InTurn(t, i);
      }
    }
  }

  lemma TryAcquireKeeps(s: Good, h: nat, id: int, seen: bool, s': State)
    requires s.k.active != IDLE && LockInv(s) && h < |s.locks| && s.locks[h].id == id
    requires ContOf(s.k, s.k.active).RetryAcquire? ==> ContOf(s.k, s.k.active).lock == h
    requires var p := PlanTryAcquire(s, h, id, seen); s' == p.next.(k := Move(s.k, p.wake, p.fin))
    ensures LockInv(s')
  {
    hide Move, Core;
    var p := PlanTryAcquire(s, h, id, seen);
    ActiveAlive(s);
    assert LockOk(s, h);
    if !s.locks[h].locked {
      TraceGrows(s.locks[h], At0(s.log.lockTrace, h), s'.locks[h], Acq(s.k.active));
    }
    OneLock(s, p.wake, p.fin, s', h);
  }

  /** Releasing wakes the first waiter, which is then runnable and about to retry. */
  lemma ReleaseKeeps(s: Good, h: nat, f: Fin, s': State)
    requires MoveOk(s.k, f) && LockInv(s) && h < |s.locks|
    requires s.locks[h].locked && s.locks[h].owner == s.k.active
    requires f.Ret? || (f.Block? && f.cont.CvarBlocked?)
    requires !ContOf(s.k, s.k.active).RetryAcquire?
    requires s' == Freed(s, h).(k := Move(s.k, Heads(LockQ(h), 1), f))
    ensures LockInv(s')
  {
    hide Move, Core;
    var w := Heads(LockQ(h), 1);
    assert LockOk(s, h);
    var q := Q(s.k, LockQ(h));
    MoveLists(s.k, w, f, LockQ(h));
    TraceGrows(s.locks[h], At0(s.log.lockTrace, h), s'.locks[h], Rel(s.k.active));
    if q != [] {
      HeadWoken(s, LockQ(h), f);
      assert Retrying(s'.k, q[0], h);
    }
    OneLock(s, w, f, s', h);
  }

  lemma LockInitKeeps(s: Good)
    requires Enabled(s, LockInit) && LockInv(s)
    ensures LockInv(Step(s, LockInit))
  {
    hide Core, Move, WakeUp, Within;
    ActiveAlive(s);
    var s' := Step(s, LockInit);
    var n := |s.locks|;
    RetriesFit(s, NoWake, Ret(0), s');
    MoveLists(s.k, NoWake, Ret(0), LockQ(n));
    if Q(s.k, LockQ(n)) != [] {
      var p := Q(s.k, LockQ(n))[0];
      Waiter(s, LockQ(n), p);
    }
    forall g | 0 <= g < |s'.locks| ensures LockOk(s', g) {
      if g < n {
        assert LockOk(s, g);
        OtherLock(s, NoWake, Ret(0), s', g);
      }
    }
  }

  lemma ReclaimKeepsLocks(s: Good, id: int)
    requires Enabled(s, Reclaim(id)) && LockInv(s)
    ensures LockInv(Step(s, Reclaim(id)))
  {
    hide Move, LockInv, Core, DestroysOne, LocksAlone, PlanReclaim;
    PlanIsRegular(s, Reclaim(id));
    DestroysOneLock(s, id);
    DestroyKeeps(s, PlanReclaim(s, id), Step(s, Reclaim(id)));
  }

  lemma DestroyKeeps(s: Good, p: Plan, s': State)
    requires LockInv(s) && MoveOk(s.k, p.fin) && !ContOf(s.k, s.k.active).RetryAcquire?
    requires LocksAlone(s, p) || DestroysOne(s, p)
    requires s' == p.next.(k := Move(s.k, p.wake, p.fin))
    ensures LockInv(s')
  {
    hide Move, Core, LockInv;
    if LocksAlone(s, p) {
      LocksUntouched(s, p.wake, p.fin, s');
    } else {
      DisposeKeeps(s, p.wake.chan.lock, p.wake.count, s');
    }
  }

  ghost predicate DestroysOne(s: State, p: Plan) {
    && p.wake.Heads? && p.wake.chan.LockQ? && p.wake.chan.lock < |s.locks| && p.fin == Ret(0)
    && p.next.locks == s.locks[p.wake.chan.lock := s.locks[p.wake.chan.lock].(listed := false)]
    && p.next.log == s.log
  }

  lemma DestroysOneLock(s: State, id: int)
    ensures LocksAlone(s, PlanReclaim(s, id)) || DestroysOne(s, PlanReclaim(s, id))
  {
    hide Q, DestroyCount, RemoveLoc, Within;
  }

  /** Once a lock is out of the list nothing is promised about its waiters. */
  lemma DisposeKeeps(s: Good, h: nat, n: nat, s': State)
    requires LockInv(s) && h < |s.locks| && !ContOf(s.k, s.k.active).RetryAcquire?
    requires s'.locks == s.locks[h := s.locks[h].(listed := false)] && s'.log == s.log
    requires s'.k == Move(s.k, Heads(LockQ(h), n), Ret(0))
    ensures LockInv(s')
  {
    assert LockOk(s, h);
    OneLock(s, Heads(LockQ(h), n), Ret(0), s', h);
  }

  lemma RetryKeeps(s: Good)
    requires Enabled(s, Resume) && LockInv(s) && ContOf(s.k, s.k.active).RetryAcquire?
    ensures LockInv(Step(s, Resume))
  {
    PlanIsRegular(s, Resume);
    var c := ContOf(s.k, s.k.active);
    var s' := Step(s, Resume);
    assert RetryFits(s, s.k.active);
    assert LockOk(s, c.lock);
    if !c.seen && FindLock(s.locks, c.lockId, 0).None? {
      // the lock has been reclaimed, so nothing is promised about its waiters
      assert !s.locks[c.lock].listed;
      OneLock(s, NoWake, Ret(ERROR), s', c.lock);
    } else {
      TryAcquireKeeps(s, c.lock, c.lockId, true, s');
    }
  }

  lemma AcquireKeeps(s: Good, id: int, s': State)
    requires s.k.active != IDLE && LockInv(s)
    requires !ContOf(s.k, s.k.active).RetryAcquire?
    requires var p := PlanAcquire(s, id); s' == p.next.(k := Move(s.k, p.wake, p.fin))
    ensures LockInv(s')
  {
    match FindLock(s.locks, id, 0)
    case None => LocksUntouched(s, NoWake, Ret(ERROR), s');
    case Some(h) => TryAcquireKeeps(s, h, id, false, s');
  }

  lemma CvarWaitKeeps(s: Good, id: int, lockId: int)
    requires Enabled(s, CvarWait(id, lockId)) && LockInv(s)
    ensures LockInv(Step(s, CvarWait(id, lockId)))
  {
    PlanIsRegular(s, CvarWait(id, lockId));
    var p := PlanCvarWait(s, id, lockId);
    var s' := Step(s, CvarWait(id, lockId));
    match FindHeld(s.locks, lockId, s.k.active, 0)
    case None => LocksUntouched(s, NoWake, Ret(ERROR), s');
    case Some(h) => ReleaseKeeps(s, h, p.fin, s');
  }

  lemma LockStep(s: Good, e: Event)
    requires Enabled(s, e) && LockInv(s)
    ensures LockInv(Step(s, e))
  {
    hide PlanOf, Move, Core, LockInv;
    PlanIsRegular(s, e);
    if AreaOf(s, e) == LockArea {
      LockCallKeeps(s, e);
    } else if e.Reclaim? {
      ReclaimKeepsLocks(s, e.id);
    } else {
      LocksUntouched(s, PlanOf(s, e).wake, PlanOf(s, e).fin, Step(s, e));
    }
  }

  lemma LockCallKeeps(s: Good, e: Event)
    requires Enabled(s, e) && LockInv(s) && AreaOf(s, e) == LockArea
    ensures LockInv(Step(s, e))
  {
    hide Core, LockInv, Move;
    PlanIsRegular(s, e);
    ActiveAlive(s);
    match e
    case LockInit => LockInitKeeps(s);
    case Acquire(id) => AcquireKeeps(s, id, Step(s, e));
    case Release(id) =>
      if FindHeld(s.locks, id, s.k.active, 0).None? {
        LocksUntouched(s, NoWake, Ret(ERROR), Step(s, e));
      } else {
        ReleaseKeeps(s, FindHeld(s.locks, id, s.k.active, 0).value, Ret(0), Step(s, e));
      }
    case CvarWait(id, lockId) => CvarWaitKeeps(s, id, lockId);
    case Resume =>
      var c := ContOf(s.k, s.k.active);
      if c.RetryAcquire? {
        RetryKeeps(s);
      } else if FindCvar(s.cvars, c.cvarId, 0).Some? {
        AcquireKeeps(s, c.lockId, Step(s, e));
      } else {
        LocksUntouched(s, NoWake, Ret(ERROR), Step(s, e));
      }
  }

  // ----- the theorems -------------------------------------------------------

  /** Lock safety and no lost wake-up, in every state of every run. */
  lemma {:induction false} LocksAreSafe(r: Run, n: nat)
    requires n < |r.states|
    ensures LockInv(r.states[n])
  {
    hide PlanOf, Move, Core;
    if n > 0 {
      LocksAreSafe(r, n - 1);
      EveryProcessHasOnePlace(r, n - 1);
      LockStep(r.states[n - 1], r.events[n - 1]);
    }
  }

  /** p is inside lock h: its last acquire has not been followed by a release. */
  ghost predicate Inside(s: State, h: nat, p: int) {
    var t := At0(s.log.lockTrace, h);
    exists i :: 0 <= i < |t| && t[i] == Acq(p) && forall j :: i < j < |t| ==> t[j] != Rel(p)
  }

  /** Mutual exclusion: on every run at most one process is between an acquire and its release. */
  lemma MutualExclusion(r: Run, n: nat, h: nat, p: int, q: int)
    requires n < |r.states| && Inside(r.states[n], h, p) && Inside(r.states[n], h, q)
    ensures p == q && h < |r.states[n].locks| && r.states[n].locks[h].locked && r.states[n].locks[h].owner == p
  {
    LocksAreSafe(r, n);
    InsideIsOwner(r.states[n], h, p);
    InsideIsOwner(r.states[n], h, q);
  }

  lemma InsideIsOwner(s: State, h: nat, p: int)
    requires LockInv(s) && Inside(s, h, p)
    ensures h < |s.locks| && s.locks[h].locked && s.locks[h].owner == p
  {
    var t := At0(s.log.lockTrace, h);
    assert h < |s.locks| && LockOk(s, h);
    LastIsInside(t, p);
  }

  lemma LastIsInside(t: seq<LockEv>, p: int)
    requires Alternates(t)
    requires exists i :: 0 <= i < |t| && t[i] == Acq(p) && forall j :: i < j < |t| ==> t[j] != Rel(p)
    ensures t[|t| - 1] == Acq(p) && |t| % 2 == 1
  {
    var i :| 0 <= i < |t| && t[i] == Acq(p) && forall j :: i < j < |t| ==> t[j] != Rel(p);
    assert InTurn(t, i);
    assert i + 1 < |t| ==> InTurn(t, i + 1);
  }

  /** The only thing a step does to the trace of a lock is to add its own acquire or release. */
  ghost predicate TraceStep(s: State, p: Plan, h: nat) {
    var t, t' := At0(s.log.lockTrace, h), At0(p.next.log.lockTrace, h);
    t' == t || t' == t + [Acq(s.k.active)] || t' == t + [Rel(s.k.active)]
  }

  lemma TraceSteps(s: Good, e: Event, h: nat)
    requires Enabled(s, e)
    ensures TraceStep(s, PlanOf(s, e), h)
  {
    hide PlanOf, Core, Enabled;
    PlanIsRegular(s, e);
    match AreaOf(s, e)
    case LockArea => LockTrace(s, e, h);
    case ReclaimArea => ReclaimLogs(s, e);
    case _ =>
  }

  lemma ReclaimLogs(s: Good, e: Event)
    requires Enabled(s, e) && AreaOf(s, e) == ReclaimArea
    ensures PlanOf(s, e).next.log == s.log
  {
    hide Core, Within;
  }

  lemma AcquireTrace(s: State, id: int, h: nat)
    ensures TraceStep(s, PlanAcquire(s, id), h)
  {
  }

  lemma FreedTrace(s: State, l: nat, h: nat)
    requires l < |s.locks|
    ensures var t, t' := At0(s.log.lockTrace, h), At0(Freed(s, l).log.lockTrace, h);
            t' == t || t' == t + [Rel(s.k.active)]
  {
  }

  lemma ReleaseTrace(s: Good, e: Event, h: nat)
    requires Enabled(s, e) && (e.Release? || e.CvarWait?)
    ensures TraceStep(s, PlanOf(s, e), h)
  {
    hide Core, Within, Freed, At0;
    var l := FindHeld(s.locks, if e.Release? then e.id else e.lockId, s.k.active, 0);
    if l.Some? {
      FreedTrace(s, l.value, h);
    }
  }

  lemma LockTrace(s: Good, e: Event, h: nat)
    requires Enabled(s, e) && AreaOf(s, e) == LockArea
    ensures TraceStep(s, PlanOf(s, e), h)
  {
    hide Within, Core;
    match e
    case Acquire(id) => AcquireTrace(s, id, h);
    case Release(_) => ReleaseTrace(s, e, h);
    case CvarWait(_, _) => ReleaseTrace(s, e, h);
    case Resume => ResumeTrace(s, h);
    case LockInit =>
  }

  lemma ResumeTrace(s: Good, h: nat)
    requires Enabled(s, Resume) && AreaOf(s, Resume) == LockArea
    ensures TraceStep(s, PlanResume(s), h)
  {
    hide Within, Core;
    var c := ContOf(s.k, s.k.active);
    if c.CvarBlocked? {
      AcquireTrace(s, c.lockId, h);
    }
  }

  lemma RunTraceSteps(r: Run, n: nat, h: nat)
    requires n < |r.events|
    ensures var a, t, t' := r.states[n].k.active, At0(r.states[n].log.lockTrace, h), At0(r.states[n + 1].log.lockTrace, h);
            t' == t || t' == t + [Acq(a)] || t' == t + [Rel(a)]
  {
    hide PlanOf, Move;
    EveryProcessHasOnePlace(r, n);
    TraceSteps(r.states[n], r.events[n], h);
  }

  lemma TraceKnown(s: State, h: nat)
    requires LockInv(s) && At0(s.log.lockTrace, h) != []
    ensures h < |s.locks| && TraceOk(s.locks[h], At0(s.log.lockTrace, h))
  {
    assert h < |s.locks|;
    assert LockOk(s, h);
  }

  lemma ReleaseFollowsAcquire(t: seq<LockEv>, a: int, p: int)
    requires Alternates(t + [Rel(p)])
    requires t + [Rel(p)] == t || t + [Rel(p)] == t + [Acq(a)] || t + [Rel(p)] == t + [Rel(a)]
    ensures p == a && |t| > 0 && t[|t| - 1] == Acq(p)
  {
    var t' := t + [Rel(p)];
    assert t'[|t|] == Rel(p) && InTurn(t', |t|);
    assert (t + [Acq(a)])[|t|] == Acq(a) && (t + [Rel(a)])[|t|] == Rel(a);
    assert InTurn(t', |t| - 1);
  }

  /** Only the process inside can release: a step that adds a release to a lock's trace
      was made by the process inside it, which then is outside. */
  lemma OnlyOwnerReleases(r: Run, n: nat, h: nat, p: int)
    requires n < |r.events|
    requires At0(r.states[n + 1].log.lockTrace, h) == At0(r.states[n].log.lockTrace, h) + [Rel(p)]
    ensures p == r.states[n].k.active && Inside(r.states[n], h, p) && !Inside(r.states[n + 1], h, p)
  {
    hide Step, Core, LockInv, LockOk;
    LocksAreSafe(r, n);
    LocksAreSafe(r, n + 1);
    RunTraceSteps(r, n, h);
    var t := At0(r.states[n].log.lockTrace, h);
    TraceKnown(r.states[n + 1], h);
    ReleaseFollowsAcquire(t, r.states[n].k.active, p);
    if Inside(r.states[n + 1], h, p) {
      InsideIsOwner(r.states[n + 1], h, p);
    }
  }

  /** CvarWait returns 0 only to a caller that is inside the lock it named again. */
  lemma CvarWaitReturnsLocked(r: Run, n: nat)
    requires n < |r.events| && r.events[n] == Resume
    requires ContOf(r.states[n].k, r.states[n].k.active).CvarBlocked? || ContOf(r.states[n].k, r.states[n].k.active).RetryAcquire?
    requires PlanOf(r.states[n], r.events[n]).fin == Ret(0)
    ensures exists h {:trigger Inside(r.states[n + 1], h, r.states[n].k.active)} ::
              0 <= h < |r.states[n + 1].locks|
              && r.states[n + 1].locks[h].id == ContOf(r.states[n].k, r.states[n].k.active).lockId
              && Inside(r.states[n + 1], h, r.states[n].k.active)
  {
    hide Move;
    LocksAreSafe(r, n);
    EveryProcessHasOnePlace(r, n);
    var h := RetryEndsInside(r.states[n]);
    assert Inside(r.states[n + 1], h, r.states[n].k.active);
  }

  lemma RetryEndsInside(s: Good) returns (h: nat)
    requires Enabled(s, Resume) && LockInv(s) && PlanResume(s).fin == Ret(0)
    requires ContOf(s.k, s.k.active).CvarBlocked? || ContOf(s.k, s.k.active).RetryAcquire?
    ensures h < |PlanResume(s).next.locks|
    ensures PlanResume(s).next.locks[h].id == ContOf(s.k, s.k.active).lockId
    ensures Inside(PlanResume(s).next, h, s.k.active)
  {
    hide Core, Within;
    var a := s.k.active;
    var c := ContOf(s.k, a);
    ActiveAlive(s);
    assert RetryFits(s, a);
    h := if c.RetryAcquire? then c.lock else FindLock(s.locks, c.lockId, 0).value;
    var t := At0(PlanResume(s).next.log.lockTrace, h);
    assert t[|t| - 1] == Acq(a);
  }
}
