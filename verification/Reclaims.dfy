/**
 Reclaiming an object that processes wait for.  The loop that is meant to wake all waiters
 re-tests a length it shrinks, so it moves only half of them, rounded up; whoever is left on
 the list of a reclaimed lock or condition variable is never woken again, on any continuation
 of the run, and a reader of a pipe only by a retry that still reads from it.  And a waiter that
 has retried before does not notice the reclaim at all.
 */
module Reclaims {
  import opened Constants
  import opened Scheduler
  import opened KernelSteps
  import opened KernelRuns

  /** Whatever is reclaimed, pipe, lock or condition variable: the older half of its waiters, rounded
      up, goes to the ready queue in order, and the rest stays.  All of them go exactly when there
      is at most one. */
  lemma ReclaimWakesHalf(s: Good, id: int)
    requires Enabled(s, Reclaim(id)) && PlanReclaim(s, id).fin == Ret(0)
    ensures PlanReclaim(s, id).wake.Heads?
    ensures var c := PlanReclaim(s, id).wake.chan;
            var q, k' := Q(s.k, c), Step(s, Reclaim(id)).k;
            && q[..(|q| + 1) / 2] + Q(k', c) == q && k'.ready == s.k.ready + q[..(|q| + 1) / 2]
            && (Q(k', c) == [] <==> |q| <= 1)
  {
    hide Core, Within, Move, PlanReclaim;
    ActiveAlive(s);
    ReclaimIs(s, id);
    var c := PlanReclaim(s, id).wake.chan;
    HeadsMove(s.k, c, DestroyCount(|Q(s.k, c)|), 0);
  }

  lemma ReclaimIs(s: State, id: int)
    requires PlanReclaim(s, id).fin == Ret(0)
    ensures var w := PlanReclaim(s, id).wake; w.Heads? && w.count == DestroyCount(|Q(s.k, w.chan)|)
  {
    hide Within, DestroyCount;
  }

  /** A reclaim of a lock wakes all its waiters exactly when there is at most one. */
  lemma ReclaimWakesAllIff(s: Good, id: int, i: nat, h: nat)
    requires Enabled(s, Reclaim(id)) && id >= 0 && FindReclaim(s.reclaims, id, 0) == Some(i)
    requires s.reclaims[i].kind == LockKind && FindDisposable(s.locks, id, s.k.active, 0) == Some(h)
    ensures Q(Step(s, Reclaim(id)).k, LockQ(h)) == [] <==> |Q(s.k, LockQ(h))| <= 1
    ensures |Q(Step(s, Reclaim(id)).k, LockQ(h))| == |Q(s.k, LockQ(h))| / 2
    ensures h < |Step(s, Reclaim(id)).locks| && !Step(s, Reclaim(id)).locks[h].listed
  {
    hide Core, Within, Move;
    ActiveAlive(s);
    var q := Q(s.k, LockQ(h));
    HeadsMove(s.k, LockQ(h), DestroyCount(|q|), 0);
  }

  /** h is a lock that has been taken out of the list. */
  ghost predicate Gone(s: State, h: nat) {
    h < |s.locks| && !s.locks[h].listed
  }

  /** No step brings a lock back into the list or wakes anybody who waits for one that is not. */
  lemma GoneStep(s: Good, e: Event, h: nat)
    requires Enabled(s, e) && Gone(s, h)
    ensures Gone(Step(s, e), h) && Q(s.k, LockQ(h)) <= Q(Step(s, e).k, LockQ(h))
  {
    hide Core, Move, PlanOf;
    PlanIsRegular(s, e);
    ActiveAlive(s);
    if AreaOf(s, e) == LockArea || AreaOf(s, e) == ReclaimArea {
      GonePlan(s, e, h);
    }
    var p := PlanOf(s, e);
    MoveLists(s.k, p.wake, p.fin, LockQ(h));
  }

  lemma GonePlan(s: Good, e: Event, h: nat)
    requires Enabled(s, e) && Gone(s, h) && (AreaOf(s, e) == LockArea || AreaOf(s, e) == ReclaimArea)
    ensures Gone(PlanOf(s, e).next, h)
    ensures WakesNone(PlanOf(s, e).wake) || PlanOf(s, e).wake.chan != LockQ(h)
  {
    hide Core, Within;
    if e.Resume? {
      GoneResume(s, h);
    }
  }

  lemma GoneResume(s: Good, h: nat)
    requires Enabled(s, Resume) && Gone(s, h) && AreaOf(s, Resume) == LockArea
    ensures Gone(PlanResume(s).next, h) && PlanResume(s).wake == NoWake
  {
    hide Core, Within;
  }

  /** On every run: a process left waiting for a reclaimed lock waits for it for ever. */
  lemma {:induction false} LeftBehindForEver(r: Run, from: nat, n: nat, h: nat, p: int)
    requires from <= n < |r.states| && Gone(r.states[from], h) && p in Q(r.states[from].k, LockQ(h))
    ensures Gone(r.states[n], h) && p in Q(r.states[n].k, LockQ(h)) && !Runnable(r.states[n].k, p)
    decreases n
  {
    hide Step, Core;
    if n > from {
      LeftBehindForEver(r, from, n - 1, h, p);
      EveryProcessHasOnePlace(r, n - 1);
      GoneRunStep(r, n - 1, h);
    }
    EveryProcessHasOnePlace(r, n);
    Waiter(r.states[n], LockQ(h), p);
  }

  lemma GoneRunStep(r: Run, n: nat, h: nat)
    requires n < |r.events| && Gone(r.states[n], h)
    ensures Gone(r.states[n + 1], h) && Q(r.states[n].k, LockQ(h)) <= Q(r.states[n + 1].k, LockQ(h))
  {
    hide PlanOf, Move, Core;
    EveryProcessHasOnePlace(r, n);
    GoneStep(r.states[n], r.events[n], h);
  }

  // ----- condition variables -------------------------------------------------------

  ghost predicate GoneCvar(s: State, h: nat) {
    h < |s.cvars| && !s.cvars[h].listed
  }

  lemma GoneCvarPlan(s: Good, e: Event, h: nat)
    requires Enabled(s, e) && GoneCvar(s, h)
    ensures GoneCvar(PlanOf(s, e).next, h)
    ensures WakesNone(PlanOf(s, e).wake) || PlanOf(s, e).wake.chan != CvarQ(h)
    ensures PlanOf(s, e).fin.Block? && PlanOf(s, e).fin.cont.CvarBlocked? ==> PlanOf(s, e).fin.cont.cvar != h
  {
    hide Core, Within;
    if e.Resume? {
      ResumeSparesCvars(s);
    } else if AreaOf(s, e) == KinArea || AreaOf(s, e) == TtyArea || AreaOf(s, e) == PipeArea || AreaOf(s, e) == SemArea {
      CallSparesCvars(s, e);
    }
  }

  lemma ResumeSparesCvars(s: Good)
    requires Enabled(s, Resume)
    ensures PlanResume(s).next.cvars == s.cvars
    ensures WakesNone(PlanResume(s).wake) || !PlanResume(s).wake.chan.CvarQ?
    ensures PlanResume(s).fin.Block? ==> !PlanResume(s).fin.cont.CvarBlocked?
  {
    hide Core, Within, FindDead, FindLock, FindPipe, FindCvar, Q, RemoveLoc;
  }

  lemma CallSparesCvars(s: Good, e: Event)
    requires Enabled(s, e) && !e.Resume? && AreaOf(s, e) in {KinArea, TtyArea, PipeArea, SemArea}
    ensures PlanOf(s, e).next.cvars == s.cvars
    ensures WakesNone(PlanOf(s, e).wake) || !PlanOf(s, e).wake.chan.CvarQ?
    ensures PlanOf(s, e).fin.Block? ==> !PlanOf(s, e).fin.cont.CvarBlocked?
  {
    hide Core, Within, FindDead, FindPipe, FindSem, FindPid, FindWriter, Q, RemoveLoc, Orphaned, DropChild;
  }

  /** On every run: a process left waiting for a reclaimed condition variable waits for ever. */
  lemma {:induction false} CvarLeftForEver(r: Run, from: nat, n: nat, h: nat, p: int)
    requires from <= n < |r.states| && GoneCvar(r.states[from], h) && p in Q(r.states[from].k, CvarQ(h))
    ensures GoneCvar(r.states[n], h) && p in Q(r.states[n].k, CvarQ(h)) && !Runnable(r.states[n].k, p)
    decreases n
  {
    hide Step, Core;
    if n > from {
      CvarLeftForEver(r, from, n - 1, h, p);
      EveryProcessHasOnePlace(r, n - 1);
      GoneCvarStep(r.states[n - 1], r.events[n - 1], h);
    }
    EveryProcessHasOnePlace(r, n);
    Waiter(r.states[n], CvarQ(h), p);
  }

  lemma GoneCvarStep(s: Good, e: Event, h: nat)
    requires Enabled(s, e) && GoneCvar(s, h)
    ensures GoneCvar(Step(s, e), h) && Q(s.k, CvarQ(h)) == Q(Step(s, e).k, CvarQ(h))
  {
    hide Core, Move, PlanOf;
    PlanIsRegular(s, e);
    GoneCvarPlan(s, e, h);
    var p := PlanOf(s, e);
    MoveLists(s.k, p.wake, p.fin, CvarQ(h));
  }

  // ----- pipes -------------------------------------------------------------------------

  ghost predicate GonePipe(s: State, h: nat) {
    h < |s.pipes| && !s.pipes[h].listed
  }

  /** The step is a retry that still reads from pipe h. */
  ghost predicate Rereads(s: State, e: Event, h: nat) {
    var c := ContOf(s.k, s.k.active);
    && e.Resume? && c.RetryRead? && c.pipe == h && h < |s.pipes| && c.len <= |s.pipes[h].buf|
    && (c.seen || FindPipe(s.pipes, c.pipeId, 0).Some?)
  }

  lemma GonePipePlan(s: Good, e: Event, h: nat)
    requires Enabled(s, e) && GonePipe(s, h)
    ensures GonePipe(PlanOf(s, e).next, h)
    ensures if Rereads(s, e, h) then PlanOf(s, e).wake == Heads(PipeQ(h), 1) && PlanOf(s, e).fin == Ret(0)
            else WakesNone(PlanOf(s, e).wake) || PlanOf(s, e).wake.chan != PipeQ(h)
    ensures PlanOf(s, e).fin.Block? && PlanOf(s, e).fin.cont.RetryRead? && PlanOf(s, e).fin.cont.pipe == h ==>
              ContOf(s.k, s.k.active).RetryRead? && ContOf(s.k, s.k.active).pipe == h
  {
    hide Core, Within, PlanOf;
    PlanIsRegular(s, e);
    if AreaOf(s, e) == PipeArea {
      PipeCallOnGone(s, e, h);
    } else if AreaOf(s, e) == ReclaimArea {
      ReclaimOnGone(s, e, h);
    } else {
      ElsewhereOnGone(s, e, h);
    }
  }

  lemma ElsewhereOnGone(s: Good, e: Event, h: nat)
    requires Enabled(s, e) && AreaOf(s, e) != PipeArea && AreaOf(s, e) != ReclaimArea
    ensures PipesAlone(s, PlanOf(s, e)) && !Rereads(s, e, h)
  {
    hide Core, PlanOf, PipesAlone;
    PlanIsRegular(s, e);
  }

  lemma ReclaimOnGone(s: Good, e: Event, h: nat)
    requires Enabled(s, e) && GonePipe(s, h) && AreaOf(s, e) == ReclaimArea
    ensures GonePipe(PlanOf(s, e).next, h) && PlanOf(s, e).fin.Ret?
    ensures WakesNone(PlanOf(s, e).wake) || PlanOf(s, e).wake.chan != PipeQ(h)
  {
    hide Core, Within, Q, DestroyCount, RemoveLoc;
  }

  lemma PipeCallOnGone(s: Good, e: Event, h: nat)
    requires Enabled(s, e) && GonePipe(s, h) && AreaOf(s, e) == PipeArea
    ensures GonePipe(PlanOf(s, e).next, h)
    ensures if Rereads(s, e, h) then PlanOf(s, e).wake == Heads(PipeQ(h), 1) && PlanOf(s, e).fin == Ret(0)
            else WakesNone(PlanOf(s, e).wake) || PlanOf(s, e).wake.chan != PipeQ(h)
    ensures PlanOf(s, e).fin.Block? && PlanOf(s, e).fin.cont.RetryRead? && PlanOf(s, e).fin.cont.pipe == h ==>
              ContOf(s.k, s.k.active).RetryRead? && ContOf(s.k, s.k.active).pipe == h
  {
    hide Core, Within, Q;
  }

  /** On every run, somebody who waits for a reclaimed pipe leaves its list if and only if it is the
      first there and some other process's retry still reads from the pipe. */
  lemma LeftoverWokenIff(r: Run, n: nat, h: nat, p: int)
    requires n < |r.events| && GonePipe(r.states[n], h) && p in Q(r.states[n].k, PipeQ(h))
    ensures p !in Q(r.states[n + 1].k, PipeQ(h)) <==>
            Rereads(r.states[n], r.events[n], h) && p == Q(r.states[n].k, PipeQ(h))[0]
    ensures p !in Q(r.states[n + 1].k, PipeQ(h)) ==> Runnable(r.states[n + 1].k, p)
    ensures GonePipe(r.states[n + 1], h)
  {
    hide PlanOf, Move, Core, WakeUp, Rereads, NoDup;
    EveryProcessHasOnePlace(r, n);
    var s, e := r.states[n], r.events[n];
    GonePipePlan(s, e, h);
    PlanIsRegular(s, e);
    ActiveAlive(s);
    var f := PlanOf(s, e);
    MoveLists(s.k, f.wake, f.fin, PipeQ(h));
    if Rereads(s, e, h) {
      HeadsMove(s.k, PipeQ(h), 1, 0);
      HeadWoken(s, PipeQ(h), f.fin);
      OnlyHead(s, PipeQ(h), p);
    }
  }

  lemma OnlyHead(s: Good, c: Chan, p: int)
    requires p in Q(s.k, c)
    ensures p in Q(s.k, c)[1..] <==> p != Q(s.k, c)[0]
  {
    var q := Q(s.k, c);
    assert NoDup(q);
    assert q == [q[0]] + q[1..];
    assert p in q[1..] ==> exists i :: 1 <= i < |q| && q[i] == p by {
      if p in q[1..] {
        var i :| 0 <= i < |q[1..]| && q[1..][i] == p;
        assert q[i + 1] == p;
      }
    }
  }

  /** Nobody who can run is about to retry a read of pipe h. */
  ghost predicate NoRetry(s: State, h: nat) {
    forall p :: Runnable(s.k, p) ==> !(ContOf(s.k, p).RetryRead? && ContOf(s.k, p).pipe == h)
  }

  /** So where nobody is about to retry, whoever waits for a reclaimed pipe waits for ever. */
  lemma {:induction false} PipeLeftForEver(r: Run, from: nat, n: nat, h: nat, p: int)
    requires from <= n < |r.states| && GonePipe(r.states[from], h) && NoRetry(r.states[from], h)
    requires p in Q(r.states[from].k, PipeQ(h))
    ensures GonePipe(r.states[n], h) && NoRetry(r.states[n], h)
    ensures p in Q(r.states[n].k, PipeQ(h)) && !Runnable(r.states[n].k, p)
    decreases n
  {
    hide Step, Core, NoRetry;
    if n > from {
      PipeLeftForEver(r, from, n - 1, h, p);
      EveryProcessHasOnePlace(r, n - 1);
      StillNoRetry(r, n - 1, h);
    }
    EveryProcessHasOnePlace(r, n);
    Waiter(r.states[n], PipeQ(h), p);
  }

  lemma StillNoRetry(r: Run, n: nat, h: nat)
    requires n < |r.events| && GonePipe(r.states[n], h) && NoRetry(r.states[n], h)
    ensures GonePipe(r.states[n + 1], h) && NoRetry(r.states[n + 1], h)
    ensures Q(r.states[n + 1].k, PipeQ(h)) == Q(r.states[n].k, PipeQ(h))
  {
    hide PlanOf, Move, Core, WakeUp;
    EveryProcessHasOnePlace(r, n);
    EveryProcessHasOnePlace(r, n + 1);
    var s, e, s' := r.states[n], r.events[n], r.states[n + 1];
    GonePipePlan(s, e, h);
    PlanIsRegular(s, e);
    ActiveAlive(s);
    var f := PlanOf(s, e);
    MoveLists(s.k, f.wake, f.fin, PipeQ(h));
    Self(s, f.wake, f.fin);
    forall p | Runnable(s'.k, p) ensures !(ContOf(s'.k, p).RetryRead? && ContOf(s'.k, p).pipe == h) {
      RunnableIsAlive(s', p);
      if p != s.k.active {
        Others(s, f.wake, f.fin, p);
        if Alive(s.k, p) && ContOf(s.k, p).RetryRead? && ContOf(s.k, p).pipe == h {
          HasWaitingPlace(s, p);
          Waiter(s', PipeQ(h), p);
        }
      }
    }
  }

  lemma RunnableIsAlive(s: Good, p: int)
    requires Runnable(s.k, p)
    ensures Alive(s.k, p)
  {
    assert p in s.k.ready ==> ReadyRight(s.k, p);
  }

  lemma HasWaitingPlace(s: Good, p: int)
    requires Alive(s.k, p) && !Runnable(s.k, p)
    ensures ContOf(s.k, p) != User && p in Q(s.k, ChanOf(ContOf(s.k, p)))
  {
    assert HasPlace(s.k, p);
  }

  // ----- the flag that is never cleared -----------------------------------------------------

  /** A step that blocks for a lock or a pipe notes "seen" exactly when it was itself a retry. */
  lemma BlockSeen(s: Good, e: Event)
    requires Enabled(s, e) && PlanOf(s, e).fin.Block?
    ensures PlanOf(s, e).fin.cont.RetryAcquire? ==> (PlanOf(s, e).fin.cont.seen <==> ContOf(s.k, s.k.active).RetryAcquire?)
    ensures PlanOf(s, e).fin.cont.RetryRead? ==> (PlanOf(s, e).fin.cont.seen <==> ContOf(s.k, s.k.active).RetryRead?)
  {
    hide Core, Within, PlanOf, LocksAlone, PipesAlone;
    PlanIsRegular(s, e);
    if AreaOf(s, e) == LockArea {
      LockBlockSeen(s, e);
    } else if AreaOf(s, e) == PipeArea {
      PipeBlockSeen(s, e);
    } else {
      OtherBlockSeen(s, e);
    }
  }

  lemma OtherBlockSeen(s: Good, e: Event)
    requires Enabled(s, e) && PlanOf(s, e).fin.Block? && AreaOf(s, e) != LockArea && AreaOf(s, e) != PipeArea
    ensures !PlanOf(s, e).fin.cont.RetryAcquire? && !PlanOf(s, e).fin.cont.RetryRead?
  {
    hide Core, PlanOf;
    PlanIsRegular(s, e);
    if AreaOf(s, e) == ReclaimArea {
      ReclaimReturns(s, e);
    }
  }

  lemma ReclaimReturns(s: Good, e: Event)
    requires Enabled(s, e) && AreaOf(s, e) == ReclaimArea
    ensures PlanOf(s, e).fin.Ret?
  {
    hide Core, Within, Q, DestroyCount, RemoveLoc;
  }

  lemma LockBlockSeen(s: Good, e: Event)
    requires Enabled(s, e) && PlanOf(s, e).fin.Block? && AreaOf(s, e) == LockArea
    ensures !PlanOf(s, e).fin.cont.RetryRead?
    ensures PlanOf(s, e).fin.cont.RetryAcquire? ==> (PlanOf(s, e).fin.cont.seen <==> ContOf(s.k, s.k.active).RetryAcquire?)
  {
    hide Core, Within, Q, FindLock, FindHeld, FindCvar, Freed;
  }

  lemma PipeBlockSeen(s: Good, e: Event)
    requires Enabled(s, e) && PlanOf(s, e).fin.Block? && AreaOf(s, e) == PipeArea
    ensures !PlanOf(s, e).fin.cont.RetryAcquire?
    ensures PlanOf(s, e).fin.cont.RetryRead? ==> (PlanOf(s, e).fin.cont.seen <==> ContOf(s.k, s.k.active).RetryRead?)
  {
    hide Core, Within, Q, FindPipe;
  }

  /** The step at m blocks its caller, which next runs at step n. */
  ghost predicate BlocksFromTo(r: Run, m: nat, n: nat) {
    && m < n < |r.events| && PlanOf(r.states[m], r.events[m]).fin.Block?
    && Away(r, r.states[m].k.active, m, n) && r.states[n].k.active == r.states[m].k.active
  }

  lemma RetryComes(r: Run, m: nat, n: nat)
    requires BlocksFromTo(r, m, n)
    requires PlanOf(r.states[m], r.events[m]).fin.cont.RetryAcquire? || PlanOf(r.states[m], r.events[m]).fin.cont.RetryRead?
    ensures r.events[n] == Resume
    ensures ContOf(r.states[n].k, r.states[n].k.active) == PlanOf(r.states[m], r.events[m]).fin.cont
    ensures var c := PlanOf(r.states[m], r.events[m]).fin.cont;
            c.seen <==> (if c.RetryAcquire? then ContOf(r.states[m].k, r.states[m].k.active).RetryAcquire?
                         else ContOf(r.states[m].k, r.states[m].k.active).RetryRead?)
  {
    hide Step, Core, PlanOf;
    EveryProcessHasOnePlace(r, m);
    BlockSeen(r.states[m], r.events[m]);
    StaysSuspended(r, m, n);
  }

  /** On every run: a process blocked for lock h at step m, and when it runs again at step n the lock
      has been reclaimed.  It notices, and returns ERROR, if and only if step m was its first
      attempt and no newer lock has the same id.  Otherwise it blocks on the reclaimed lock
      again if that was locked, and takes it if not. */
  lemma RetryOfReclaimedLock(r: Run, m: nat, n: nat, h: nat)
    requires BlocksFromTo(r, m, n) && PlanOf(r.states[m], r.events[m]).fin.cont.RetryAcquire?
    requires PlanOf(r.states[m], r.events[m]).fin.cont.lock == h && Gone(r.states[n], h)
    ensures var f := PlanOf(r.states[n], r.events[n]).fin;
            var fooled := ContOf(r.states[m].k, r.states[m].k.active).RetryAcquire?
                          || FindLock(r.states[n].locks, PlanOf(r.states[m], r.events[m]).fin.cont.lockId, 0).Some?;
            && (f == Ret(ERROR) <==> !fooled)
            && (f.Block? <==> fooled && r.states[n].locks[h].locked)
            && (f == Ret(0) <==> fooled && !r.states[n].locks[h].locked)
  {
    hide Step, Core, PlanOf;
    RetryComes(r, m, n);
    EveryProcessHasOnePlace(r, n);
    LockRetryEnds(r.states[n], h);
  }

  lemma LockRetryEnds(s: Good, h: nat)
    requires Enabled(s, Resume) && h < |s.locks| && ContOf(s.k, s.k.active).RetryAcquire? && ContOf(s.k, s.k.active).lock == h
    ensures var c := ContOf(s.k, s.k.active);
            PlanOf(s, Resume).fin == if !c.seen && FindLock(s.locks, c.lockId, 0).None? then Ret(ERROR)
                                     else if s.locks[h].locked then Block(RetryAcquire(h, c.lockId, true)) else Ret(0)
  {
    hide Core, Within, FindLock;
  }

  /** And the process that blocks on it again never runs again. */
  lemma FooledForEver(r: Run, m: nat, n: nat, h: nat, k: nat)
    requires BlocksFromTo(r, m, n) && PlanOf(r.states[m], r.events[m]).fin.cont.RetryAcquire?
    requires PlanOf(r.states[m], r.events[m]).fin.cont.lock == h && Gone(r.states[n], h) && r.states[n].locks[h].locked
    requires ContOf(r.states[m].k, r.states[m].k.active).RetryAcquire? && n < k < |r.states|
    ensures !Runnable(r.states[k].k, r.states[m].k.active)
  {
    hide Step, Core, PlanOf;
    RetryComes(r, m, n);
    EveryProcessHasOnePlace(r, n);
    LockRetryEnds(r.states[n], h);
    GoneRunStep(r, n, h);
    BlockedJoins(r.states[n], Resume);
    LeftBehindForEver(r, n + 1, k, h, r.states[m].k.active);
  }

  lemma BlockedJoins(s: Good, e: Event)
    requires Enabled(s, e) && PlanOf(s, e).fin.Block? && PlanOf(s, e).fin.cont != User
    ensures s.k.active in Q(Step(s, e).k, ChanOf(PlanOf(s, e).fin.cont))
  {
    hide Core, Move, PlanOf, WakeUp;
    PlanIsRegular(s, e);
    var f := PlanOf(s, e);
    MoveLists(s.k, f.wake, f.fin, ChanOf(f.fin.cont));
  }

  /** The same for a reader: it notices the reclaim of its pipe if and only if it blocked by its first
      attempt and no newer pipe has the same id.  Otherwise it reads what is left, or blocks again. */
  lemma RetryOfReclaimedPipe(r: Run, m: nat, n: nat, h: nat)
    requires BlocksFromTo(r, m, n) && PlanOf(r.states[m], r.events[m]).fin.cont.RetryRead?
    requires PlanOf(r.states[m], r.events[m]).fin.cont.pipe == h && GonePipe(r.states[n], h)
    ensures var f := PlanOf(r.states[n], r.events[n]).fin;
            var c := PlanOf(r.states[m], r.events[m]).fin.cont;
            var fooled := ContOf(r.states[m].k, r.states[m].k.active).RetryRead? || FindPipe(r.states[n].pipes, c.pipeId, 0).Some?;
            && (f == Ret(ERROR) <==> !fooled)
            && (f.Block? <==> fooled && |r.states[n].pipes[h].buf| < c.len)
            && (f == Ret(0) <==> fooled && |r.states[n].pipes[h].buf| >= c.len)
  {
    hide Step, Core, PlanOf;
    RetryComes(r, m, n);
    EveryProcessHasOnePlace(r, n);
    PipeRetryEnds(r.states[n], h);
  }

  lemma PipeRetryEnds(s: Good, h: nat)
    requires Enabled(s, Resume) && h < |s.pipes| && ContOf(s.k, s.k.active).RetryRead? && ContOf(s.k, s.k.active).pipe == h
    ensures var c := ContOf(s.k, s.k.active);
            PlanOf(s, Resume).fin == if !c.seen && FindPipe(s.pipes, c.pipeId, 0).None? then Ret(ERROR)
                                     else if |s.pipes[h].buf| < c.len then Block(RetryRead(h, c.pipeId, c.len, true)) else Ret(0)
  {
    hide Core, Within, FindPipe;
  }
}
