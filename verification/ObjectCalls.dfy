/**
 What the calls on pipes, semaphores, condition variables and terminals do, what creating an object does,
 and Delay: the value each call returns, who waits, who is woken, and how the object changes.
 */
module ObjectCalls {
  import opened Constants
  import opened Scheduler
  import opened ReadyQueue
  import opened KernelSteps
  import opened KernelRuns
  import opened Reclaims
  import opened Semaphores
  import opened Terminals
  import opened Cvars
  import opened Calls
  import P = Pipes

  lemma StepOf(r: Run, n: nat)
    requires n < |r.events|
    ensures Core(r.states[n]) && Enabled(r.states[n], r.events[n]) && r.states[n + 1] == Step(r.states[n], r.events[n])
  {
    hide Step, Enabled, Core;
    EveryProcessHasOnePlace(r, n);
  }

  // ----- pipes -----------------------------------------------------------------------

  /** Only pipe h and the two histories of bytes change. */
  ghost predicate OnlyPipe(s: State, s': State, h: nat, buf: seq<int>) {
    && h < |s.pipes|
    && s' == s.(k := s'.k, pipes := s.pipes[h := s.pipes[h].(buf := buf)],
                log := s.log.(accepted := s'.log.accepted, delivered := s'.log.delivered))
  }

  /** A read of len bytes: if they are there the caller gets exactly the first len of them at once, and the oldest
      waiter is ready; if not, the caller is the newest waiter and nothing else changes. */
  ghost predicate ReadsOrWaits(s: State, s': State, h: nat, len: nat) {
    h < |s.pipes| &&
    var buf := s.pipes[h].buf;
    if len <= |buf|
    then Returned(s, s', 0) && FirstWoken(s, s', PipeQ(h)) && OnlyPipe(s, s', h, buf[len..])
         && At0(s'.log.delivered, h) == At0(s.log.delivered, h) + buf[..len] && s'.log.accepted == s.log.accepted
    else WaitsIn(s, s', PipeQ(h)) && ObjectsSame(s, s')
  }

  lemma ReadAttempt(s: Good, e: Event, h: nat, id: int, len: nat, seen: bool)
    requires Enabled(s, e) && h < |s.pipes| && PlanOf(s, e) == PlanTryRead(s, h, id, len, seen)
    ensures ReadsOrWaits(s, Step(s, e), h, len)
  {
    hide PlanOf, Enabled, Core, Move, Within, WaitsIn, Returned, FirstWoken;
    if |s.pipes[h].buf| < len {
      BlockEnds(s, e, RetryRead(h, id, len, seen));
    } else {
      RetEnds(s, e, 0);
    }
  }

  lemma PipeReadOutcome(r: Run, n: nat, id: int, len: int)
    requires n < |r.events| && r.events[n] == PipeRead(id, len)
    ensures id < 0 || len < 0 || NoPipe(r.states[n], id) ==> Refused(r.states[n], r.states[n + 1])
    ensures forall h: nat :: id >= 0 && len >= 0 && PipeIs(r.states[n], id, h) ==> ReadsOrWaits(r.states[n], r.states[n + 1], h, len)
  {
    hide Step, Enabled, Core, ReadsOrWaits, PipeIs, NoPipe, PlanTryRead, OnlyReturned, FindPipe;
    StepOf(r, n);
    var s, e := r.states[n], r.events[n];
    PipeFound(s, id);
    if id < 0 || len < 0 || FindPipe(s.pipes, id, 0).None? {
      RetEnds(s, e, ERROR);
    } else {
      PipeFoundIn(s, id);
      ReadAttempt(s, e, FindPipe(s.pipes, id, 0).value, id, len, false);
    }
  }

  lemma PipeFoundIn(s: State, id: int)
    ensures FindPipe(s.pipes, id, 0).Some? ==> FindPipe(s.pipes, id, 0).value < |s.pipes|
  {
  }

  /** A reader that blocked on pipe h runs again, and the pipe has not been reclaimed: it tries again. */
  lemma RetryReadOutcome(r: Run, m: nat, n: nat, h: nat)
    requires BlocksFromTo(r, m, n) && PlanOf(r.states[m], r.events[m]).fin.cont.RetryRead?
    requires PlanOf(r.states[m], r.events[m]).fin.cont.pipe == h && h < |r.states[n].pipes| && r.states[n].pipes[h].listed
    ensures PlanOf(r.states[m], r.events[m]).fin.cont.len >= 0
    ensures ReadsOrWaits(r.states[n], r.states[n + 1], h, PlanOf(r.states[m], r.events[m]).fin.cont.len)
  {
    hide Step, Enabled, Core, ReadsOrWaits, PlanTryRead, PlanOf, P.PipeInv;
    RetryComes(r, m, n);
    StepOf(r, n);
    P.PipesAreStreams(r, n);
    var s := r.states[n];
    var c := ContOf(s.k, s.k.active);
    RetryReadPlan(s, h);
    ReadAttempt(s, Resume, h, c.pipeId, c.len, true);
  }

  lemma RetryReadPlan(s: Good, h: nat)
    requires Enabled(s, Resume) && P.PipeInv(s) && h < |s.pipes| && s.pipes[h].listed
    requires ContOf(s.k, s.k.active).RetryRead? && ContOf(s.k, s.k.active).pipe == h
    ensures ContOf(s.k, s.k.active).len >= 0
    ensures PlanOf(s, Resume) == PlanTryRead(s, h, ContOf(s.k, s.k.active).pipeId, ContOf(s.k, s.k.active).len, true)
  {
    hide Core, Within, PlanTryRead;
    ActiveAlive(s);
    assert P.ReadFits(s, s.k.active);
    PipeFound(s, ContOf(s.k, s.k.active).pipeId);
    assert ListedPipe(s, ContOf(s.k, s.k.active).pipeId, h);
  }

  ghost predicate Accepts(s: State, s': State, h: nat, len: nat, data: seq<int>) {
    h < |s.pipes| && |s.pipes[h].buf| <= 4096 && |data| == len &&
    var room := 4096 - |s.pipes[h].buf|;
    var k := if len <= room then len else room;
    && Returned(s, s', k) && FirstWoken(s, s', PipeQ(h)) && OnlyPipe(s, s', h, s.pipes[h].buf + data[..k])
    && At0(s'.log.accepted, h) == At0(s.log.accepted, h) + data[..k] && s'.log.delivered == s.log.delivered
  }

  /** A write takes as many of the first bytes as fit and returns their number, and the oldest waiter is ready. */
  lemma PipeWriteOutcome(r: Run, n: nat, id: int, len: int, data: seq<int>)
    requires n < |r.events| && r.events[n] == PipeWrite(id, len, data)
    ensures id < 0 || len < 0 || NoPipe(r.states[n], id) ==> Refused(r.states[n], r.states[n + 1])
    ensures forall h: nat :: id >= 0 && len >= 0 && PipeIs(r.states[n], id, h) ==> Accepts(r.states[n], r.states[n + 1], h, len, data)
  {
    hide Enabled, Core, Move, PipeIs, NoPipe, OnlyReturned, FindPipe, Returned, FirstWoken, P.PipeOk, Within;
    StepOf(r, n);
    var s, e := r.states[n], r.events[n];
    WriteLength(s, id, len, data);
    PipeFound(s, id);
    if id < 0 || len < 0 || FindPipe(s.pipes, id, 0).None? {
      RetEnds(s, e, ERROR);
    } else {
      PipeFoundIn(s, id);
      var h := FindPipe(s.pipes, id, 0).value;
      P.PipesAreStreams(r, n);
      BufFits(s, h);
      var k := Min(PIPE_BUF_SIZE - |s.pipes[h].buf|, |data|);
      RetEnds(s, e, k);
    }
  }

  lemma WriteLength(s: State, id: int, len: int, data: seq<int>)
    requires Enabled(s, PipeWrite(id, len, data))
    ensures len >= 0 ==> |data| == len
  {
  }

  lemma BufFits(s: State, h: nat)
    requires P.PipeInv(s) && h < |s.pipes|
    ensures |s.pipes[h].buf| <= 4096
  {
    assert P.PipeOk(s, h);
  }

  // ----- semaphores --------------------------------------------------------------------

  /** Only the count of semaphore h changes, and the history. */
  ghost predicate OnlySem(s: State, s': State, h: nat, count: int) {
    && h < |s.sems|
    && s' == s.(k := s'.k, sems := s.sems[h := s.sems[h].(count := count)],
                log := s.log.(arrivals := s'.log.arrivals, passed := s'.log.passed, signals := s'.log.signals))
  }

  lemma SemIs(s: State, id: int)
    requires SemInv(s) && FindSem(s.sems, id, 0).Some?
    ensures FindSem(s.sems, id, 0) == Some(id) && 0 <= id < |s.sems|
    ensures |Q(s.k, SemQ(id))| == if s.sems[id].count < 0 then -s.sems[id].count else 0
  {
    var h := FindSem(s.sems, id, 0).value;
    assert SemAt(s, h);
  }

  /** A new semaphore has the number of those before it as id and returns it. */
  lemma SemInitOutcome(r: Run, n: nat)
    requires n < |r.events| && r.events[n] == SemInit
    ensures var s, s' := r.states[n], r.states[n + 1];
            && Returned(s, s', |s.sems|) && ListsSame(s, s')
            && s' == s.(k := s'.k, sems := s.sems + [Sem(|s.sems|, 0)], nextSem := |s.sems| + 1)
  {
    hide Enabled, Core, Move, Returned, ListsSame, Within, SemAt;
    StepOf(r, n);
    SemaphoresCount(r, n);
    RetEnds(r.states[n], SemInit, r.states[n].nextSem);
  }

  /** A signal counts up, lets the oldest waiter through if there is one, and returns 0. */
  lemma SemSignalOutcome(r: Run, n: nat, id: int)
    requires n < |r.events| && r.events[n] == SemSignal(id)
    ensures 0 <= id < |r.states[n].sems|
    ensures var s, s' := r.states[n], r.states[n + 1];
            Returned(s, s', 0) && FirstWoken(s, s', SemQ(id)) && OnlySem(s, s', id, s.sems[id].count + 1)
  {
    hide Core, Move, Returned, FirstWoken, ListsSame, Within, SemInv, FindSem;
    StepOf(r, n);
    SemaphoresCount(r, n);
    var s := r.states[n];
    SemIs(s, id);
    RetEnds(s, SemSignal(id), 0);
    if Q(s.k, SemQ(id)) == [] {
      NobodyWoken(s, r.states[n + 1], SemQ(id));
    }
  }

  lemma NobodyWoken(s: State, s': State, c: Chan)
    requires ListsSame(s, s') && Q(s.k, c) == []
    ensures FirstWoken(s, s', c)
  {
    assert s.k.ready + [] == s.k.ready;
  }

  /** A wait counts down; it passes at once if the count was positive, and joins the waiters if not. */
  lemma SemWaitOutcome(r: Run, n: nat, id: int)
    requires n < |r.events| && r.events[n] == SemWait(id)
    ensures 0 <= id < |r.states[n].sems|
    ensures var s, s' := r.states[n], r.states[n + 1];
            && OnlySem(s, s', id, s.sems[id].count - 1)
            && (if s.sems[id].count > 0 then Returned(s, s', 0) && ListsSame(s, s') else WaitsIn(s, s', SemQ(id)))
  {
    hide Core, Move, Returned, ListsSame, WaitsIn, Within, SemInv, FindSem;
    StepOf(r, n);
    SemaphoresCount(r, n);
    var s := r.states[n];
    SemIs(s, id);
    if s.sems[id].count > 0 {
      RetEnds(s, SemWait(id), 0);
    } else {
      BlockEnds(s, SemWait(id), SemPassed(id));
    }
  }

  /** Who was let through, or has slept enough, returns 0 and does nothing else. */
  lemma LetThroughReturns(r: Run, n: nat)
    requires n < |r.events|
    requires ContOf(r.states[n].k, r.states[n].k.active).SemPassed? || ContOf(r.states[n].k, r.states[n].k.active).Asleep?
    ensures r.events[n] == Resume && OnlyReturned(r.states[n], r.states[n + 1], 0)
  {
    hide Core, Move, OnlyReturned;
    StepOf(r, n);
    RetEnds(r.states[n], Resume, 0);
  }

  // ----- Delay ---------------------------------------------------------------------------

  /** Delay of a negative number is an error, of 0 nothing, and of more a wait on the sleep list. */
  lemma DelayOutcome(r: Run, n: nat, d: int)
    requires n < |r.events| && r.events[n] == Delay(d)
    ensures d < 0 ==> Refused(r.states[n], r.states[n + 1])
    ensures d == 0 ==> OnlyReturned(r.states[n], r.states[n + 1], 0)
    ensures d > 0 ==> WaitsIn(r.states[n], r.states[n + 1], SleepQ) && ObjectsSame(r.states[n], r.states[n + 1])
    ensures d > 0 ==> Sleeping(r.states[n + 1].k, r.states[n].k.active, d)
  {
    hide Enabled, Core, Move, OnlyReturned, WaitsIn, Sleeping;
    StepOf(r, n);
    var s := r.states[n];
    if d < 0 {
      RetEnds(s, Delay(d), ERROR);
    } else if d == 0 {
      RetEnds(s, Delay(d), 0);
    } else {
      BlockEnds(s, Delay(d), Asleep(d));
      DelayRunStarts(r, n, d);
    }
  }

  // ----- condition variables ------------------------------------------------------------------

  lemma CvarSignalOutcome(r: Run, n: nat, id: int)
    requires n < |r.events| && r.events[n] == CvarSignal(id)
    ensures id < 0 || NoCvar(r.states[n], id) ==> Refused(r.states[n], r.states[n + 1])
    ensures forall h: nat :: id >= 0 && CvarIs(r.states[n], id, h) ==>
              && Returned(r.states[n], r.states[n + 1], 0) && FirstWoken(r.states[n], r.states[n + 1], CvarQ(h))
              && ObjectsSame(r.states[n], r.states[n + 1])
  {
    hide Enabled, Core, Move, OnlyReturned, Returned, FirstWoken, CvarIs, NoCvar, FindCvar;
    StepOf(r, n);
    var s := r.states[n];
    CvarFound(s, id);
    if id < 0 || FindCvar(s.cvars, id, 0).None? {
      RetEnds(s, CvarSignal(id), ERROR);
    } else {
      RetEnds(s, CvarSignal(id), 0);
    }
  }

  lemma CvarBroadcastOutcome(r: Run, n: nat, id: int)
    requires n < |r.events| && r.events[n] == CvarBroadcast(id)
    ensures id < 0 || NoCvar(r.states[n], id) ==> Refused(r.states[n], r.states[n + 1])
    ensures forall h: nat :: id >= 0 && CvarIs(r.states[n], id, h) ==>
              && Returned(r.states[n], r.states[n + 1], 0) && ObjectsSame(r.states[n], r.states[n + 1])
              && Q(r.states[n + 1].k, CvarQ(h)) == [] && r.states[n + 1].k.ready == r.states[n].k.ready + Q(r.states[n].k, CvarQ(h))
              && forall c :: c != CvarQ(h) ==> Q(r.states[n + 1].k, c) == Q(r.states[n].k, c)
  {
    hide Enabled, Core, Move, OnlyReturned, Returned, CvarIs, NoCvar, FindCvar, WakeUp, Q;
    StepOf(r, n);
    var s := r.states[n];
    CvarFound(s, id);
    if id < 0 || FindCvar(s.cvars, id, 0).None? {
      RetEnds(s, CvarBroadcast(id), ERROR);
    } else {
      var h := FindCvar(s.cvars, id, 0).value;
      RetEnds(s, CvarBroadcast(id), 0);
      ActiveAlive(s);
      BroadcastMovesAll(s, id);
      forall c | c != CvarQ(h) ensures Q(r.states[n + 1].k, c) == Q(s.k, c) {
        MoveLists(s.k, Heads(CvarQ(h), |Q(s.k, CvarQ(h))|), Ret(0), c);
      }
    }
  }

  // ----- new objects ------------------------------------------------------------------------

  /** A new object is listed, empty and unlocked, with one more than the number of reclaim records as its id;
      it has a record of its kind, and the call returns 0. */
  lemma InitOutcome(r: Run, n: nat)
    requires n < |r.events| && (r.events[n] == PipeInit || r.events[n] == LockInit || r.events[n] == CvarInit)
    ensures var s, s', id := r.states[n], r.states[n + 1], |r.states[n].reclaims| + 1;
            && Returned(s, s', 0) && ListsSame(s, s')
            && (r.events[n] == PipeInit ==> s' == s.(k := s'.k, pipes := s.pipes + [Pipe(id, true, [])],
                                                     reclaims := s.reclaims + [ReclaimInfo(id, PipeKind)]))
            && (r.events[n] == LockInit ==> s' == s.(k := s'.k, locks := s.locks + [Lock(id, true, false, 0)],
                                                     reclaims := s.reclaims + [ReclaimInfo(id, LockKind)]))
            && (r.events[n] == CvarInit ==> s' == s.(k := s'.k, cvars := s.cvars + [Cvar(id, true)],
                                                     reclaims := s.reclaims + [ReclaimInfo(id, CvarKind)]))
  {
    hide Enabled, Core, Move, Returned, ListsSame, Within;
    StepOf(r, n);
    RetEnds(r.states[n], r.events[n], 0);
  }
}
