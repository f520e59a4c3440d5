/**
 Pipes.  Over every run a pipe is a lossless bounded byte stream: what it accepted is what
 it delivered followed by what it holds.  And although a write or a read wakes at most one
 reader, none is left behind while the pipe holds as much as any blocked reader asks for.
 */
module Pipes {
  import opened Constants
  import opened Scheduler
  import opened ReadyQueue
  import opened KernelSteps
  import opened KernelRuns

  ghost predicate StreamOk(x: Pipe, accepted: seq<int>, delivered: seq<int>) {
    accepted == delivered + x.buf && |x.buf| <= PIPE_BUF_SIZE
  }

  ghost predicate PipeOk(s: State, h: nat)
    requires h < |s.pipes|
  {
    StreamOk(s.pipes[h], At0(s.log.accepted, h), At0(s.log.delivered, h))
  }

  ghost predicate ReadFits(s: State, p: int) {
    ContOf(s.k, p).RetryRead? ==>
      && ContOf(s.k, p).pipe < |s.pipes| && s.pipes[ContOf(s.k, p).pipe].id == ContOf(s.k, p).pipeId
      && ContOf(s.k, p).len > 0
  }

  ghost predicate PipeInv(s: State) {
    && (forall h :: 0 <= h < |s.pipes| ==> PipeOk(s, h))
    && (forall p :: Alive(s.k, p) ==> ReadFits(s, p))
    && (forall h :: h >= |s.pipes| ==> At0(s.log.accepted, h) == [] && At0(s.log.delivered, h) == [])
  }

  // ----- the stream ---------------------------------------------------------

  ghost predicate SameIds(a: seq<Pipe>, b: seq<Pipe>) {
    |a| <= |b| && forall h :: 0 <= h < |a| ==> b[h].id == a[h].id
  }

  lemma ReadsFit(s: Good, w: Wake, f: Fin, s': State)
    requires Moved(s, w, f, s') && PipeInv(s) && SameIds(s.pipes, s'.pipes)
    requires f.Block? && f.cont.RetryRead? ==>
               f.cont.pipe < |s.pipes| && s.pipes[f.cont.pipe].id == f.cont.pipeId && f.cont.len > 0
    ensures forall p :: Alive(s'.k, p) ==> ReadFits(s', p)
  {
    hide Move, Core;
    ActiveAlive(s);
    forall p | Alive(s'.k, p) ensures ReadFits(s', p) {
      Self(s, w, f);
      if p != s.k.active {
        Others(s, w, f, p);
      }
      if Alive(s.k, p) {
        assert ReadFits(s, p);
      }
    }
  }

  /** A step that changes at most the pipe h, keeping its stream. */
  lemma OnePipe(s: Good, w: Wake, f: Fin, s': State, h: nat)
    requires Moved(s, w, f, s') && PipeInv(s) && h < |s.pipes|
    requires |s'.pipes| == |s.pipes| && s'.pipes == s.pipes[h := s'.pipes[h]] && s'.pipes[h].id == s.pipes[h].id
    requires forall g: nat :: g != h ==> At0(s'.log.accepted, g) == At0(s.log.accepted, g)
    requires forall g: nat :: g != h ==> At0(s'.log.delivered, g) == At0(s.log.delivered, g)
    requires f.Block? && f.cont.RetryRead? ==>
               f.cont.pipe < |s.pipes| && s.pipes[f.cont.pipe].id == f.cont.pipeId && f.cont.len > 0
    requires PipeOk(s', h)
    ensures PipeInv(s')
  {
    hide Move, Core;
    ReadsFit(s, w, f, s');
    forall g | 0 <= g < |s'.pipes| ensures PipeOk(s', g) {
      if g != h {
        assert PipeOk(s, g);
      }
    }
  }

  lemma PipesUntouched(s: Good, p: Plan, s': State)
    requires MoveOk(s.k, p.fin) && PipeInv(s) && PipesAlone(s, p)
    requires s' == p.next.(k := Move(s.k, p.wake, p.fin))
    ensures PipeInv(s')
  {
    hide Move, Core;
    ReadsFit(s, p.wake, p.fin, s');
    forall g | 0 <= g < |s'.pipes| ensures PipeOk(s', g) {
      assert PipeOk(s, g);
    }
  }

  lemma TryReadKeeps(s: Good, h: nat, id: int, len: int, seen: bool, s': State)
    requires s.k.active != IDLE && PipeInv(s) && h < |s.pipes| && s.pipes[h].id == id && len >= 0
    requires var p := PlanTryRead(s, h, id, len, seen); s' == p.next.(k := Move(s.k, p.wake, p.fin))
    ensures PipeInv(s')
  {
    hide Move, Core, Within;
    ActiveAlive(s);
    var p := PlanTryRead(s, h, id, len, seen);
    assert PipeOk(s, h);
    var x := s.pipes[h];
    if |x.buf| >= len {
      assert x.buf == x.buf[..len] + x.buf[len..];
      assert At0(s.log.delivered, h) + x.buf[..len] + x.buf[len..] == At0(s.log.delivered, h) + x.buf;
    }
    OnePipe(s, p.wake, p.fin, s', h);
  }

  lemma WriteKeeps(s: Good, id: int, len: int, data: seq<int>)
    requires Enabled(s, PipeWrite(id, len, data)) && PipeInv(s)
    ensures PipeInv(Step(s, PipeWrite(id, len, data)))
  {
    hide Move, Core, Within;
    ActiveAlive(s);
    var p := PlanPipeWrite(s, id, len, data);
    var s' := Step(s, PipeWrite(id, len, data));
    if id < 0 || len < 0 || FindPipe(s.pipes, id, 0).None? {
      PipesUntouched(s, p, s');
    } else {
      var h := FindPipe(s.pipes, id, 0).value;
      assert PipeOk(s, h);
      OnePipe(s, p.wake, p.fin, s', h);
    }
  }

  lemma PipeInitKeeps(s: Good)
    requires Enabled(s, PipeInit) && PipeInv(s)
    ensures PipeInv(Step(s, PipeInit))
  {
    hide Move, Core, Within;
    ActiveAlive(s);
    var s' := Step(s, PipeInit);
    ReadsFit(s, NoWake, Ret(0), s');
    forall g | 0 <= g < |s'.pipes| ensures PipeOk(s', g) {
      if g < |s.pipes| {
        assert PipeOk(s, g);
      }
    }
  }

  lemma ReadKeeps(s: Good, id: int, len: int)
    requires Enabled(s, PipeRead(id, len)) && PipeInv(s)
    ensures PipeInv(Step(s, PipeRead(id, len)))
  {
    hide Move, Core, Within, PipeInv;
    ActiveAlive(s);
    var s' := Step(s, PipeRead(id, len));
    if id < 0 || len < 0 || FindPipe(s.pipes, id, 0).None? {
      PipesUntouched(s, Fails(s), s');
    } else {
      TryReadKeeps(s, FindPipe(s.pipes, id, 0).value, id, len, false, s');
    }
  }

  lemma RetryReadKeeps(s: Good)
    requires Enabled(s, Resume) && PipeInv(s) && ContOf(s.k, s.k.active).RetryRead?
    ensures PipeInv(Step(s, Resume))
  {
    hide Move, Core, Within;
    ActiveAlive(s);
    var c := ContOf(s.k, s.k.active);
    var s' := Step(s, Resume);
    assert ReadFits(s, s.k.active);
    if !c.seen && FindPipe(s.pipes, c.pipeId, 0).None? {
      PipesUntouched(s, Fails(s), s');
    } else {
      TryReadKeeps(s, c.pipe, c.pipeId, c.len, true, s');
    }
  }

  /** What a reclaim does to the pipes: nothing, or it takes one out of the list. */
  ghost predicate DestroysOne(s: State, p: Plan) {
    && p.wake.Heads? && p.wake.chan.PipeQ? && p.wake.chan.pipe < |s.pipes| && p.fin == Ret(0)
    && p.next.pipes == s.pipes[p.wake.chan.pipe := s.pipes[p.wake.chan.pipe].(listed := false)]
    && p.next.log == s.log
  }

  lemma DestroysOnePipe(s: State, id: int)
    ensures PipesAlone(s, PlanReclaim(s, id)) || DestroysOne(s, PlanReclaim(s, id))
  {
    hide Q, DestroyCount, RemoveLoc, Within;
  }

  lemma DestroyKeeps(s: Good, p: Plan, s': State)
    requires PipeInv(s) && MoveOk(s.k, p.fin) && (PipesAlone(s, p) || DestroysOne(s, p))
    requires s' == p.next.(k := Move(s.k, p.wake, p.fin))
    ensures PipeInv(s')
  {
    hide Move, Core;
    if PipesAlone(s, p) {
      PipesUntouched(s, p, s');
    } else {
      assert PipeOk(s, p.wake.chan.pipe);
      OnePipe(s, p.wake, p.fin, s', p.wake.chan.pipe);
    }
  }

  lemma PipeStep(s: Good, e: Event)
    requires Enabled(s, e) && PipeInv(s)
    ensures PipeInv(Step(s, e))
  {
    hide Move, Core, PipeInv, PipesAlone, DestroysOne, PlanReclaim, PlanPipeRead, PlanPipeWrite, PlanRetryRead;
    PlanIsRegular(s, e);
    if AreaOf(s, e) == PipeArea {
      match e
      case PipeInit => PipeInitKeeps(s);
      case PipeRead(id, len) => ReadKeeps(s, id, len);
      case PipeWrite(id, len, data) => WriteKeeps(s, id, len, data);
      case Resume => RetryReadKeeps(s);
    } else if e.Reclaim? {
      DestroysOnePipe(s, e.id);
      DestroyKeeps(s, PlanOf(s, e), Step(s, e));
    } else {
      PipesUntouched(s, PlanOf(s, e), Step(s, e));
    }
  }

  /** On every run, every pipe: the bytes accepted are the bytes delivered followed by the
      bytes held, in order, and it never holds more than 4096. */
  lemma {:induction false} PipesAreStreams(r: Run, n: nat)
    requires n < |r.states|
    ensures PipeInv(r.states[n])
  {
    hide PlanOf, Move, Core;
    if n > 0 {
      PipesAreStreams(r, n - 1);
      EveryProcessHasOnePlace(r, n - 1);
      PipeStep(r.states[n - 1], r.events[n - 1]);
    }
  }

  /** On every run, a write to a pipe accepts exactly what fits, and reports how much. */
  lemma WriteAccepts(r: Run, n: nat, id: int, len: int, data: seq<int>, h: nat)
    requires n < |r.events| && r.events[n] == PipeWrite(id, len, data) && id >= 0 && len >= 0
    requires FindPipe(r.states[n].pipes, id, 0) == Some(h)
    ensures var s, s' := r.states[n], r.states[n + 1];
            var room := PIPE_BUF_SIZE - |s.pipes[h].buf|;
            var m := if len <= room then len else room;
            && 0 <= m <= |data|
            && At0(s'.log.accepted, h) == At0(s.log.accepted, h) + data[..m]
            && At0(s'.log.delivered, h) == At0(s.log.delivered, h)
            && PlanOf(s, r.events[n]).fin == Ret(m)
  {
    hide Move, Core, Within;
    PipesAreStreams(r, n);
    assert PipeOk(r.states[n], h);
  }

  /** On every run, a read that returns 0 delivered exactly the bytes it asked for: the
      oldest ones not delivered before. */
  lemma ReadDelivers(r: Run, n: nat, h: nat, len: nat)
    requires n < |r.events|
    requires || (r.events[n].PipeRead? && r.events[n].len == len && FindPipe(r.states[n].pipes, r.events[n].id, 0) == Some(h))
             || (r.events[n].Resume? && ContOf(r.states[n].k, r.states[n].k.active).RetryRead?
                 && ContOf(r.states[n].k, r.states[n].k.active).pipe == h && ContOf(r.states[n].k, r.states[n].k.active).len == len)
    requires PlanOf(r.states[n], r.events[n]).fin == Ret(0)
    ensures var d, d' := At0(r.states[n].log.delivered, h), At0(r.states[n + 1].log.delivered, h);
            && |d'| == |d| + len && d <= d'
            && d' <= At0(r.states[n + 1].log.accepted, h)
  {
    hide Move, Core, Within;
    PipesAreStreams(r, n);
    EveryProcessHasOnePlace(r, n);
    PipesAreStreams(r, n + 1);
    ActiveAlive(r.states[n]);
    assert ReadFits(r.states[n], r.states[n].k.active);
    assert PipeOk(r.states[n + 1], h);
  }

  // ----- the wake-up chain --------------------------------------------------

  /** Every process blocked on or retrying a read of pipe h asks for at most L bytes. */
  ghost predicate AtMost(s: State, h: nat, L: int) {
    forall p :: Alive(s.k, p) && ContOf(s.k, p).RetryRead? && ContOf(s.k, p).pipe == h ==> ContOf(s.k, p).len <= L
  }

  ghost predicate RetryingRead(k: Sched, p: int, h: nat) {
    Runnable(k, p) && ContOf(k, p).RetryRead? && ContOf(k, p).pipe == h
  }

  /** If the pipe could serve a waiter, somebody runnable is about to retry. */
  ghost predicate Chain(s: State, h: nat, L: int) {
    h < |s.pipes| && s.pipes[h].listed && |s.pipes[h].buf| >= L && Q(s.k, PipeQ(h)) != [] ==>
      exists p :: RetryingRead(s.k, p, h)
  }

  /** A step that leaves pipe h and its wait list as they were. */
  lemma ChainElsewhere(s: Good, w: Wake, f: Fin, s': State, h: nat, L: int)
    requires Moved(s, w, f, s') && Chain(s, h, L) && h < |s.pipes| && h < |s'.pipes| && s'.pipes[h] == s.pipes[h]
    requires WakesNone(w) || w.chan != PipeQ(h)
    requires f.Block? ==> ChanOf(f.cont) != PipeQ(h)
    requires ContOf(s.k, s.k.active).RetryRead? ==> ContOf(s.k, s.k.active).pipe != h
    ensures Chain(s', h, L)
  {
    hide Move, WakeUp, Core;
    ActiveAlive(s);
    MoveLists(s.k, w, f, PipeQ(h));
    if s.pipes[h].listed && |s.pipes[h].buf| >= L && Q(s.k, PipeQ(h)) != [] {
      var p :| RetryingRead(s.k, p, h);
      Others(s, w, f, p);
      assert RetryingRead(s'.k, p, h);
    }
  }

  /** A step on pipe h that wakes its first waiter hands the retry on. */
  lemma ChainHandsOn(s: Good, f: Fin, s': State, h: nat, L: int)
    requires Moved(s, Heads(PipeQ(h), 1), f, s') && f.Ret?
    ensures Chain(s', h, L)
  {
    hide Move, Core;
    var q := Q(s.k, PipeQ(h));
    HeadsMove(s.k, PipeQ(h), 1, f.value);
    if q != [] {
      HeadWoken(s, PipeQ(h), f);
      assert RetryingRead(s'.k, q[0], h);
    }
  }

  lemma ChainTryRead(s: Good, g: nat, id: int, len: int, seen: bool, s': State, h: nat, L: int)
    requires s.k.active != IDLE && h < |s.pipes| && g < |s.pipes| && len >= 0
    requires ContOf(s.k, s.k.active).RetryRead? ==> ContOf(s.k, s.k.active).pipe == g
    requires Chain(s, h, L) && AtMost(s', h, L)
    requires var p := PlanTryRead(s, g, id, len, seen); s' == p.next.(k := Move(s.k, p.wake, p.fin))
    ensures Chain(s', h, L)
  {
    hide Move, Core, Within, Chain;
    ActiveAlive(s);
    var p := PlanTryRead(s, g, id, len, seen);
    Self(s, p.wake, p.fin);
    if g != h {
      ChainElsewhere(s, p.wake, p.fin, s', h, L);
    } else if p.fin.Block? {
      assert Alive(s'.k, s.k.active) && len <= L;
      ChainIdle(s', h, L);
    } else {
      ChainHandsOn(s, p.fin, s', h, L);
    }
  }

  lemma ChainIdle(s: State, h: nat, L: int)
    requires h < |s.pipes| ==> !s.pipes[h].listed || |s.pipes[h].buf| < L || Q(s.k, PipeQ(h)) == []
    ensures Chain(s, h, L)
  {
  }

  lemma ChainRetry(s: Good, s': State, h: nat, L: int)
    requires Enabled(s, Resume) && PipeInv(s) && ContOf(s.k, s.k.active).RetryRead?
    requires h < |s.pipes| && Chain(s, h, L) && AtMost(s', h, L) && s' == Step(s, Resume)
    ensures Chain(s', h, L)
  {
    hide Move, Core, Within, Chain;
    ActiveAlive(s);
    var c := ContOf(s.k, s.k.active);
    assert ReadFits(s, s.k.active);
    if c.seen || FindPipe(s.pipes, c.pipeId, 0).Some? {
      ChainTryRead(s, c.pipe, c.pipeId, c.len, true, s', h, L);
    } else if c.pipe == h {
      assert !s.pipes[h].listed;
      ChainIdle(s', h, L);
    } else {
      ChainElsewhere(s, NoWake, Ret(ERROR), s', h, L);
    }
  }

  lemma ChainWrite(s: Good, e: Event, s': State, h: nat, L: int)
    requires Enabled(s, e) && e.PipeWrite? && h < |s.pipes| && Chain(s, h, L) && s' == Step(s, e)
    ensures Chain(s', h, L)
  {
    hide Move, Core, Within, Chain;
    ActiveAlive(s);
    var p := PlanPipeWrite(s, e.id, e.len, e.data);
    if p.wake == Heads(PipeQ(h), 1) {
      ChainHandsOn(s, p.fin, s', h, L);
    } else {
      ChainElsewhere(s, p.wake, p.fin, s', h, L);
    }
  }

  lemma ChainDestroy(s: Good, p: Plan, s': State, h: nat, L: int)
    requires MoveOk(s.k, p.fin) && (PipesAlone(s, p) || DestroysOne(s, p)) && h < |s.pipes| && Chain(s, h, L)
    requires !ContOf(s.k, s.k.active).RetryRead?
    requires s' == p.next.(k := Move(s.k, p.wake, p.fin))
    ensures Chain(s', h, L)
  {
    hide Move, Core, Chain;
    if DestroysOne(s, p) && p.wake.chan.pipe == h {
      ChainIdle(s', h, L);
    } else {
      ChainElsewhere(s, p.wake, p.fin, s', h, L);
    }
  }

  lemma ChainPipeCall(s: Good, e: Event, h: nat, L: int)
    requires Enabled(s, e) && PipeInv(s) && AreaOf(s, e) == PipeArea
    requires h < |s.pipes| && Chain(s, h, L) && AtMost(Step(s, e), h, L)
    ensures Chain(Step(s, e), h, L)
  {
    hide Move, Core, Within, Chain, AtMost, PipeInv;
    ActiveAlive(s);
    var s' := Step(s, e);
    match e
    case PipeInit => ChainElsewhere(s, NoWake, Ret(0), s', h, L);
    case PipeRead(id, len) =>
      if id < 0 || len < 0 || FindPipe(s.pipes, id, 0).None? {
        ChainElsewhere(s, NoWake, Ret(ERROR), s', h, L);
      } else {
        ChainTryRead(s, FindPipe(s.pipes, id, 0).value, id, len, false, s', h, L);
      }
    case PipeWrite(_, _, _) => ChainWrite(s, e, s', h, L);
    case Resume => ChainRetry(s, s', h, L);
  }

  /** A pipe just created has no waiters. */
  lemma ChainNew(s: Good, e: Event, h: nat, L: int)
    requires Enabled(s, e) && PipeInv(s) && h >= |s.pipes|
    ensures Chain(Step(s, e), h, L)
  {
    hide Move, Core, PlanOf;
    PlanIsRegular(s, e);
    ActiveAlive(s);
    var p := PlanOf(s, e);
    NewPipes(s, e);
    MoveLists(s.k, p.wake, p.fin, PipeQ(h));
    if Q(s.k, PipeQ(h)) != [] {
      var x := Q(s.k, PipeQ(h))[0];
      Waiter(s, PipeQ(h), x);
      assert ReadFits(s, x);
    }
  }

  lemma NewPipes(s: Good, e: Event)
    requires Enabled(s, e)
    ensures !e.PipeInit? ==> |PlanOf(s, e).next.pipes| == |s.pipes|
    ensures e.PipeInit? ==> PlanOf(s, e).wake == NoWake && PlanOf(s, e).fin == Ret(0)
  {
    hide Core, Within, PipesAlone;
    PlanIsRegular(s, e);
    if AreaOf(s, e) == PipeArea {
      hide PlanReclaim;
    }
  }

  lemma ChainStep(s: Good, e: Event, h: nat, L: int)
    requires Enabled(s, e) && PipeInv(s) && Chain(s, h, L) && AtMost(Step(s, e), h, L)
    ensures Chain(Step(s, e), h, L)
  {
    hide Move, Core, PipeInv, Chain, AtMost, PlanOf;
    PlanIsRegular(s, e);
    if h >= |s.pipes| {
      ChainNew(s, e, h, L);
    } else if AreaOf(s, e) == PipeArea {
      ChainPipeCall(s, e, h, L);
    } else {
      if e.Reclaim? {
        ReclaimShape(s, e);
      }
      ChainDestroy(s, PlanOf(s, e), Step(s, e), h, L);
    }
  }

  lemma ReclaimShape(s: Good, e: Event)
    requires Enabled(s, e) && e.Reclaim?
    ensures PipesAlone(s, PlanOf(s, e)) || DestroysOne(s, PlanOf(s, e))
  {
    hide Core, PlanReclaim, PipesAlone, DestroysOne;
    DestroysOnePipe(s, e.id);
  }

  /** On every run on which no reader that blocks on pipe h asks for more than L bytes: whenever
      the pipe holds L bytes and has a waiter, a retry is under way, although each write or read
      wakes at most one waiter. */
  lemma {:induction false} NoReaderLeftBehind(r: Run, h: nat, L: int, n: nat)
    requires n < |r.states|
    requires forall i :: 0 <= i <= n ==> AtMost(r.states[i], h, L)
    ensures Chain(r.states[n], h, L)
  {
    hide PlanOf, Move, Core, AtMost, PipeInv;
    if n > 0 {
      NoReaderLeftBehind(r, h, L, n - 1);
      EveryProcessHasOnePlace(r, n - 1);
      PipesAreStreams(r, n - 1);
      assert AtMost(r.states[n], h, L);
      ChainStep(r.states[n - 1], r.events[n - 1], h, L);
    }
  }
}
