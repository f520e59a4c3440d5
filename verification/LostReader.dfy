/**
 Runs on which a pipe reader is left behind.  Reader 2 asks for `a` bytes, reader 3 for fewer; a
 write of what 3 asks for wakes 2, which goes back to waiting, and nobody wakes 3.  So the number
 of bytes that keeps the wake-up chain going is exactly the largest request.

 The same run goes on: the pipe is reclaimed, which wakes 3 and leaves 2 behind, and a new pipe gets
 the old id.  Then 3 still reads from the old pipe, and that wakes 2 again.
 */
module LostReader {
  import opened Scheduler
  import opened KernelSteps
  import opened KernelRuns
  import opened Pipes
  import opened SampleRuns

  function Wants(len: int, seen: bool): Pcb { Pcb(true, RetryRead(0, 1, len, seen), 0) }

  function OnPipe(q: seq<int>): map<Chan, seq<int>> { noSleepers[PipeQ(0) := q] }

  const s1 := Boot().(pipes := [Pipe(1, true, [])], reclaims := [ReclaimInfo(1, PipeKind)])
  const s2 := s1.(k := Sched(0, [1, 2], map[], [P(2), P(0), P(0)]), family := [Kin(NOBODY, [2]), idle, Kin(0, [])])
  const s3 := s1.(k := Sched(0, [1, 2, 3], map[], threePcbs), family := threeKin)
  const s4 := s3.(k := Sched(2, [3, 0, 1], noSleepers, threePcbs))

  function S5(a: int): State {
    s4.(k := Sched(3, [0, 1], OnPipe([2]), [P(3), P(0), Wants(a, false), P(0)]))
  }

  function S6(a: int, b: int): State {
    s4.(k := Sched(0, [1], OnPipe([2, 3]), [P(3), P(0), Wants(a, false), Wants(b, false)]))
  }

  function S7(a: int, d: seq<int>): State {
    s4.(k := Sched(0, [1, 2], OnPipe([3]), [P(|d|), P(0), Wants(a, false), Wants(|d|, false)]),
        pipes := [Pipe(1, true, d)], log := s4.log.(accepted := map[0 := d]))
  }

  function S8(a: int, d: seq<int>): State {
    Next(S7(a, d), 2, [0, 1], OnPipe([3]))
  }

  function S9(a: int, d: seq<int>): State {
    S7(a, d).(k := Sched(0, [1], OnPipe([3, 2]), [P(|d|), P(0), Wants(a, true), Wants(|d|, false)]))
  }

  function S10(a: int, d: seq<int>): State {
    S7(a, d).(k := Sched(0, [1, 3], OnPipe([2]), [P(0), P(0), Wants(a, true), Wants(|d|, false)]),
              pipes := [Pipe(1, false, d)], reclaims := [])
  }

  function S11(a: int, d: seq<int>): State {
    S10(a, d).(pipes := [Pipe(1, false, d), Pipe(1, true, [])], reclaims := [ReclaimInfo(1, PipeKind)])
  }

  function S12(a: int, d: seq<int>): State {
    Next(S11(a, d), 3, [0, 1], OnPipe([2]))
  }

  function S13(a: int, d: seq<int>): State {
    S11(a, d).(k := Sched(3, [0, 1, 2], OnPipe([]), [P(0), P(0), Wants(a, true), P(0)]),
               pipes := [Pipe(1, false, []), Pipe(1, true, [])], log := s4.log.(accepted := map[0 := d], delivered := map[0 := d]))
  }

  lemma Init()
    ensures Goes(Boot(), PipeInit, s1)
  {
    assert Boot().k.pcbs[0 := P(0)] == Boot().k.pcbs;
  }

  lemma FirstSteps()
    ensures Goes(s1, Fork, s2) && Goes(s2, Fork, s3) && Goes(s3, Tick, s4)
  {
    hide Goes;
    TwoForks(s1, s2, s3, s4);
  }

  lemma LongBlocks(a: int)
    requires a >= 1
    ensures Goes(s4, PipeRead(1, a), S5(a))
  {
    hide Goes;
    assert FindPipe(s4.pipes, 1, 0) == Some(0);
    Blocks(s4, PipeRead(1, a), RetryRead(0, 1, a, false), [2], 3, [0, 1], S5(a));
  }

  lemma ShortBlocks(a: int, b: int)
    requires a > b >= 1
    ensures Goes(S5(a), PipeRead(1, b), S6(a, b))
  {
    hide Goes;
    assert FindPipe(s4.pipes, 1, 0) == Some(0);
    Blocks(S5(a), PipeRead(1, b), RetryRead(0, 1, b, false), [2, 3], 0, [1], S6(a, b));
  }

  lemma WriteWakesLong(a: int, d: seq<int>)
    requires 1 <= |d| <= PIPE_BUF_SIZE
    ensures Goes(S6(a, |d|), PipeWrite(1, |d|, d), S7(a, d))
  {
    hide Goes;
    assert FindPipe(s4.pipes, 1, 0) == Some(0);
    assert [] + d[..|d|] == d;
    WakesFirst(S6(a, |d|), PipeWrite(1, |d|, d), S7(a, d).(k := S6(a, |d|).k), PipeQ(0), |d|, 2, [3], S7(a, d));
  }

  lemma LongRuns(a: int, d: seq<int>)
    ensures Goes(S7(a, d), Tick, S8(a, d))
  {
    hide Goes;
    TickRotates(S7(a, d), 2, [0, 1], S8(a, d));
  }

  lemma LongBlocksAgain(a: int, d: seq<int>)
    requires a > |d|
    ensures Goes(S8(a, d), Resume, S9(a, d))
  {
    hide Goes;
    assert FindPipe(S8(a, d).pipes, 1, 0) == Some(0);
    Blocks(S8(a, d), Resume, RetryRead(0, 1, a, true), [3, 2], 0, [1], S9(a, d));
  }

  /** The run up to the point where the short reader is left behind. */
  lemma TheRun(a: int, d: seq<int>) returns (r: Run)
    requires a > |d| && 1 <= |d| <= PIPE_BUF_SIZE
    ensures r == Trace([Boot(), s1, s2, s3, s4, S5(a), S6(a, |d|), S7(a, d), S8(a, d), S9(a, d)],
                       [PipeInit, Fork, Fork, Tick, PipeRead(1, a), PipeRead(1, |d|), PipeWrite(1, |d|, d), Tick, Resume])
  {
    hide *;
    var t := Trace([Boot(), s1, s2, s3, s4, S5(a), S6(a, |d|), S7(a, d), S8(a, d), S9(a, d)],
                   [PipeInit, Fork, Fork, Tick, PipeRead(1, a), PipeRead(1, |d|), PipeWrite(1, |d|, d), Tick, Resume]);
    Init();
    FirstSteps();
    LongBlocks(a);
    ShortBlocks(a, |d|);
    WriteWakesLong(a, d);
    LongRuns(a, d);
    LongBlocksAgain(a, d);
    RunOf(t.states, t.events);
    r := t;
  }

  /** A waiter of pipe h could be served from what the pipe holds. */
  ghost predicate CanServe(s: State, h: nat) {
    h < |s.pipes| && exists p :: p in Q(s.k, PipeQ(h)) && ContOf(s.k, p).RetryRead? && ContOf(s.k, p).len <= |s.pipes[h].buf|
  }

  /** Whatever the lengths a > b and the b bytes: a run with these two requests on which the pipe
      holds all that process 3 waits for, and nobody who could run is about to read. */
  lemma ReaderLeftBehind(a: int, d: seq<int>) returns (r: Run)
    requires a > |d| && 1 <= |d| <= PIPE_BUF_SIZE
    ensures |r.states| == 10 && forall i :: 0 <= i < 10 ==> AtMost(r.states[i], 0, a)
    ensures var s := r.states[9];
            && s.pipes == [Pipe(1, true, d)] && 3 in Q(s.k, PipeQ(0)) && ContOf(s.k, 3) == RetryRead(0, 1, |d|, false)
            && CanServe(s, 0) && (forall p :: Runnable(s.k, p) ==> ContOf(s.k, p) == User)
  {
    hide Step, Enabled, AtMost;
    r := TheRun(a, d);
    SmallRequests(a, d);
    Stranded(a, d);
  }

  lemma SmallRequests(a: int, d: seq<int>)
    requires a > |d|
    ensures forall h, L :: L >= a ==>
              && AtMost(Boot(), h, L) && AtMost(s1, h, L) && AtMost(s2, h, L) && AtMost(s3, h, L) && AtMost(s4, h, L)
              && AtMost(S5(a), h, L) && AtMost(S6(a, |d|), h, L) && AtMost(S7(a, d), h, L) && AtMost(S8(a, d), h, L)
              && AtMost(S9(a, d), h, L)
  {
  }

  lemma Stranded(a: int, d: seq<int>)
    ensures var s := S9(a, d);
            && s.pipes == [Pipe(1, true, d)] && 3 in Q(s.k, PipeQ(0)) && ContOf(s.k, 3) == RetryRead(0, 1, |d|, false)
            && CanServe(s, 0) && (forall p :: Runnable(s.k, p) ==> ContOf(s.k, p) == User)
  {
    assert Q(S9(a, d).k, PipeQ(0)) == [3, 2];
    assert 3 in Q(S9(a, d).k, PipeQ(0));
  }

  // ----- exactly how many bytes keep the chain going -----------------------------------------

  /** The run on which no reader of pipe h ever asks for more than L bytes. */
  ghost predicate Bounded(r: Run, h: nat, L: int, n: nat)
    requires n < |r.states|
  {
    forall i :: 0 <= i <= n ==> AtMost(r.states[i], h, L)
  }

  /** On every run with requests of at most L bytes: a pipe that holds B bytes and has a waiter has
      a retry under way. */
  ghost predicate AlwaysChained(B: int, L: int) {
    forall r: Run, h: nat, n: nat :: n < |r.states| && Bounded(r, h, L, n) ==> Chain(r.states[n], h, B)
  }

  /** The same where only waiters that could be served matter. */
  ghost predicate AlwaysServed(B: int, L: int) {
    forall r: Run, h: nat, n: nat :: n < |r.states| && Bounded(r, h, L, n) && CanServe(r.states[n], h) ==> Chain(r.states[n], h, B)
  }

  lemma ChainGrows(r: Run, h: nat, L: int, B: int, n: nat)
    requires n < |r.states| && Bounded(r, h, L, n)
    requires B >= L || L <= 0 || B > PIPE_BUF_SIZE || (L <= 1 && CanServe(r.states[n], h))
    ensures Chain(r.states[n], h, B)
  {
    hide Step, AtMost, Core, StreamOk;
    NoReaderLeftBehind(r, h, L, n);
    PipesAreStreams(r, n);
    var s := r.states[n];
    EveryProcessHasOnePlace(r, n);
    if h < |s.pipes| && Q(s.k, PipeQ(h)) != [] {
      assert PipeOk(s, h);
      HeldFits(s, h);
      forall p | p in Q(s.k, PipeQ(h)) ensures ContOf(s.k, p).RetryRead? && 1 <= ContOf(s.k, p).len <= L {
        Waiter(s, PipeQ(h), p);
        assert ReadFits(s, p);
        Asks(s, h, L, p);
      }
      var x := Q(s.k, PipeQ(h))[0];
      assert x in Q(s.k, PipeQ(h)) && ContOf(s.k, x).RetryRead? && 1 <= ContOf(s.k, x).len <= L;
    }
  }

  lemma HeldFits(s: State, h: nat)
    requires h < |s.pipes| && PipeOk(s, h)
    ensures |s.pipes[h].buf| <= PIPE_BUF_SIZE
  {
  }

  lemma Asks(s: State, h: nat, L: int, p: int)
    requires AtMost(s, h, L) && Alive(s.k, p) && ContOf(s.k, p).RetryRead? && ContOf(s.k, p).pipe == h
    ensures ContOf(s.k, p).len <= L
  {
  }

  /** Holding B bytes keeps the chain going on every run with requests of at most L if and only if
      B is at least L (or no request can block, or no pipe can hold that much). */
  lemma ChainedIff(B: int, L: int)
    ensures AlwaysChained(B, L) <==> B >= L || L <= 0 || B > PIPE_BUF_SIZE
  {
    hide Step, Enabled, AtMost, Chain;
    if B >= L || L <= 0 || B > PIPE_BUF_SIZE {
      forall r: Run, h: nat, n: nat | n < |r.states| && Bounded(r, h, L, n) ensures Chain(r.states[n], h, B) {
        ChainGrows(r, h, L, B, n);
      }
    } else if B <= 0 {
      var r := OneReader(L);
      assert Bounded(r, 0, L, 5) && !Chain(r.states[5], 0, B);
    } else {
      var r := Unchained(L, B);
      assert Bounded(r, 0, L, 9) && !Chain(r.states[9], 0, B);
    }
  }

  /** Counting only waiters that could be served, it is the same but for requests of one byte. */
  lemma ServedIff(B: int, L: int)
    ensures AlwaysServed(B, L) <==> B >= L || L <= 1 || B > PIPE_BUF_SIZE
  {
    hide Step, Enabled, AtMost, Chain, CanServe;
    if B >= L || L <= 1 || B > PIPE_BUF_SIZE {
      forall r: Run, h: nat, n: nat | n < |r.states| && Bounded(r, h, L, n) && CanServe(r.states[n], h)
        ensures Chain(r.states[n], h, B)
      {
        ChainGrows(r, h, L, B, n);
      }
    } else {
      var r := Unchained(L, if B < 1 then 1 else B);
      BelowToo(r.states[9], 0, if B < 1 then 1 else B, B);
      assert Bounded(r, 0, L, 9) && CanServe(r.states[9], 0) && !Chain(r.states[9], 0, B);
    }
  }

  lemma BelowToo(s: State, h: nat, b: int, B: int)
    requires !Chain(s, h, b) && B <= b
    ensures !Chain(s, h, B)
  {
  }

  lemma Unchained(L: int, b: int) returns (r: Run)
    requires 1 <= b < L && b <= PIPE_BUF_SIZE
    ensures |r.states| == 10 && Bounded(r, 0, L, 9) && CanServe(r.states[9], 0) && !Chain(r.states[9], 0, b)
  {
    hide Step, Enabled, AtMost;
    var d := seq(b, _ => 0);
    r := ReaderLeftBehind(L, d);
  }

  /** One reader on an empty pipe. */
  lemma OneReader(L: int) returns (r: Run)
    requires L >= 1
    ensures |r.states| == 6 && Bounded(r, 0, L, 5) && forall B :: B <= 0 ==> !Chain(r.states[5], 0, B)
  {
    hide Step, Enabled, AtMost, Goes, Boot;
    var t := Trace([Boot(), s1, s2, s3, s4, S5(L)], [PipeInit, Fork, Fork, Tick, PipeRead(1, L)]);
    Init();
    FirstSteps();
    LongBlocks(L);
    RunOf(t.states, t.events);
    r := t;
    SmallRequests(L, []);
    NobodyRetries(L);
  }

  lemma NobodyRetries(L: int)
    ensures forall B :: B <= 0 ==> !Chain(S5(L), 0, B)
  {
    assert Q(S5(L).k, PipeQ(0)) == [2];
    assert forall p :: Runnable(S5(L).k, p) ==> ContOf(S5(L).k, p) == User;
  }

  // ----- after a reclaim ----------------------------------------------------------------------

  lemma ReclaimWakesShort(a: int, d: seq<int>)
    ensures Goes(S9(a, d), Reclaim(1), S10(a, d))
  {
    hide Goes, PlanReclaim;
    ReclaimPlan(a, d);
    assert Q(S9(a, d).k, PipeQ(0)) == [3] + [2];
    WakesFirst(S9(a, d), Reclaim(1), S10(a, d).(k := S9(a, d).k), PipeQ(0), 0, 3, [2], S10(a, d));
  }

  lemma ReclaimPlan(a: int, d: seq<int>)
    ensures PlanReclaim(S9(a, d), 1) == Plan(S10(a, d).(k := S9(a, d).k), Heads(PipeQ(0), 1), Ret(0))
  {
    assert FindReclaim(S9(a, d).reclaims, 1, 0) == Some(0) && FindPipe(S9(a, d).pipes, 1, 0) == Some(0);
  }

  lemma SameIdAgain(a: int, d: seq<int>)
    ensures Goes(S10(a, d), PipeInit, S11(a, d))
  {
    hide Goes;
    Returns(S10(a, d), PipeInit, S11(a, d), 0, S11(a, d));
  }

  lemma ShortRuns(a: int, d: seq<int>)
    ensures Goes(S11(a, d), Tick, S12(a, d))
  {
    hide Goes;
    TickRotates(S11(a, d), 3, [0, 1], S12(a, d));
  }

  lemma ShortReads(a: int, d: seq<int>)
    ensures Goes(S12(a, d), Resume, S13(a, d))
  {
    hide Goes, PlanResume;
    var s := S12(a, d);
    ReadPlan(a, d);
    assert Q(s.k, PipeQ(0)) == [2] + [];
    WakesFirst(s, Resume, S13(a, d).(k := s.k), PipeQ(0), 0, 2, [], S13(a, d));
  }

  lemma ReadPlan(a: int, d: seq<int>)
    ensures PlanResume(S12(a, d)) == Plan(S13(a, d).(k := S12(a, d).k), Heads(PipeQ(0), 1), Ret(0))
  {
    assert FindPipe(S12(a, d).pipes, 1, 0) == Some(1);
    assert [] + d[..|d|] == d && d[|d|..] == [];
  }

  /** A reader that a Reclaim leaves behind can still be woken: here the other reader, woken by the
      Reclaim, finds a new pipe with the old id, reads from the old pipe and wakes it. */
  lemma LeftoverWoken(a: int, d: seq<int>) returns (r: Run)
    requires a > |d| && 1 <= |d| <= PIPE_BUF_SIZE
    ensures |r.states| == 14 && r.events[9] == Reclaim(1)
    ensures forall i :: 10 <= i < 14 ==> |r.states[i].pipes| > 0 && !r.states[i].pipes[0].listed
    ensures 2 in Q(r.states[10].k, PipeQ(0)) && 2 in Q(r.states[12].k, PipeQ(0)) && Runnable(r.states[13].k, 2)
  {
    hide Step, Enabled;
    r := Longer(a, d);
    assert 2 in Q(S10(a, d).k, PipeQ(0)) && 2 in Q(S12(a, d).k, PipeQ(0)) && 2 in S13(a, d).k.ready;
  }

  lemma Longer(a: int, d: seq<int>) returns (r: Run)
    requires a > |d| && 1 <= |d| <= PIPE_BUF_SIZE
    ensures |r.states| == 14 && |r.events| == 13 && r.events[9] == Reclaim(1) && r.states[13] == S13(a, d)
    ensures r.states[10] == S10(a, d) && r.states[11] == S11(a, d) && r.states[12] == S12(a, d)
  {
    hide *;
    var t := Trace([Boot(), s1, s2, s3, s4, S5(a), S6(a, |d|), S7(a, d), S8(a, d), S9(a, d), S10(a, d), S11(a, d),
                    S12(a, d), S13(a, d)],
                   [PipeInit, Fork, Fork, Tick, PipeRead(1, a), PipeRead(1, |d|), PipeWrite(1, |d|, d), Tick, Resume,
                    Reclaim(1), PipeInit, Tick, Resume]);
    Init();
    FirstSteps();
    LongBlocks(a);
    ShortBlocks(a, |d|);
    WriteWakesLong(a, d);
    LongRuns(a, d);
    LongBlocksAgain(a, d);
    ReclaimWakesShort(a, d);
    SameIdAgain(a, d);
    ShortRuns(a, d);
    ShortReads(a, d);
    RunOf(t.states, t.events);
    r := t;
  }
}
