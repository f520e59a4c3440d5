/**
 TtyWrite on a valid terminal.  Over every run a terminal's busy flag is set exactly while
 a transmission is in flight, so there is never more than one; and a call that returns made
 exactly ceil(len / 1024) transmissions that sum to len, all of them completed.
 */
module Terminals {
  import opened Scheduler
  import opened KernelSteps
  import opened KernelRuns

  function Sum(s: seq<int>): int {
    if s == [] then 0 else Sum(s[..|s| - 1]) + s[|s| - 1]
  }

  /** The chunks sent so far of a call for `total` bytes with `remain` to go. */
  ghost predicate ChunksFit(chunks: seq<int>, remain: int, total: int) {
    && 0 <= remain <= total
    && Sum(chunks) == total - remain
    && |chunks| == (total - remain + TERMINAL_MAX_LINE - 1) / TERMINAL_MAX_LINE
    && (forall i :: 0 <= i < |chunks| ==> 0 < chunks[i] <= TERMINAL_MAX_LINE)
    && (remain > 0 ==> (total - remain) % TERMINAL_MAX_LINE == 0)
  }

  lemma ChunkFits(chunks: seq<int>, remain: int, total: int)
    requires ChunksFit(chunks, remain, total) && remain > 0
    ensures ChunksFit(chunks + [ChunkLen(remain)], remain - ChunkLen(remain), total)
  {
    var c := chunks + [ChunkLen(remain)];
    assert c[..|c| - 1] == chunks;
  }

  /** A process inside TtyWrite has sent what its position says. */
  ghost predicate WriterFits(s: State, p: int) {
    var c := ContOf(s.k, p);
    (c.TtyBusy? || c.TtySent?) ==>
      && c.tty < NUM_TERMINALS && ChunksFit(ChunksOf(s.log, p), c.remain, c.total)
      && (c.TtyBusy? ==> c.remain > 0)
  }

  /** At most one transmission in flight, flagged busy, and its sender is blocked behind it. */
  ghost predicate LineOk(s: State, t: nat)
    requires t < |s.ttys|
  {
    && (s.ttys[t].busy <==> s.ttys[t].line != [])
    && |s.ttys[t].line| <= 1
    && (s.ttys[t].line != [] ==> Sending(s.k, s.ttys[t].line[0].pid, t))
  }

  ghost predicate Sending(k: Sched, p: int, t: nat) {
    p in Q(k, IoQ) && ContOf(k, p).TtySent? && ContOf(k, p).tty == t
  }

  ghost predicate TtyInv(s: State) {
    && |s.ttys| == NUM_TERMINALS
    && (forall t :: 0 <= t < NUM_TERMINALS ==> LineOk(s, t))
    && (forall p :: Alive(s.k, p) ==> WriterFits(s, p))
  }

  /** A sender stays blocked through every move that does not wake it. */
  lemma StillSending(s: Good, w: Wake, f: Fin, s': State, p: int, t: nat)
    requires Moved(s, w, f, s') && Sending(s.k, p, t)
    requires WakesNone(w) || w.chan != IoQ || (w.At? && w.index < |Q(s.k, IoQ)| && Q(s.k, IoQ)[w.index] != p)
    ensures Sending(s'.k, p, t)
  {
    hide Move, Core;
    Waiter(s, IoQ, p);
    Others(s, w, f, p);
    MoveLists(s.k, w, f, IoQ);
    var q := Q(s.k, IoQ);
    if w.At? && w.chan == IoQ {
      assert q == q[..w.index] + [q[w.index]] + q[w.index + 1..];
    }
  }

  lemma WritersFit(s: Good, w: Wake, f: Fin, s': State)
    requires Moved(s, w, f, s') && TtyInv(s)
    requires forall p :: p != s.k.active ==> ChunksOf(s'.log, p) == ChunksOf(s.log, p)
    requires f.Block? || f.Ret? || ChunksOf(s'.log, s.k.active) == ChunksOf(s.log, s.k.active)
    requires f.Block? && (f.cont.TtyBusy? || f.cont.TtySent?) ==>
               && f.cont.tty < NUM_TERMINALS && ChunksFit(ChunksOf(s'.log, s.k.active), f.cont.remain, f.cont.total)
               && (f.cont.TtyBusy? ==> f.cont.remain > 0)
    ensures forall p :: Alive(s'.k, p) ==> WriterFits(s', p)
  {
    hide Move, Core, ChunksFit;
    ActiveAlive(s);
    forall p | Alive(s'.k, p) ensures WriterFits(s', p) {
      Self(s, w, f);
      if p != s.k.active {
        Others(s, w, f, p);
      }
      if Alive(s.k, p) {
        assert WriterFits(s, p);
      }
    }
  }

  lemma TtysUntouched(s: Good, p: Plan, s': State)
    requires MoveOk(s.k, p.fin) && TtyInv(s) && TtysAlone(s, p)
    requires s' == p.next.(k := Move(s.k, p.wake, p.fin))
    ensures TtyInv(s')
  {
    hide Move, Core, WriterFits;
    WritersFit(s, p.wake, p.fin, s');
    forall t | 0 <= t < NUM_TERMINALS ensures LineOk(s', t) {
      assert LineOk(s, t);
      if s.ttys[t].line != [] {
        StillSending(s, p.wake, p.fin, s', s.ttys[t].line[0].pid, t);
      }
    }
  }

  /** The loop head of TtyWrite, reached at entry and after every wake-up.  `s0` is `s`
      with the caller's own chunk history possibly cleared. */
  lemma LoopKeeps(s: Good, s0: State, t: nat, remain: int, total: int, s': State)
    requires s.k.active != IDLE && TtyInv(s) && t < NUM_TERMINALS
    requires s0 == s.(log := s.log.(chunks := s0.log.chunks))
    requires forall p :: p != s.k.active ==> ChunksOf(s0.log, p) == ChunksOf(s.log, p)
    requires ChunksFit(ChunksOf(s0.log, s.k.active), remain, total)
    requires var p := PlanTtyLoop(s0, t, remain, total); s' == p.next.(k := Move(s.k, p.wake, p.fin))
    ensures TtyInv(s')
  {
    hide Move, Core, Within, ChunksFit, WriterFits, LineOk;
    ActiveAlive(s);
    var p := PlanTtyLoop(s0, t, remain, total);
    LoopChunks(s0, t, remain, total);
    WritersFit(s, p.wake, p.fin, s');
    forall u | 0 <= u < NUM_TERMINALS ensures LineOk(s', u) {
      assert LineOk(s, u);
      LoopLine(s, p.fin, s', u, remain > 0 && !s.ttys[t].busy && u == t);
    }
  }

  lemma LoopChunks(s: State, t: nat, remain: int, total: int)
    requires t < |s.ttys| && ChunksFit(ChunksOf(s.log, s.k.active), remain, total)
    ensures var p := PlanTtyLoop(s, t, remain, total);
            && p.wake == NoWake && (p.fin.Ret? || p.fin.Block?)
            && (forall x :: x != s.k.active ==> ChunksOf(p.next.log, x) == ChunksOf(s.log, x))
            && (p.fin.Block? ==>
                  && (p.fin.cont.TtyBusy? || p.fin.cont.TtySent?) && p.fin.cont.tty == t
                  && ChunksFit(ChunksOf(p.next.log, s.k.active), p.fin.cont.remain, p.fin.cont.total)
                  && (p.fin.cont.TtyBusy? ==> p.fin.cont.remain > 0))
  {
    hide Within, ChunksFit;
    if remain > 0 {
      ChunkFits(ChunksOf(s.log, s.k.active), remain, total);
    }
  }

  /** A terminal after the loop head: as it was, or with the caller's chunk in flight. */
  lemma LoopLine(s: Good, f: Fin, s': State, u: nat, sends: bool)
    requires Moved(s, NoWake, f, s') && u < |s.ttys| && |s'.ttys| == |s.ttys| && LineOk(s, u)
    requires !sends ==> s'.ttys[u] == s.ttys[u]
    requires sends ==> !s.ttys[u].busy && s'.ttys[u].busy && |s'.ttys[u].line| == |s.ttys[u].line| + 1
    requires sends ==> s'.ttys[u].line[|s.ttys[u].line|].pid == s.k.active
    requires sends ==> f.Block? && f.cont.TtySent? && f.cont.tty == u
    ensures LineOk(s', u)
  {
    hide Move, Core;
    if sends {
      NewSender(s, f, s', u);
    } else if s.ttys[u].line != [] {
      StillSending(s, NoWake, f, s', s.ttys[u].line[0].pid, u);
    }
  }

  lemma NewSender(s: Good, f: Fin, s': State, t: nat)
    requires Moved(s, NoWake, f, s') && f.Block? && f.cont.TtySent? && f.cont.tty == t
    ensures Sending(s'.k, s.k.active, t)
  {
    hide Move, Core;
    ActiveAlive(s);
    Self(s, NoWake, f);
    MoveLists(s.k, NoWake, f, IoQ);
  }

  lemma EntryKeeps(s: Good, t: int, len: int)
    requires Enabled(s, TtyWrite(t, len)) && TtyInv(s)
    ensures TtyInv(Step(s, TtyWrite(t, len)))
  {
    hide Move, Core, Within, TtyInv, PlanTtyLoop;
    ActiveAlive(s);
    var s' := Step(s, TtyWrite(t, len));
    if t < 0 || t > NUM_TERMINALS || len < 0 {
      TtysUntouched(s, Fails(s), s');
    } else {
      var s0 := s.(log := s.log.(chunks := s.log.chunks[s.k.active := []]));
      LoopKeeps(s, s0, t, len, len, s');
    }
  }

  lemma ResumeKeeps(s: Good)
    requires Enabled(s, Resume) && TtyInv(s)
    requires ContOf(s.k, s.k.active).TtyBusy? || ContOf(s.k, s.k.active).TtySent?
    ensures TtyInv(Step(s, Resume))
  {
    hide Move, Core, Within, PlanTtyLoop;
    ActiveAlive(s);
    var c := ContOf(s.k, s.k.active);
    assert WriterFits(s, s.k.active);
    LoopKeeps(s, s, c.tty, c.remain, c.total, Step(s, Resume));
  }

  /** The completion trap frees the terminal and wakes a writer of that terminal only. */
  lemma TransmittedKeeps(s: Good, t: int)
    requires Enabled(s, Transmitted(t)) && TtyInv(s)
    ensures TtyInv(Step(s, Transmitted(t)))
  {
    hide Move, Core, Within, WriterFits;
    ActiveAlive(s);
    var p := PlanTransmitted(s, t);
    var s' := Step(s, Transmitted(t));
    WritersFit(s, p.wake, p.fin, s');
    forall u | 0 <= u < NUM_TERMINALS ensures LineOk(s', u) {
      assert LineOk(s, u);
      if u != t && s.ttys[u].line != [] {
        StillSending(s, p.wake, p.fin, s', s.ttys[u].line[0].pid, u);
      }
    }
  }

  lemma TtyStep(s: Good, e: Event)
    requires Enabled(s, e) && TtyInv(s)
    ensures TtyInv(Step(s, e))
  {
    hide Move, Core, TtyInv, TtysAlone, PlanTtyWrite, PlanTtyLoop, PlanTransmitted;
    PlanIsRegular(s, e);
    if AreaOf(s, e) == TtyArea {
      match e
      case TtyWrite(t, len) => EntryKeeps(s, t, len);
      case Transmitted(t) => TransmittedKeeps(s, t);
      case Resume => ResumeKeeps(s);
    } else {
      TtysUntouched(s, PlanOf(s, e), Step(s, e));
    }
  }

  /** On every run `busy_terminal[t]` is set exactly while one transmission is in flight. */
  lemma {:induction false} TerminalsAreExclusive(r: Run, n: nat)
    requires n < |r.states|
    ensures TtyInv(r.states[n])
  {
    hide PlanOf, Move, Core;
    if n > 0 {
      TerminalsAreExclusive(r, n - 1);
      EveryProcessHasOnePlace(r, n - 1);
      TtyStep(r.states[n - 1], r.events[n - 1]);
    }
  }

  /** Nothing of p's is in flight on any terminal. */
  ghost predicate NothingInFlight(s: State, p: int) {
    forall t, i :: 0 <= t < |s.ttys| && 0 <= i < |s.ttys[t].line| ==> s.ttys[t].line[i].pid != p
  }

  /** On every run a TtyWrite that was blocked and returns has made exactly ceil(len / 1024)
      transmissions of at most 1024 bytes, summing to len, and all of them have completed. */
  lemma WriteCompletes(r: Run, n: nat)
    requires n < |r.events| && r.events[n].Resume? && PlanOf(r.states[n], r.events[n]).fin.Ret?
    requires ContOf(r.states[n].k, r.states[n].k.active).TtyBusy? || ContOf(r.states[n].k, r.states[n].k.active).TtySent?
    ensures var s, p := r.states[n], r.states[n].k.active;
            var len := ContOf(s.k, p).total;
            && PlanOf(s, r.events[n]).fin == Ret(len)
            && Sum(ChunksOf(s.log, p)) == len
            && |ChunksOf(s.log, p)| == (len + TERMINAL_MAX_LINE - 1) / TERMINAL_MAX_LINE
            && (forall i :: 0 <= i < |ChunksOf(s.log, p)| ==> 0 < ChunksOf(s.log, p)[i] <= TERMINAL_MAX_LINE)
            && NothingInFlight(s, p)
  {
    hide Step, Core;
    TerminalsAreExclusive(r, n);
    EveryProcessHasOnePlace(r, n);
    var s, p := r.states[n], r.states[n].k.active;
    ActiveAlive(s);
    assert WriterFits(s, p);
    forall t, i | 0 <= t < |s.ttys| && 0 <= i < |s.ttys[t].line| ensures s.ttys[t].line[i].pid != p {
      assert LineOk(s, t);
      if s.ttys[t].line[i].pid == p {
        Waiter(s, IoQ, p);
      }
    }
  }
}
