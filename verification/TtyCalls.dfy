/**
 What TtyWrite and the transmit trap do, over every run.  A write sends a chunk if the terminal is idle and
 waits if it is busy; the trap frees the terminal and makes the first writer of that terminal ready.
 */
module TtyCalls {
  import opened Constants
  import opened Scheduler
  import opened KernelSteps
  import opened KernelRuns
  import opened Terminals
  import opened Calls

  // ----- TtyWrite -----------------------------------------------------------------------

  /** One round of a write on terminal t with `remain` of `total` bytes to go: with nothing to go it returns the
      total; on an idle terminal it has the next chunk, at most 1024 bytes, in flight and waits for
      it; on a busy one it waits with as much to go. */
  ghost predicate SendsOrWaits(s: State, s': State, t: nat, remain: nat, total: int) {
    var n := if remain <= 1024 then remain else 1024;
    && t < |s.ttys| == |s'.ttys| && s' == s.(k := s'.k, ttys := s.ttys[t := s'.ttys[t]], log := s.log.(chunks := s'.log.chunks))
    && (remain == 0 ==> Returned(s, s', total) && ListsSame(s, s') && s'.ttys[t] == s.ttys[t])
    && (remain > 0 && s.ttys[t].line == [] ==>
          && WaitsIn(s, s', IoQ) && ContOf(s'.k, s.k.active) == TtySent(t, remain - n, total)
          && s'.ttys[t] == Tty(true, [Tx(s.k.active, n)]))
    && (remain > 0 && s.ttys[t].line != [] ==>
          && WaitsIn(s, s', IoQ) && ContOf(s'.k, s.k.active) == TtyBusy(t, remain, total)
          && s'.ttys[t] == s.ttys[t])
  }

  lemma Round(s: Good, e: Event, s0: State, t: nat, remain: nat, total: int)
    requires Enabled(s, e) && TtyInv(s) && t < NUM_TERMINALS && PlanOf(s, e) == PlanTtyLoop(s0, t, remain, total)
    requires s0 == s.(log := s.log.(chunks := s0.log.chunks))
    ensures SendsOrWaits(s, Step(s, e), t, remain, total)
  {
    hide PlanOf, Enabled, Core, Move, Within, WaitsIn, Returned, ListsSame, WriterFits;
    assert LineOk(s, t);
    if remain == 0 {
      RetEnds(s, e, total);
    } else if s.ttys[t].line == [] {
      var n := if remain <= 1024 then remain else 1024;
      BlockEnds(s, e, TtySent(t, remain - n, total));
      assert [] + [Tx(s.k.active, n)] == [Tx(s.k.active, n)];
    } else {
      BlockEnds(s, e, TtyBusy(t, remain, total));
    }
  }

  lemma RunInv(r: Run, n: nat)
    requires n < |r.events|
    ensures Core(r.states[n]) && TtyInv(r.states[n])
    ensures Enabled(r.states[n], r.events[n]) && r.states[n + 1] == Step(r.states[n], r.events[n])
  {
    hide Step, Enabled, Core, TtyInv;
    EveryProcessHasOnePlace(r, n);
    TerminalsAreExclusive(r, n);
  }

  lemma TtyWriteOutcome(r: Run, n: nat, t: int, len: int)
    requires n < |r.events| && r.events[n] == TtyWrite(t, len)
    ensures t < 0 || t >= 4 || len < 0 ==> Refused(r.states[n], r.states[n + 1])
    ensures 0 <= t < 4 && len >= 0 ==> SendsOrWaits(r.states[n], r.states[n + 1], t, len, len)
  {
    hide Step, Core, TtyInv, SendsOrWaits, OnlyReturned, PlanTtyLoop;
    RunInv(r, n);
    var s, e := r.states[n], r.events[n];
    if t < 0 || t >= 4 || len < 0 {
      RetEnds(s, e, ERROR);
    } else {
      Round(s, e, s.(log := s.log.(chunks := s.log.chunks[s.k.active := []])), t, len, len);
    }
  }

  /** A woken writer goes on where it stopped: with what its position says is to go. */
  lemma WokenWriteOutcome(r: Run, n: nat)
    requires n < |r.events|
    requires ContOf(r.states[n].k, r.states[n].k.active).TtyBusy? || ContOf(r.states[n].k, r.states[n].k.active).TtySent?
    ensures var c := ContOf(r.states[n].k, r.states[n].k.active);
            r.events[n] == Resume && c.remain >= 0 && SendsOrWaits(r.states[n], r.states[n + 1], c.tty, c.remain, c.total)
  {
    hide Step, Core, SendsOrWaits, PlanTtyLoop, LineOk, ChunksFit;
    RunInv(r, n);
    var s := r.states[n];
    var c := ContOf(s.k, s.k.active);
    ActiveAlive(s);
    assert WriterFits(s, s.k.active);
    Remains(ChunksOf(s.log, s.k.active), c.remain, c.total);
    Round(s, Resume, s, c.tty, c.remain, c.total);
  }

  lemma Remains(chunks: seq<int>, remain: int, total: int)
    requires ChunksFit(chunks, remain, total)
    ensures remain >= 0
  {
  }

  // ----- the transmit trap ------------------------------------------------------------------

  /** p is blocked in a TtyWrite on terminal t. */
  predicate WritesOn(s: State, p: int, t: int) {
    var c := ContOf(s.k, p);
    (c.TtyBusy? && c.tty == t) || (c.TtySent? && c.tty == t)
  }

  /** The i-th process of the io list is the first that writes on t. */
  ghost predicate FirstWriter(s: State, t: int, i: int) {
    var q := Q(s.k, IoQ);
    0 <= i < |q| && WritesOn(s, q[i], t) && forall j :: 0 <= j < i ==> !WritesOn(s, q[j], t)
  }

  ghost predicate NoWriter(s: State, t: int) {
    forall i :: 0 <= i < |Q(s.k, IoQ)| ==> !WritesOn(s, Q(s.k, IoQ)[i], t)
  }

  lemma WriterFound(s: State, t: int)
    ensures FindWriter(s.k, Q(s.k, IoQ), t, 0).None? <==> NoWriter(s, t)
    ensures forall i :: FirstWriter(s, t, i) <==> FindWriter(s.k, Q(s.k, IoQ), t, 0) == Some(i)
  {
    var q := Q(s.k, IoQ);
    var f := FindWriter(s.k, q, t, 0);
    assert forall p :: WritesTo(s.k, p, t) <==> WritesOn(s, p, t);
    forall i ensures FirstWriter(s, t, i) <==> f == Some(i) {
      if FirstWriter(s, t, i) {
        assert f.Some?;
      }
    }
  }

  /** The trap frees the terminal.  The first process of the io list that writes on it leaves the list and is last in
      the ready queue; the others keep their order, and without such a process nobody is woken.  Nothing
      else changes: not the running process, no other list, no kernel position. */
  lemma TransmittedOutcome(r: Run, n: nat, t: int)
    requires n < |r.events| && r.events[n] == Transmitted(t)
    ensures 0 <= t < 4 && |r.states[n].ttys| == 4
    ensures var s, s' := r.states[n], r.states[n + 1];
            && s' == s.(k := s'.k, ttys := s.ttys[t := Tty(false, [])])
            && s'.k.active == s.k.active && s'.k.pcbs == s.k.pcbs
            && (forall c :: c != IoQ ==> Q(s'.k, c) == Q(s.k, c))
            && (NoWriter(s, t) ==> ListsSame(s, s'))
            && (forall i :: FirstWriter(s, t, i) ==>
                  && Q(s'.k, IoQ) == Q(s.k, IoQ)[..i] + Q(s.k, IoQ)[i + 1..]
                  && s'.k.ready == s.k.ready + [Q(s.k, IoQ)[i]])
  {
    hide Core, NoWriter, FirstWriter, FindWriter, Within, WriterFits;
    RunInv(r, n);
    var s := r.states[n];
    WriterFound(s, t);
    assert LineOk(s, t);
    assert s.ttys[t].line[1..] == [];
  }

  /** When the process whose bytes were in flight is the only writer on the terminal, the trap makes it ready. */
  lemma SenderIsWoken(r: Run, n: nat, t: int, p: int)
    requires n < |r.events| && r.events[n] == Transmitted(t) && 0 <= t < |r.states[n].ttys|
    requires exists i :: 0 <= i < |r.states[n].ttys[t].line| && r.states[n].ttys[t].line[i].pid == p
    requires forall x :: x in Q(r.states[n].k, IoQ) && WritesOn(r.states[n], x, t) ==> x == p
    ensures p !in Q(r.states[n + 1].k, IoQ) && r.states[n + 1].k.ready == r.states[n].k.ready + [p]
  {
    hide Step, Core, WriterFits;
    RunInv(r, n);
    var s := r.states[n];
    assert LineOk(s, t);
    TransmittedOutcome(r, n, t);
    WriterFound(s, t);
    var q := Q(s.k, IoQ);
    assert p in q && WritesOn(s, p, t);
    var i := FindWriter(s.k, q, t, 0).value;
    assert FirstWriter(s, t, i) && q[i] in q && q[i] == p;
    OnlyOnce(s, i, p);
  }

  lemma OnlyOnce(s: Good, i: nat, p: int)
    requires i < |Q(s.k, IoQ)| && Q(s.k, IoQ)[i] == p
    ensures p !in Q(s.k, IoQ)[..i] + Q(s.k, IoQ)[i + 1..]
  {
    assert NoDup(Q(s.k, IoQ));
  }
}
