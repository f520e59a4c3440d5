/**
 What every system call and trap does, step by step and without reference to how the machine
 computes it: the value a call returns in register 0, whom it wakes, where a caller that blocks
 waits, and what happens to the object it works on.  Objects are found by looking at the lists
 themselves, and who is inside a lock is read off the history.
 */
module Calls {
  import opened Constants
  import opened Scheduler
  import opened KernelSteps
  import opened KernelRuns
  import opened Locks
  import opened Reclaims

  // ----- finding objects -----------------------------------------------------------

  predicate ListedLock(s: State, id: int, h: int) {
    0 <= h < |s.locks| && s.locks[h].listed && s.locks[h].id == id
  }

  predicate ListedCvar(s: State, id: int, h: int) {
    0 <= h < |s.cvars| && s.cvars[h].listed && s.cvars[h].id == id
  }

  predicate ListedPipe(s: State, id: int, h: int) {
    0 <= h < |s.pipes| && s.pipes[h].listed && s.pipes[h].id == id
  }

  predicate Record(s: State, id: int, i: int) {
    0 <= i < |s.reclaims| && s.reclaims[i].id == id
  }

  /** The first object of the list that has the id, or none. */
  ghost predicate LockIs(s: State, id: int, h: int) {
    ListedLock(s, id, h) && forall g :: 0 <= g < h ==> !ListedLock(s, id, g)
  }

  ghost predicate CvarIs(s: State, id: int, h: int) {
    ListedCvar(s, id, h) && forall g :: 0 <= g < h ==> !ListedCvar(s, id, g)
  }

  ghost predicate PipeIs(s: State, id: int, h: int) {
    ListedPipe(s, id, h) && forall g :: 0 <= g < h ==> !ListedPipe(s, id, g)
  }

  ghost predicate RecordIs(s: State, id: int, i: int) {
    Record(s, id, i) && forall g :: 0 <= g < i ==> !Record(s, id, g)
  }

  ghost predicate NoLock(s: State, id: int) { forall h :: !ListedLock(s, id, h) }
  ghost predicate NoCvar(s: State, id: int) { forall h :: !ListedCvar(s, id, h) }
  ghost predicate NoPipe(s: State, id: int) { forall h :: !ListedPipe(s, id, h) }
  ghost predicate NoRecord(s: State, id: int) { forall i :: !Record(s, id, i) }

  lemma LockFound(s: State, id: int)
    ensures FindLock(s.locks, id, 0).None? <==> NoLock(s, id)
    ensures forall h :: LockIs(s, id, h) <==> FindLock(s.locks, id, 0) == Some(h)
  {
    var f := FindLock(s.locks, id, 0);
    if f.Some? {
      assert ListedLock(s, id, f.value);
    }
    forall h ensures LockIs(s, id, h) <==> f == Some(h) {
      if LockIs(s, id, h) {
        assert f.Some?;
      }
    }
  }

  lemma CvarFound(s: State, id: int)
    ensures FindCvar(s.cvars, id, 0).None? <==> NoCvar(s, id)
    ensures forall h :: CvarIs(s, id, h) <==> FindCvar(s.cvars, id, 0) == Some(h)
  {
    FirstCvar(s.cvars, id, 0);
    var f := FindCvar(s.cvars, id, 0);
    if f.Some? {
      assert ListedCvar(s, id, f.value);
    }
    forall h ensures CvarIs(s, id, h) <==> f == Some(h) {
      if CvarIs(s, id, h) {
        assert f.Some?;
      }
    }
  }

  lemma {:induction false} FirstCvar(s: seq<Cvar>, id: int, i: nat)
    ensures FindCvar(s, id, i).Some? ==> forall g :: i <= g < FindCvar(s, id, i).value ==> !(s[g].listed && s[g].id == id)
    decreases |s| - i
  {
    if i < |s| {
      FirstCvar(s, id, i + 1);
    }
  }

  lemma PipeFound(s: State, id: int)
    ensures FindPipe(s.pipes, id, 0).None? <==> NoPipe(s, id)
    ensures forall h :: PipeIs(s, id, h) <==> FindPipe(s.pipes, id, 0) == Some(h)
  {
    FirstPipe(s.pipes, id, 0);
    var f := FindPipe(s.pipes, id, 0);
    if f.Some? {
      assert ListedPipe(s, id, f.value);
    }
    forall h ensures PipeIs(s, id, h) <==> f == Some(h) {
      if PipeIs(s, id, h) {
        assert f.Some?;
      }
    }
  }

  lemma {:induction false} FirstPipe(s: seq<Pipe>, id: int, i: nat)
    ensures FindPipe(s, id, i).Some? ==> forall g :: i <= g < FindPipe(s, id, i).value ==> !(s[g].listed && s[g].id == id)
    decreases |s| - i
  {
    if i < |s| {
      FirstPipe(s, id, i + 1);
    }
  }

  lemma RecordFound(s: State, id: int)
    ensures FindReclaim(s.reclaims, id, 0).None? <==> NoRecord(s, id)
    ensures forall i :: RecordIs(s, id, i) <==> FindReclaim(s.reclaims, id, 0) == Some(i)
  {
    FirstRecord(s.reclaims, id, 0);
    var f := FindReclaim(s.reclaims, id, 0);
    if f.Some? {
      assert Record(s, id, f.value);
    }
    forall i ensures RecordIs(s, id, i) <==> f == Some(i) {
      if RecordIs(s, id, i) {
        assert f.Some?;
      }
    }
  }

  lemma {:induction false} FirstRecord(s: seq<ReclaimInfo>, id: int, i: nat)
    ensures FindReclaim(s, id, i).Some? ==> forall g :: i <= g < FindReclaim(s, id, i).value ==> s[g].id != id
    decreases |s| - i
  {
    if i < |s| {
      FirstRecord(s, id, i + 1);
    }
  }

  // ----- how a call ends -------------------------------------------------------------

  /** The caller is back in user mode with v in register 0. */
  ghost predicate Returned(s: State, s': State, v: int) {
    var a := s.k.active;
    && s'.k.active == a && InTable(s.k, a) && InTable(s'.k, a)
    && s'.k.pcbs[a] == s.k.pcbs[a].(cont := User, ret := v)
  }

  /** The call returns v and does nothing else. */
  ghost predicate OnlyReturned(s: State, s': State, v: int) {
    var a := s.k.active;
    InTable(s.k, a) && s' == s.(k := s.k.(pcbs := s.k.pcbs[a := s.k.pcbs[a].(cont := User, ret := v)]))
  }

  ghost predicate Refused(s: State, s': State) { OnlyReturned(s, s', -1) }

  /** The caller is the newest waiter of the list c. */
  ghost predicate WaitsIn(s: State, s': State, c: Chan) {
    && Q(s'.k, c) == Q(s.k, c) + [s.k.active] && !Runnable(s'.k, s.k.active)
    && ContOf(s'.k, s.k.active) != User && ChanOf(ContOf(s'.k, s.k.active)) == c
  }

  ghost predicate ObjectsSame(s: State, s': State) {
    s' == s.(k := s'.k)
  }

  ghost predicate ListsSame(s: State, s': State) {
    s'.k.ready == s.k.ready && forall c :: Q(s'.k, c) == Q(s.k, c)
  }

  /** The oldest waiter of c, if there is one, joins the tail of the ready queue; no other list changes. */
  ghost predicate FirstWoken(s: State, s': State, c: Chan) {
    var q := Q(s.k, c);
    && Q(s'.k, c) == (if q == [] then [] else q[1..])
    && s'.k.ready == s.k.ready + (if q == [] then [] else [q[0]])
    && forall d :: d != c ==> Q(s'.k, d) == Q(s.k, d)
  }

  lemma RetEnds(s: Good, e: Event, v: int)
    requires Enabled(s, e) && PlanOf(s, e).fin == Ret(v) && (PlanOf(s, e).wake == NoWake || PlanOf(s, e).wake.Heads?)
    ensures Returned(s, Step(s, e), v)
    ensures PlanOf(s, e).wake == NoWake ==> ListsSame(s, Step(s, e))
    ensures PlanOf(s, e).wake == NoWake && PlanOf(s, e).next == s ==> OnlyReturned(s, Step(s, e), v)
    ensures PlanOf(s, e).wake.Heads? && PlanOf(s, e).wake.count == 1 ==> FirstWoken(s, Step(s, e), PlanOf(s, e).wake.chan)
  {
    hide PlanOf, Enabled, Core, Move, FirstWoken, ListsSame;
    ActiveAlive(s);
    var w := PlanOf(s, e).wake;
    StillActive(s.k, w, v);
    if w == NoWake {
      NothingMoved(s, v, Step(s, e));
    } else if w.count == 1 {
      OneWoken(s, w.chan, v, Step(s, e));
    }
  }

  lemma NothingMoved(s: State, v: int, s': State)
    requires InTable(s.k, s.k.active) && s'.k == Move(s.k, NoWake, Ret(v))
    ensures ListsSame(s, s')
  {
  }

  lemma OneWoken(s: State, c: Chan, v: int, s': State)
    requires InTable(s.k, s.k.active) && s'.k == Move(s.k, Heads(c, 1), Ret(v))
    ensures FirstWoken(s, s', c)
  {
    hide Move, WakeUp, Q;
    HeadsMove(s.k, c, 1, v);
    OthersSame(s.k, c, 1, v);
    HeadOf(Q(s.k, c), s.k.ready);
  }

  lemma OthersSame(k: Sched, c: Chan, n: nat, v: int)
    requires InTable(k, k.active)
    ensures forall d :: d != c ==> Q(Move(k, Heads(c, n), Ret(v)), d) == Q(k, d)
  {
    hide Move, WakeUp, Q;
    forall d | d != c ensures Q(Move(k, Heads(c, n), Ret(v)), d) == Q(k, d) {
      MoveLists(k, Heads(c, n), Ret(v), d);
    }
  }

  lemma HeadOf(q: seq<int>, ready: seq<int>)
    ensures q[Min(1, |q|)..] == (if q == [] then [] else q[1..])
    ensures ready + q[..Min(1, |q|)] == ready + (if q == [] then [] else [q[0]])
  {
  }

  lemma StillActive(k: Sched, w: Wake, v: int)
    requires InTable(k, k.active)
    ensures Move(k, w, Ret(v)).active == k.active
    ensures w == NoWake || w.Heads? ==> Move(k, w, Ret(v)).pcbs == k.pcbs[k.active := k.pcbs[k.active].(cont := User, ret := v)]
    ensures w == NoWake ==> Move(k, w, Ret(v)) == k.(pcbs := k.pcbs[k.active := k.pcbs[k.active].(cont := User, ret := v)])
  {
    hide DueOf, StillOf, TickAll, Q;
  }

  lemma BlockEnds(s: Good, e: Event, c: Cont)
    requires Enabled(s, e) && PlanOf(s, e).fin == Block(c) && c != User && PlanOf(s, e).wake != Expire
    requires WakesNone(PlanOf(s, e).wake) || PlanOf(s, e).wake.chan != ChanOf(c)
    ensures WaitsIn(s, Step(s, e), ChanOf(c)) && ContOf(Step(s, e).k, s.k.active) == c
  {
    hide PlanOf, Enabled, Core, Move, WakeUp;
    PlanIsRegular(s, e);
    ActiveAlive(s);
    CoreStep(s, e);
    var w := PlanOf(s, e).wake;
    Self(s, w, Block(c));
    MoveLists(s.k, w, Block(c), ChanOf(c));
    Waiter(Step(s, e), ChanOf(c), s.k.active);
  }

  /** What can happen at any point of a run.  A process inside the kernel goes on where it was.  In user mode there are clock ticks and
      ends of transmissions, and any process but idle can make any call: but not a Fork with a full table, a
      TtyWrite to terminal 4 or a call on a semaphore that does not exist. */
  lemma EventsIff(r: Run, n: nat, e: Event)
    requires n < |r.states|
    ensures var s := r.states[n];
            var inKernel := ContOf(s.k, s.k.active) != User;
            Enabled(s, e) <==>
              match e
              case Resume => inKernel
              case Tick => !inKernel
              case Transmitted(t) => !inKernel && 0 <= t < 4 && |s.ttys| == 4 && s.ttys[t].line != []
              case Fork => !inKernel && s.k.active != 1 && |s.k.pcbs| < 1000
              case TtyWrite(t, _) => !inKernel && s.k.active != 1 && t != 4
              case SemSignal(id) => !inKernel && s.k.active != 1 && exists h :: 0 <= h < |s.sems| && s.sems[h].id == id
              case SemWait(id) => !inKernel && s.k.active != 1 && exists h :: 0 <= h < |s.sems| && s.sems[h].id == id
              case PipeWrite(_, len, data) => !inKernel && s.k.active != 1 && |data| == (if len < 0 then 0 else len)
              case _ => !inKernel && s.k.active != 1
  {
    hide Step, Core;
    EveryProcessHasOnePlace(r, n);
    ActiveAlive(r.states[n]);
    if e.SemSignal? || e.SemWait? {
      assert FindSem(r.states[n].sems, e.id, 0).Some? || FindSem(r.states[n].sems, e.id, 0).None?;
    }
  }
}
