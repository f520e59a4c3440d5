/**
 The kernel's own code: global queues and tables updated in place by system calls and traps.
 Every method is one segment and is proved to make exactly the step of the transition system.
 */
module KernelCode {
  import opened Constants
  import opened Scheduler
  import opened KernelSteps

  ghost function Apply(s: State, p: Plan): State
    requires InTable(s.k, s.k.active)
  {
    p.next.(k := Move(s.k, p.wake, p.fin))
  }

  lemma NoWakeIs(k: Sched)
    ensures WakeUp(k, NoWake) == k
  {
  }

  lemma ExpireIs(k: Sched)
    ensures var q := Q(k, SleepQ);
            WakeUp(k, Expire) == k.(ready := k.ready + DueOf(q, k.pcbs), lists := k.lists[SleepQ := StillOf(q, k.pcbs)],
                                    pcbs := TickAll(k.pcbs, q))
  {
  }

  // ----- moving waiters one at a time ---------------------------------------------

  lemma HeadMoved(ready: seq<int>, all: seq<int>, n: nat)
    requires n < |all|
    ensures (ready + all[..n]) + [all[n..][0]] == ready + all[..n + 1]
    ensures all[n..][1..] == all[n + 1..]
  {
  }

  lemma HeadsIs(k: Sched, c: Chan, n: nat)
    requires n <= |Q(k, c)|
    ensures WakeUp(k, Heads(c, n)) == k.(ready := k.ready + Q(k, c)[..n], lists := k.lists[c := Q(k, c)[n..]])
  {
  }

  /** A loop that takes one from n and tests "taken < left" ends with half of them taken, rounded up. */
  lemma HalfMoved(n: nat, m: nat)
    requires 2 * m <= n + 1 && m <= n && m + 1 > n - m
    ensures m == DestroyCount(n)
  {
  }

  // ----- what the sleep loop needs to know about its prefix ----------------------

  lemma SplitStep(q: seq<int>, pcbs: seq<Pcb>)
    requires q != []
    ensures Due(pcbs, q[0]) ==>
              DueOf(q, pcbs) == [q[0]] + DueOf(q[1..], pcbs) && StillOf(q, pcbs) == StillOf(q[1..], pcbs)
    ensures !Due(pcbs, q[0]) ==>
              DueOf(q, pcbs) == DueOf(q[1..], pcbs) && StillOf(q, pcbs) == [q[0]] + StillOf(q[1..], pcbs)
  {
  }

  lemma {:induction false} SplitAppend(q: seq<int>, x: int, pcbs: seq<Pcb>)
    ensures DueOf(q + [x], pcbs) == DueOf(q, pcbs) + (if Due(pcbs, x) then [x] else [])
    ensures StillOf(q + [x], pcbs) == StillOf(q, pcbs) + (if Due(pcbs, x) then [] else [x])
  {
    hide Due;
    SplitStep(q + [x], pcbs);
    if q == [] {
      assert (q + [x])[0] == x && (q + [x])[1..] == [];
    } else {
      SplitStep(q, pcbs);
      assert (q + [x])[0] == q[0] && (q + [x])[1..] == q[1..] + [x];
      SplitAppend(q[1..], x, pcbs);
    }
  }

  lemma TickOne(pcbs: seq<Pcb>, q: seq<int>, x: int)
    requires 0 <= x < |pcbs| && x !in q
    ensures |TickAll(pcbs, q)| == |pcbs|
    ensures TickAll(pcbs, q + [x]) == TickAll(pcbs, q)[x := Ticked(pcbs[x])]
    ensures TickAll(pcbs, q)[x] == pcbs[x]
  {
  }

  /** One turn of the sleep loop: `sleep` is what is kept of the first n sleepers, followed by
      the rest of the list, so the next sleeper stands right behind the kept ones. */
  lemma SleepTurn(q: seq<int>, n: nat, pcbs: seq<Pcb>, sleep: seq<int>)
    requires NoDup(q) && n < |q| && 0 <= q[n] < |pcbs| && sleep == StillOf(q[..n], pcbs) + q[n..]
    ensures var i, p := |StillOf(q[..n], pcbs)|, q[n];
            && i < |sleep| && sleep[i] == p
            && (Due(pcbs, p) ==>
                  && sleep[..i] + sleep[i + 1..] == StillOf(q[..n + 1], pcbs) + q[n + 1..]
                  && DueOf(q[..n + 1], pcbs) == DueOf(q[..n], pcbs) + [p] && |StillOf(q[..n + 1], pcbs)| == i)
            && (!Due(pcbs, p) ==>
                  && sleep == StillOf(q[..n + 1], pcbs) + q[n + 1..]
                  && DueOf(q[..n + 1], pcbs) == DueOf(q[..n], pcbs) && |StillOf(q[..n + 1], pcbs)| == i + 1)
            && |TickAll(pcbs, q[..n])| == |pcbs|
            && TickAll(pcbs, q[..n + 1]) == TickAll(pcbs, q[..n])[p := Ticked(pcbs[p])]
            && TickAll(pcbs, q[..n])[p] == pcbs[p]
  {
    hide Due, TickAll, DueOf, StillOf;
    var p := q[n];
    assert q[..n + 1] == q[..n] + [p] && q[n..] == [p] + q[n + 1..];
    SplitAppend(q[..n], p, pcbs);
    assert p !in q[..n];
    TickOne(pcbs, q[..n], p);
  }

  lemma SleepStart(q: seq<int>, pcbs: seq<Pcb>)
    ensures StillOf(q[..0], pcbs) == [] && DueOf(q[..0], pcbs) == [] && TickAll(pcbs, q[..0]) == pcbs
    ensures q[0..] == q && q[|q|..] == [] && q[..|q|] == q
  {
  }

  class Kernel {
    var active: int
    var ready: seq<int>
    var lists: map<Chan, seq<int>>
    var pcbs: seq<Pcb>
    var family: seq<Kin>
    var dead: seq<DeadInfo>
    var locks: seq<Lock>
    var cvars: seq<Cvar>
    var pipes: seq<Pipe>
    var sems: seq<Sem>
    var nextSem: int
    var reclaims: seq<ReclaimInfo>
    var ttys: seq<Tty>
    ghost var log: Log

    ghost function K(): Sched reads this {
      Sched(active, ready, lists, pcbs)
    }

    ghost function View(): State reads this {
      State(K(), family, dead, locks, cvars, pipes, sems, nextSem, reclaims, ttys, log)
    }

    constructor ()
      ensures View() == Boot()
    {
      active, ready, lists := 0, [IDLE], map[];
      pcbs := [Pcb(true, User, 0), Pcb(true, User, 0)];
      family := [Kin(NOBODY, []), Kin(NOBODY, [])];
      dead, locks, cvars, pipes, sems, nextSem, reclaims := [], [], [], [], [], 0, [];
      ttys := seq(NUM_TERMINALS, _ => Tty(false, []));
      log := Log(map[], map[], map[], map[], map[], map[], map[], [], []);
    }

    // ----- scheduling -----------------------------------------------------------

    method NormalSchedule()
      modifies this`active, this`ready
      ensures K() == Dispatch(old(K()))
    {
      if |ready| > 0 {
        var next := ready[0];
        ready := ready[1..];
        if next == IDLE {
          ready := ready + [next];
          next := ready[0];
          ready := ready[1..];
        }
        active := next;
      }
    }

    method DoScheduler()
      requires InTable(K(), active)
      modifies this`active, this`ready
      ensures K() == Finish(old(K()), Preempt)
    {
      if |ready| > 0 {
        var was := active;
        ready := ready + [was];
        var next := ready[0];
        ready := ready[1..];
        if next == IDLE {
          ready := ready + [next];
          next := ready[0];
          ready := ready[1..];
        }
        active := next;
      }
    }

    /** Decrement in place, moving whoever has no tick left to the ready queue. */
    method UpdateSleepList()
      requires NoDup(Q(K(), SleepQ))
      requires forall p :: p in Q(K(), SleepQ) ==> InTable(K(), p) && pcbs[p].cont.Asleep?
      modifies this`ready, this`lists, this`pcbs
      ensures K() == WakeUp(old(K()), Expire) && |pcbs| == |old(pcbs)|
    {
      hide DueOf, StillOf, TickAll, NoDup, WakeUp;
      ExpireIs(K());
      var sleep := if SleepQ in lists then lists[SleepQ] else [];
      ghost var q := sleep;
      ghost var n := 0;
      var i := 0;
      SleepStart(q, pcbs);
      while i < |sleep|
        invariant lists == old(lists) && 0 <= n <= |q| && |pcbs| == |old(pcbs)|
        invariant i == |StillOf(q[..n], old(pcbs))|
        invariant sleep == StillOf(q[..n], old(pcbs)) + q[n..]
        invariant ready == old(ready) + DueOf(q[..n], old(pcbs))
        invariant pcbs == TickAll(old(pcbs), q[..n])
        decreases |q| - n
      {
        assert q[n] in q;
        SleepTurn(q, n, old(pcbs), sleep);
        var p := sleep[i];
        var left := pcbs[p].cont.ticks - 1;
        pcbs := pcbs[p := pcbs[p].(cont := Asleep(left))];
        if left <= 0 {
          ready := ready + [p];
          sleep := sleep[..i] + sleep[i + 1..];
        } else {
          i := i + 1;
        }
        n := n + 1;
      }
      assert n == |q| && sleep == StillOf(q, old(pcbs));
      lists := lists[SleepQ := sleep];
    }

    method Tick()
      requires Enabled(View(), Event.Tick) && SchedInv(K())
      modifies this`active, this`ready, this`lists, this`pcbs
      ensures View() == Step(old(View()), Event.Tick)
    {
      hide WakeUp, Finish, SchedInv;
      Sleepers(K());
      UpdateSleepList();
      DoScheduler();
    }

    static lemma Sleepers(k: Sched)
      requires SchedInv(k)
      ensures NoDup(Q(k, SleepQ))
      ensures forall p :: p in Q(k, SleepQ) ==> InTable(k, p) && k.pcbs[p].cont.Asleep?
    {
      forall p | p in Q(k, SleepQ) ensures InTable(k, p) && k.pcbs[p].cont.Asleep? {
        assert WaitsFor(k, SleepQ, p);
      }
    }

    method Return(v: int)
      requires InTable(K(), active)
      modifies this`pcbs
      ensures K() == Finish(old(K()), Ret(v))
    {
      pcbs := pcbs[active := pcbs[active].(cont := User, ret := v)];
    }

    method Suspend(c: Cont)
      requires InTable(K(), active) && c != User
      modifies this`active, this`ready, this`lists, this`pcbs
      ensures K() == Finish(old(K()), Block(c))
    {
      var q := if ChanOf(c) in lists then lists[ChanOf(c)] else [];
      pcbs := pcbs[active := pcbs[active].(cont := c)];
      lists := lists[ChanOf(c) := q + [active]];
      NormalSchedule();
    }

    /** Remove the first waiter, if any, and append it to the ready queue. */
    method WakeFirst(c: Chan)
      modifies this`ready, this`lists
      ensures K() == WakeUp(old(K()), Heads(c, 1))
    {
      var q := if c in lists then lists[c] else [];
      if |q| > 0 {
        ready := ready + [q[0]];
        lists := lists[c := q[1..]];
        assert q[..1] == [q[0]];
      } else {
        lists := lists[c := q];
        assert q[..0] == [] && ready + [] == ready;
      }
    }

    // ----- searches ---------------------------------------------------------------

    method LookupLock(id: int) returns (h: Option<nat>)
      ensures h == FindLock(locks, id, 0)
    {
      var i := 0;
      while i < |locks|
        invariant 0 <= i <= |locks| && FindLock(locks, id, 0) == FindLock(locks, id, i)
      {
        if locks[i].listed && locks[i].id == id { return Some(i); }
        i := i + 1;
      }
      return None;
    }

    method LookupHeld(id: int) returns (h: Option<nat>)
      ensures h == FindHeld(locks, id, active, 0)
    {
      var i := 0;
      while i < |locks|
        invariant 0 <= i <= |locks| && FindHeld(locks, id, active, 0) == FindHeld(locks, id, active, i)
      {
        if locks[i].listed && locks[i].id == id && locks[i].owner == active && locks[i].locked { return Some(i); }
        i := i + 1;
      }
      return None;
    }

    method LookupDisposable(id: int) returns (h: Option<nat>)
      ensures h == FindDisposable(locks, id, active, 0)
    {
      var i := 0;
      while i < |locks|
        invariant 0 <= i <= |locks| && FindDisposable(locks, id, active, 0) == FindDisposable(locks, id, active, i)
      {
        if locks[i].listed && locks[i].id == id &&
           ((locks[i].owner == active && locks[i].locked) || !locks[i].locked) {
          return Some(i);
        }
        i := i + 1;
      }
      return None;
    }

    method LookupCvar(id: int) returns (h: Option<nat>)
      ensures h == FindCvar(cvars, id, 0)
    {
      var i := 0;
      while i < |cvars|
        invariant 0 <= i <= |cvars| && FindCvar(cvars, id, 0) == FindCvar(cvars, id, i)
      {
        if cvars[i].listed && cvars[i].id == id { return Some(i); }
        i := i + 1;
      }
      return None;
    }

    method LookupPipe(id: int) returns (h: Option<nat>)
      ensures h == FindPipe(pipes, id, 0)
    {
      var i := 0;
      while i < |pipes|
        invariant 0 <= i <= |pipes| && FindPipe(pipes, id, 0) == FindPipe(pipes, id, i)
      {
        if pipes[i].listed && pipes[i].id == id { return Some(i); }
        i := i + 1;
      }
      return None;
    }

    method LookupSem(id: int) returns (h: Option<nat>)
      ensures h == FindSem(sems, id, 0)
    {
      var i := 0;
      while i < |sems|
        invariant 0 <= i <= |sems| && FindSem(sems, id, 0) == FindSem(sems, id, i)
      {
        if sems[i].id == id { return Some(i); }
        i := i + 1;
      }
      return None;
    }

    method LookupReclaim(id: int) returns (h: Option<nat>)
      ensures h == FindReclaim(reclaims, id, 0)
    {
      var i := 0;
      while i < |reclaims|
        invariant 0 <= i <= |reclaims| && FindReclaim(reclaims, id, 0) == FindReclaim(reclaims, id, i)
      {
        if reclaims[i].id == id { return Some(i); }
        i := i + 1;
      }
      return None;
    }

    static method LookupPid(s: seq<int>, p: int) returns (h: Option<nat>)
      ensures h == FindPid(s, p, 0)
    {
      var i := 0;
      while i < |s|
        invariant 0 <= i <= |s| && FindPid(s, p, 0) == FindPid(s, p, i)
      {
        if s[i] == p { return Some(i); }
        i := i + 1;
      }
      return None;
    }

    // ----- Fork, Exit, Wait, Delay ----------------------------------------------------

    method Fork()
      requires Enabled(View(), Event.Fork)
      modifies this
      ensures View() == Step(old(View()), Event.Fork)
    {
      var child := |pcbs|;
      family := family[active := family[active].(children := family[active].children + [child])] + [Kin(active, [])];
      pcbs := pcbs[active := pcbs[active].(cont := User, ret := child)] + [Pcb(true, User, 0)];
      ready := ready + [child];
    }

    /** Clear the parent pid of every child. */
    method OrphanChildren(children: seq<int>)
      modifies this`family
      ensures family == Orphaned(old(family), children)
    {
      ghost var was := family;
      var i := 0;
      assert Orphaned(was, children[..0]) == was;
      while i < |children|
        invariant 0 <= i <= |children|
        invariant family == Orphaned(was, children[..i])
      {
        var c := children[i];
        assert children[..i + 1] == children[..i] + [c];
        if 0 <= c < |family| {
          family := family[c := family[c].(ppid := NOBODY)];
        }
        assert family == Orphaned(was, children[..i + 1]);
        i := i + 1;
      }
      assert children[..i] == children;
    }

    method RemoveChild(parent: int, child: int)
      modifies this`family
      ensures family == DropChild(old(family), parent, child)
    {
      if 0 <= parent < |family| {
        var c := family[parent].children;
        var j := LookupPid(c, child);
        if j.Some? {
          c := c[..j.value] + c[j.value + 1..];
        }
        family := family[parent := family[parent].(children := c)];
      }
    }

    /** Move the parent, if it is blocked in Wait, to the ready queue. */
    method WakeParent(parent: int)
      modifies this`ready, this`lists
      ensures K() == WakeUp(old(K()), match FindPid(Q(old(K()), WaitQ), parent, 0)
                                      case None => NoWake case Some(j) => At(WaitQ, j))
    {
      var q := if WaitQ in lists then lists[WaitQ] else [];
      var j := LookupPid(q, parent);
      if j.Some? {
        lists := lists[WaitQ := q[..j.value] + q[j.value + 1..]];
        ready := ready + [parent];
      }
    }

    /** Orphan the children; report to the parent, if there is one, and leave its list. */
    method LeaveFamily(status: int) returns (parent: int)
      requires Sane(View())
      modifies this`family, this`dead, this`log
      ensures parent == old(family)[active].ppid
      ensures View() == PlanExit(old(View()), status).next
    {
      hide Orphaned, DropChild, Within, FindPid;
      parent := family[active].ppid;
      OrphanChildren(family[active].children);
      if parent != NOBODY {
        var info := DeadInfo(parent, active, status);
        dead := dead + [info];
        log := log.(exits := log.exits + [info]);
        RemoveChild(parent, active);
      }
    }

    method Exit(status: int)
      requires Enabled(View(), Event.Exit(status))
      modifies this
      ensures View() == Step(old(View()), Event.Exit(status))
    {
      hide Orphaned, DropChild, Within, FindPid, WakeUp, Dispatch;
      var parent := LeaveFamily(status);
      WakeParent(parent);
      Bury();
    }

    /** The end of an exit: nobody is active until the next process is switched to. */
    method Bury()
      requires InTable(K(), active)
      modifies this`active, this`ready, this`pcbs
      ensures K() == Finish(old(K()), Die)
    {
      pcbs := pcbs[active := pcbs[active].(alive := false)];
      active := NOBODY;
      NormalSchedule();
    }

    /** Scan the dead list, the location counter starting at `start`. */
    method ScanDeadList(start: int) returns (found: bool, i: int)
      requires InTable(K(), active)
      modifies this`dead, this`pcbs, this`log
      ensures found == FindDead(old(dead), active, 0).Some?
      ensures found ==> View() == Apply(old(View()), PlanScan(old(View()), start, FindDead(old(dead), active, 0).value))
      ensures !found ==> View() == old(View()) && i == start + |dead|
    {
      var j := 0;
      i := start;
      while j < |dead|
        invariant 0 <= j <= |dead| && i == start + j && View() == old(View())
        invariant FindDead(dead, active, 0) == FindDead(dead, active, j)
      {
        var d := dead[j];
        if d.ppid == active {
          if 1 <= i <= |dead| {
            dead := dead[..i - 1] + dead[i..];
          }
          log := log.(reaped := log.reaped + [d]);
          Return(d.pid);
          return true, i;
        }
        j := j + 1;
        i := i + 1;
      }
      return false, i;
    }

    method Wait()
      requires Enabled(View(), Event.Wait)
      modifies this
      ensures View() == Step(old(View()), Event.Wait)
    {
      hide Finish, WakeUp, Within, Dispatch;
      NoWakeIs(K());
      if |family[active].children| <= 0 {
        Return(ERROR);
        return;
      }
      var found, i := ScanDeadList(1);
      if !found {
        Suspend(ScanDead(i));
      }
    }

    method Delay(ticks: int)
      requires Enabled(View(), Event.Delay(ticks))
      modifies this
      ensures View() == Step(old(View()), Event.Delay(ticks))
    {
      hide Finish, WakeUp, Within, Dispatch;
      NoWakeIs(K());
      if ticks < 0 {
        Return(ERROR);
      } else if ticks == 0 {
        Return(0);
      } else {
        Suspend(Asleep(ticks));
      }
    }

    // ----- terminals --------------------------------------------------------------------

    method TtyLoop(t: nat, remain: int, total: int)
      requires InTable(K(), active)
      modifies this
      ensures View() == Apply(old(View()), PlanTtyLoop(old(View()), t, remain, total))
    {
      hide Finish, WakeUp, Within, ChanOf, Sent;
      NoWakeIs(K());
      if remain <= 0 {
        Return(total);
      } else if t >= |ttys| {
        Return(ERROR);
      } else if ttys[t].busy {
        Suspend(TtyBusy(t, remain, total));
      } else {
        var n := if remain > TERMINAL_MAX_LINE then TERMINAL_MAX_LINE else remain;
        Transmit(t, n);
        Suspend(TtySent(t, remain - n, total));
      }
    }

    /** Mark the terminal busy and hand it n bytes. */
    method Transmit(t: nat, n: int)
      requires t < |ttys|
      modifies this`ttys, this`log
      ensures View() == Sent(old(View()), t, n)
    {
      ttys := ttys[t := Tty(true, ttys[t].line + [Tx(active, n)])];
      log := log.(chunks := log.chunks[active := ChunksOf(log, active) + [n]]);
    }

    method TtyWrite(t: int, len: int)
      requires Enabled(View(), Event.TtyWrite(t, len))
      modifies this
      ensures View() == Step(old(View()), Event.TtyWrite(t, len))
    {
      hide Finish, WakeUp, Within, Dispatch;
      NoWakeIs(K());
      if t < 0 || t > NUM_TERMINALS || len < 0 {
        Return(ERROR);
      } else {
        log := log.(chunks := log.chunks[active := []]);
        TtyLoop(t, len, len);
      }
    }

    method Transmitted(t: int)
      requires Enabled(View(), Event.Transmitted(t))
      modifies this
      ensures View() == Apply(old(View()), PlanTransmitted(old(View()), t))
    {
      hide Within;
      ttys := ttys[t := Tty(false, ttys[t].line[1..])];
      var q := if IoQ in lists then lists[IoQ] else [];
      var i := 0;
      while i < |q|
        invariant 0 <= i <= |q| && View() == old(View()).(ttys := ttys)
        invariant FindWriter(K(), q, t, 0) == FindWriter(K(), q, t, i)
      {
        var c := if 0 <= q[i] < |pcbs| then pcbs[q[i]].cont else User;
        if (c.TtyBusy? || c.TtySent?) && c.tty == t {
          lists := lists[IoQ := q[..i] + q[i + 1..]];
          ready := ready + [q[i]];
          return;
        }
        i := i + 1;
      }
    }

    // ----- pipes --------------------------------------------------------------------------

    method PipeInit()
      requires Enabled(View(), Event.PipeInit)
      modifies this
      ensures View() == Step(old(View()), Event.PipeInit)
    {
      hide Finish, WakeUp, Within, Dispatch;
      NoWakeIs(K());
      var id := |reclaims| + 1;
      pipes := pipes + [Pipe(id, true, [])];
      reclaims := reclaims + [ReclaimInfo(id, PipeKind)];
      Return(0);
    }

    method TryRead(h: nat, id: int, len: int, seen: bool)
      requires InTable(K(), active)
      modifies this
      ensures View() == Apply(old(View()), PlanTryRead(old(View()), h, id, len, seen))
    {
      hide Finish, WakeUp, Within, Dispatch;
      NoWakeIs(K());
      if h >= |pipes| {
        Return(ERROR);
      } else if |pipes[h].buf| < len {
        Suspend(RetryRead(h, id, len, seen));
      } else {
        var n := if len < 0 then 0 else len;
        var buf := pipes[h].buf;
        log := log.(delivered := log.delivered[h := At0(log.delivered, h) + buf[..n]]);
        pipes := pipes[h := pipes[h].(buf := buf[n..])];
        WakeFirst(PipeQ(h));
        Return(0);
      }
    }

    method PipeRead(id: int, len: int)
      requires Enabled(View(), Event.PipeRead(id, len))
      modifies this
      ensures View() == Step(old(View()), Event.PipeRead(id, len))
    {
      hide Finish, WakeUp, Within, Dispatch;
      NoWakeIs(K());
      if id < 0 || len < 0 {
        Return(ERROR);
        return;
      }
      var h := LookupPipe(id);
      if h.None? {
        Return(ERROR);
      } else {
        TryRead(h.value, id, len, false);
      }
    }

    method PipeWrite(id: int, len: int, data: seq<int>)
      requires Enabled(View(), Event.PipeWrite(id, len, data))
      modifies this
      ensures View() == Apply(old(View()), PlanPipeWrite(old(View()), id, len, data))
    {
      hide Finish, WakeUp, Within, Dispatch;
      NoWakeIs(K());
      if id < 0 || len < 0 {
        Return(ERROR);
        return;
      }
      var f := LookupPipe(id);
      if f.None? {
        Return(ERROR);
        return;
      }
      var h := f.value;
      var left := if |pipes[h].buf| <= PIPE_BUF_SIZE then PIPE_BUF_SIZE - |pipes[h].buf| else 0;
      var n := if left < len then left else len;
      pipes := pipes[h := pipes[h].(buf := pipes[h].buf + data[..n])];
      log := log.(accepted := log.accepted[h := At0(log.accepted, h) + data[..n]]);
      assert View() == PlanPipeWrite(old(View()), id, len, data).next;
      WakeFirst(PipeQ(h));
      Return(n);
    }

    // ----- locks and condition variables ------------------------------------------------------

    method LockInit()
      requires Enabled(View(), Event.LockInit)
      modifies this
      ensures View() == Step(old(View()), Event.LockInit)
    {
      hide Finish, WakeUp, Within, Dispatch;
      NoWakeIs(K());
      var id := |reclaims| + 1;
      locks := locks + [Lock(id, true, false, 0)];
      reclaims := reclaims + [ReclaimInfo(id, LockKind)];
      Return(0);
    }

    method TryAcquire(h: nat, id: int, seen: bool)
      requires InTable(K(), active)
      modifies this
      ensures View() == Apply(old(View()), PlanTryAcquire(old(View()), h, id, seen))
    {
      hide Finish, WakeUp, Within, Dispatch;
      NoWakeIs(K());
      if h >= |locks| {
        Return(ERROR);
      } else if locks[h].locked {
        Suspend(RetryAcquire(h, id, seen));
      } else {
        locks := locks[h := locks[h].(locked := true, owner := active)];
        log := log.(lockTrace := log.lockTrace[h := At0(log.lockTrace, h) + [Acq(active)]]);
        Return(0);
      }
    }

    method AcquireLock(id: int)
      requires InTable(K(), active)
      modifies this
      ensures View() == Apply(old(View()), PlanAcquire(old(View()), id))
    {
      var h := LookupLock(id);
      if h.None? {
        Return(ERROR);
      } else {
        TryAcquire(h.value, id, false);
      }
    }

    method Acquire(id: int)
      requires Enabled(View(), Event.Acquire(id))
      modifies this
      ensures View() == Step(old(View()), Event.Acquire(id))
    {
      AcquireLock(id);
    }

    /** Free the lock, wake its first waiter and note that waiter's pid. */
    method FreeLock(h: nat)
      requires h < |locks|
      modifies this`locks, this`ready, this`lists, this`log
      ensures View() == Freed(old(View()), h).(k := WakeUp(old(K()), Heads(LockQ(h), 1)))
    {
      var q := if LockQ(h) in lists then lists[LockQ(h)] else [];
      locks := locks[h := locks[h].(locked := false, owner := 0)];
      log := log.(lockTrace := log.lockTrace[h := At0(log.lockTrace, h) + [Rel(active)]]);
      if |q| > 0 {
        locks := locks[h := locks[h].(owner := q[0])];
      }
      WakeFirst(LockQ(h));
    }

    method Release(id: int)
      requires Enabled(View(), Event.Release(id))
      modifies this
      ensures View() == Step(old(View()), Event.Release(id))
    {
      hide Finish, WakeUp, Within, Dispatch;
      NoWakeIs(K());
      var h := LookupHeld(id);
      if h.None? {
        Return(ERROR);
      } else {
        FreeLock(h.value);
        Return(0);
      }
    }

    method CvarInit()
      requires Enabled(View(), Event.CvarInit)
      modifies this
      ensures View() == Step(old(View()), Event.CvarInit)
    {
      hide Finish, WakeUp, Within, Dispatch;
      NoWakeIs(K());
      var id := |reclaims| + 1;
      cvars := cvars + [Cvar(id, true)];
      reclaims := reclaims + [ReclaimInfo(id, CvarKind)];
      Return(0);
    }

    method CvarSignal(id: int)
      requires Enabled(View(), Event.CvarSignal(id))
      modifies this
      ensures View() == Step(old(View()), Event.CvarSignal(id))
    {
      hide Finish, WakeUp, Within, Dispatch;
      NoWakeIs(K());
      if id < 0 {
        Return(ERROR);
        return;
      }
      var h := LookupCvar(id);
      if h.None? {
        Return(ERROR);
      } else {
        WakeFirst(CvarQ(h.value));
        Return(0);
      }
    }

    /** Move waiters one at a time, from the head, until none is left. */
    method WakeAll(c: Chan)
      modifies this`ready, this`lists
      ensures K() == WakeUp(old(K()), Heads(c, |Q(old(K()), c)|))
    {
      hide WakeUp;
      var q := if c in lists then lists[c] else [];
      ghost var all := q;
      ghost var n := 0;
      assert all[0..] == all && ready + all[..0] == ready;
      while |q| > 0
        invariant lists == old(lists)
        invariant 0 <= n <= |all| && q == all[n..] && ready == old(ready) + all[..n]
      {
        HeadMoved(old(ready), all, n);
        ready := ready + [q[0]];
        q := q[1..];
        n := n + 1;
      }
      lists := lists[c := q];
      HeadsIs(old(K()), c, n);
    }

    method CvarBroadcast(id: int)
      requires Enabled(View(), Event.CvarBroadcast(id))
      modifies this
      ensures View() == Step(old(View()), Event.CvarBroadcast(id))
    {
      hide Finish, WakeUp, Within, Dispatch;
      NoWakeIs(K());
      if id < 0 {
        Return(ERROR);
        return;
      }
      var h := LookupCvar(id);
      if h.None? {
        Return(ERROR);
      } else {
        WakeAll(CvarQ(h.value));
        Return(0);
      }
    }

    method CvarWait(id: int, lockId: int)
      requires Enabled(View(), Event.CvarWait(id, lockId))
      modifies this
      ensures View() == Apply(old(View()), PlanCvarWait(old(View()), id, lockId))
    {
      hide Finish, WakeUp, Within, Dispatch;
      NoWakeIs(K());
      var l := LookupHeld(lockId);
      if l.None? {
        Return(ERROR);
        return;
      }
      FreeLock(l.value);
      var h := LookupCvar(id);
      if h.None? {
        Return(ERROR);
      } else {
        Suspend(CvarBlocked(h.value, id, lockId));
      }
    }

    // ----- reclaim ----------------------------------------------------------------------------

    /** The loop of `destroy_*_info`: its bound is the length that its body shrinks. */
    method WakeSome(c: Chan)
      modifies this`ready, this`lists
      ensures K() == WakeUp(old(K()), Heads(c, DestroyCount(|Q(old(K()), c)|)))
    {
      hide WakeUp, DestroyCount;
      var q := if c in lists then lists[c] else [];
      ghost var all := q;
      assert all[0..] == all && ready + all[..0] == ready;
      var j := 1;
      while j <= |q|
        invariant 1 <= j <= |all| + 1 && 2 * (j - 1) <= |all| + 1
        invariant lists == old(lists)
        invariant q == all[j - 1..] && ready == old(ready) + all[..j - 1]
      {
        HeadMoved(old(ready), all, j - 1);
        ready := ready + [q[0]];
        q := q[1..];
        j := j + 1;
      }
      lists := lists[c := q];
      HalfMoved(|all|, j - 1);
      HeadsIs(old(K()), c, j - 1);
    }

    method DestroyPipeInfo(id: int) returns (ok: bool)
      modifies this`pipes, this`ready, this`lists
      ensures ok == FindPipe(old(pipes), id, 0).Some?
      ensures !ok ==> View() == old(View())
      ensures ok ==> var h := FindPipe(old(pipes), id, 0).value;
                     View() == old(View()).(pipes := old(pipes)[h := old(pipes)[h].(listed := false)],
                                            k := WakeUp(old(K()), Heads(PipeQ(h), DestroyCount(|Q(old(K()), PipeQ(h))|))))
    {
      hide WakeUp;
      var h := LookupPipe(id);
      if h.None? { return false; }
      WakeSome(PipeQ(h.value));
      pipes := pipes[h.value := pipes[h.value].(listed := false)];
      return true;
    }

    method DestroyLockInfo(id: int) returns (ok: bool)
      modifies this`locks, this`ready, this`lists
      ensures ok == FindDisposable(old(locks), id, active, 0).Some?
      ensures !ok ==> View() == old(View())
      ensures ok ==> var h := FindDisposable(old(locks), id, active, 0).value;
                     View() == old(View()).(locks := old(locks)[h := old(locks)[h].(listed := false)],
                                            k := WakeUp(old(K()), Heads(LockQ(h), DestroyCount(|Q(old(K()), LockQ(h))|))))
    {
      hide WakeUp;
      var h := LookupDisposable(id);
      if h.None? { return false; }
      WakeSome(LockQ(h.value));
      locks := locks[h.value := locks[h.value].(listed := false)];
      return true;
    }

    method DestroyCvarInfo(id: int) returns (ok: bool)
      modifies this`cvars, this`ready, this`lists
      ensures ok == FindCvar(old(cvars), id, 0).Some?
      ensures !ok ==> View() == old(View())
      ensures ok ==> var h := FindCvar(old(cvars), id, 0).value;
                     View() == old(View()).(cvars := old(cvars)[h := old(cvars)[h].(listed := false)],
                                            k := WakeUp(old(K()), Heads(CvarQ(h), DestroyCount(|Q(old(K()), CvarQ(h))|))))
    {
      hide WakeUp;
      var h := LookupCvar(id);
      if h.None? { return false; }
      WakeSome(CvarQ(h.value));
      cvars := cvars[h.value := cvars[h.value].(listed := false)];
      return true;
    }

    method Reclaim(id: int)
      requires Enabled(View(), Event.Reclaim(id))
      modifies this
      ensures View() == Apply(old(View()), PlanReclaim(old(View()), id))
    {
      hide Finish, WakeUp, Within, Q, DestroyCount;
      NoWakeIs(K());
      if id < 0 {
        Return(ERROR);
        return;
      }
      var f := LookupReclaim(id);
      if f.None? {
        Return(ERROR);
        return;
      }
      var i, ok := f.value, false;
      match reclaims[i].kind {
        case PipeKind => ok := DestroyPipeInfo(id);
        case LockKind => ok := DestroyLockInfo(id);
        case CvarKind => ok := DestroyCvarInfo(id);
      }
      if !ok {
        Return(ERROR);
        return;
      }
      reclaims := reclaims[..i] + reclaims[i + 1..];
      Return(0);
    }

    // ----- semaphores -----------------------------------------------------------------------------

    method SemInit()
      requires Enabled(View(), Event.SemInit)
      modifies this
      ensures View() == Step(old(View()), Event.SemInit)
    {
      hide Finish, WakeUp, Within, Dispatch;
      NoWakeIs(K());
      sems := sems + [Sem(nextSem, 0)];
      nextSem := nextSem + 1;
      Return(nextSem - 1);
    }

    /** Count one signal; say whether a waiter is to be let through. */
    method CountSignal(h: nat) returns (wakes: bool)
      requires h < |sems|
      modifies this`sems, this`log
      ensures View() == Signalled(old(View()), h) && wakes == HandsOn(old(View()), h)
    {
      var q := if SemQ(h) in lists then lists[SemQ(h)] else [];
      sems := sems[h := sems[h].(count := sems[h].count + 1)];
      log := log.(signals := log.signals[h := SignalsOf(log, h) + 1]);
      wakes := sems[h].count <= 0 && |q| > 0;
      if wakes {
        log := log.(passed := log.passed[h := At0(log.passed, h) + [q[0]]]);
      }
    }

    method SemSignal(id: int)
      requires Enabled(View(), Event.SemSignal(id))
      modifies this
      ensures View() == Apply(old(View()), PlanSemSignal(old(View()), id))
    {
      hide Within, FindSem, Finish, WakeUp, Signalled, HandsOn;
      NoWakeIs(K());
      var f := LookupSem(id);
      var wakes := CountSignal(f.value);
      if wakes {
        WakeFirst(SemQ(f.value));
      }
      Return(0);
    }

    method SemWait(id: int)
      requires Enabled(View(), Event.SemWait(id))
      modifies this
      ensures View() == Apply(old(View()), PlanSemWait(old(View()), id))
    {
      hide Within, FindSem, Finish, WakeUp, At0, SignalsOf;
      NoWakeIs(K());
      var f := LookupSem(id);
      var h := f.value;
      sems := sems[h := sems[h].(count := sems[h].count - 1)];
      log := log.(arrivals := log.arrivals[h := At0(log.arrivals, h) + [active]]);
      if sems[h].count < 0 {
        Suspend(SemPassed(h));
      } else {
        log := log.(passed := log.passed[h := At0(log.passed, h) + [active]]);
        Return(0);
      }
    }

    // ----- going on after a wake-up -------------------------------------------------------------------

    method Resume()
      requires Enabled(View(), Event.Resume)
      modifies this
      ensures View() == Step(old(View()), Event.Resume)
    {
      hide Within, PlanScan, PlanTryAcquire, PlanTryRead, PlanTtyLoop, PlanAcquire, Finish;
      match pcbs[active].cont {
        case Asleep(_) => Return(0);
        case SemPassed(_) => Return(0);
        case ScanDead(start) =>
          var found, _ := ScanDeadList(start);
          if !found { Return(ERROR); }
        case RetryAcquire(h, id, seen) =>
          var f := LookupLock(id);
          if !seen && f.None? { Return(ERROR); } else { TryAcquire(h, id, true); }
        case CvarBlocked(_, id, lockId) =>
          var f := LookupCvar(id);
          if f.None? { Return(ERROR); } else { AcquireLock(lockId); }
        case RetryRead(h, id, len, seen) =>
          var f := LookupPipe(id);
          if !seen && f.None? { Return(ERROR); } else { TryRead(h, id, len, true); }
        case TtyBusy(t, remain, total) => TtyLoop(t, remain, total);
        case TtySent(t, remain, total) => TtyLoop(t, remain, total);
        case User =>
      }
    }
  }
}
