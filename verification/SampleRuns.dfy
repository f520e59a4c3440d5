/**
 What the concrete runs in `WaitTwice`, `LostReader` and `HalfReclaim` are put together from.
 */
module SampleRuns {
  import opened Scheduler
  import opened KernelSteps
  import opened KernelRuns

  /** A process in user mode whose last system call returned ret. */
  function P(ret: int): Pcb { Pcb(true, User, ret) }

  function Dead(ret: int): Pcb { Pcb(false, User, ret) }

  /** A state in which only processes and the dead list have changed since boot. */
  function Snapshot(active: int, ready: seq<int>, lists: map<Chan, seq<int>>, pcbs: seq<Pcb>, family: seq<Kin>,
                    dead: seq<DeadInfo>, exits: seq<DeadInfo>, reaped: seq<DeadInfo>): State {
    Boot().(k := Sched(active, ready, lists, pcbs), family := family, dead := dead,
            log := Boot().log.(exits := exits, reaped := reaped))
  }

  const idle := Kin(NOBODY, [])
  const noSleepers: map<Chan, seq<int>> := map[SleepQ := []]

  /** init (0) has two children, 2 and 3. */
  const threeKin := [Kin(NOBODY, [2, 3]), idle, Kin(0, []), Kin(0, [])]
  const threePcbs := [P(3), P(0), P(0), P(0)]

  /** The same state with somebody else running. */
  function Next(s: State, active: int, ready: seq<int>, lists: map<Chan, seq<int>>): State {
    s.(k := Sched(active, ready, lists, s.k.pcbs))
  }

  ghost predicate InUser(s: State) {
    Sane(s) && ContOf(s.k, s.k.active) == User && s.k.active != IDLE
  }

  /** A clock tick while nobody sleeps only rotates the queue. */
  lemma TickRotates(s: State, head: int, tail: seq<int>, s': State)
    requires InUser(s) && Q(s.k, SleepQ) == [] && s.k.ready != []
    requires Rotated(s.k.ready + [s.k.active]) == [head] + tail
    requires s' == Next(s, head, tail, s.k.lists[SleepQ := []])
    ensures Goes(s, Tick, s')
  {
    assert TickAll(s.k.pcbs, []) == s.k.pcbs;
    assert s.k.ready + [] == s.k.ready;
    assert WakeUp(s.k, Expire) == s.k.(lists := s.k.lists[SleepQ := []]);
    assert ([head] + tail)[1..] == tail;
    assert Finish(s.k.(lists := s.k.lists[SleepQ := []]), Preempt) == s'.k;
  }

  lemma ForkAdds(s: State, kids: seq<int>, s': State)
    requires InUser(s) && |s.k.pcbs| < MAX_PROC
    requires s.family[s.k.active].children + [|s.k.pcbs|] == kids
    requires s'.k.ready == s.k.ready + [|s.k.pcbs|]
    requires s'.k.pcbs == s.k.pcbs[s.k.active := Pcb(s.k.pcbs[s.k.active].alive, User, |s.k.pcbs|)] + [P(0)]
    requires s'.family == s.family[s.k.active := Kin(s.family[s.k.active].ppid, kids)] + [Kin(s.k.active, [])]
    requires s'.k.active == s.k.active && s'.k.lists == s.k.lists
    requires s' == s.(k := s'.k, family := s'.family)
    ensures Goes(s, Fork, s')
  {
  }

  /** init forks 2 and 3, and the next tick runs 2. */
  lemma TwoForks(s: State, s1: State, s2: State, s3: State)
    requires InUser(s) && s.k == Boot().k && s.family == Boot().family
    requires s1 == s.(k := Sched(0, [1, 2], map[], [P(2), P(0), P(0)]), family := [Kin(NOBODY, [2]), idle, Kin(0, [])])
    requires s2 == s.(k := Sched(0, [1, 2, 3], map[], threePcbs), family := threeKin)
    requires s3 == s2.(k := Sched(2, [3, 0, 1], noSleepers, threePcbs))
    ensures Goes(s, Fork, s1) && Goes(s1, Fork, s2) && Goes(s2, Tick, s3)
  {
    hide Goes;
    ForkAdds(s, [2], s1);
    ForkAdds(s1, [2, 3], s2);
    TickRotates(s2, 2, [3, 0, 1], s3);
  }

  /** A step that only blocks its caller behind `queue` and runs `head`. */
  lemma Blocks(s: State, e: Event, c: Cont, queue: seq<int>, head: int, tail: seq<int>, s': State)
    requires Enabled(s, e) && s.k.active != IDLE && c != User && PlanOf(s, e) == Plan(s, NoWake, Block(c))
    requires s.k.ready != [] && Rotated(s.k.ready) == [head] + tail && queue == Q(s.k, ChanOf(c)) + [s.k.active]
    requires s' == s.(k := Sched(head, tail, s.k.lists[ChanOf(c) := queue],
                                 s.k.pcbs[s.k.active := s.k.pcbs[s.k.active].(cont := c)]))
    ensures Goes(s, e, s')
  {
    hide PlanOf, Enabled;
    assert ([head] + tail)[1..] == tail;
  }

  /** A step that wakes the first waiter x of a list and returns. */
  lemma WakesFirst(s: State, e: Event, next: State, c: Chan, v: int, x: int, rest: seq<int>, s': State)
    requires Enabled(s, e) && PlanOf(s, e) == Plan(next, Heads(c, 1), Ret(v)) && Q(s.k, c) == [x] + rest
    requires s' == next.(k := Sched(s.k.active, s.k.ready + [x], s.k.lists[c := rest],
                                    s.k.pcbs[s.k.active := s.k.pcbs[s.k.active].(cont := User, ret := v)]))
    ensures Goes(s, e, s')
  {
    hide PlanOf, Enabled;
    assert ([x] + rest)[1..] == rest && ([x] + rest)[..1] == [x];
  }

  /** A step that only returns. */
  lemma Returns(s: State, e: Event, next: State, v: int, s': State)
    requires Enabled(s, e) && PlanOf(s, e) == Plan(next, NoWake, Ret(v))
    requires s' == next.(k := s.k.(pcbs := s.k.pcbs[s.k.active := s.k.pcbs[s.k.active].(cont := User, ret := v)]))
    ensures Goes(s, e, s')
  {
    hide PlanOf, Enabled;
  }

  /** An exit that wakes the process `out` from behind `front` in the wait list, or nobody. */
  lemma ExitGoes(s: State, status: int, next: State, front: seq<int>, out: seq<int>, rest: seq<int>, left: seq<int>,
                 head: int, tail: seq<int>, s': State)
    requires Enabled(s, Exit(status)) && |out| <= 1
    requires PlanOf(s, Exit(status)) == Plan(next, if out == [] then NoWake else At(WaitQ, |front|), Die)
    requires out != [] ==> Q(s.k, WaitQ) == front + out + rest && left == front + rest
    requires s.k.ready + out != [] && Rotated(s.k.ready + out) == [head] + tail
    requires s' == next.(k := Sched(head, tail, if out == [] then s.k.lists else s.k.lists[WaitQ := left],
                                    s.k.pcbs[s.k.active := s.k.pcbs[s.k.active].(alive := false)]))
    ensures Goes(s, Exit(status), s')
  {
    hide PlanOf, Enabled;
    assert ([head] + tail)[1..] == tail;
    if out == [] {
      assert s.k.ready + out == s.k.ready;
    } else {
      var q, n := front + out + rest, |front|;
      assert q[..n] + q[n + 1..] == front + rest;
      assert [q[n]] == out;
    }
  }
}
