/**
 The kernel's code driven by any sequence of events the machine allows: the states the object goes
 through are a run, so everything proved of all runs holds of the object.
 */
module KernelDriver {
  import opened Scheduler
  import opened KernelSteps
  import opened KernelRuns
  import opened KernelCode
  import opened Locks
  import opened Pipes
  import opened Semaphores
  import opened Terminals
  import opened Families
  import opened DeadList

  /** The events can be taken from s, one after the other. */
  ghost predicate CanRun(s: State, events: seq<Event>)
    decreases |events|
  {
    events == [] || (Enabled(s, events[0]) && CanRun(Step(s, events[0]), events[1..]))
  }

  lemma RunGoes(r: Run, i: nat)
    requires i < |r.events|
    ensures Goes(r.states[i], r.events[i], r.states[i + 1])
  {
    hide Step, Enabled;
  }

  lemma RunStarts(r: Run)
    ensures |r.states| == |r.events| + 1 && r.states[0] == Boot()
  {
    hide Step, Enabled, Boot;
  }

  lemma OneGoes(s: State, e: Event)
    requires Enabled(s, e)
    ensures Goes(s, e, Step(s, e))
  {
    hide Step, Enabled;
  }

  /** The run with one more step. */
  lemma Extend(r: Run, e: Event) returns (r': Run)
    requires Enabled(r.states[|r.events|], e)
    ensures r'.events == r.events + [e] && r'.states == r.states + [Step(r.states[|r.events|], e)]
  {
    hide *;
    RunStarts(r);
    var t := Trace(r.states + [Step(r.states[|r.events|], e)], r.events + [e]);
    forall i | 0 <= i < |t.events| ensures Goes(t.states[i], t.events[i], t.states[i + 1]) {
      if i < |r.events| {
        RunGoes(r, i);
      } else {
        OneGoes(r.states[|r.events|], e);
      }
    }
    RunOf(t.states, t.events);
    r' := t;
  }

  /** What the code does on an event is the step of the kernel machine. */
  method Perform(kernel: Kernel, e: Event)
    requires Enabled(kernel.View(), e) && Core(kernel.View())
    modifies kernel
    ensures kernel.View() == Step(old(kernel.View()), e)
  {
    hide Move, Enabled, Core, Within, PlanFork, PlanExit, PlanWait, PlanDelay, PlanTtyWrite, PlanPipeInit, PlanPipeRead,
      PlanPipeWrite, PlanLockInit, PlanAcquire, PlanRelease, PlanCvarInit, PlanCvarSignal, PlanCvarBroadcast, PlanCvarWait,
      PlanReclaim, PlanSemInit, PlanSemSignal, PlanSemWait, PlanTransmitted, PlanResume;
    Scheduled(kernel.View());
    match e {
      case Fork => kernel.Fork();
      case Exit(status) => kernel.Exit(status);
      case Wait => kernel.Wait();
      case Delay(ticks) => kernel.Delay(ticks);
      case TtyWrite(t, len) => kernel.TtyWrite(t, len);
      case PipeInit => kernel.PipeInit();
      case PipeRead(id, len) => kernel.PipeRead(id, len);
      case PipeWrite(id, len, data) => kernel.PipeWrite(id, len, data);
      case LockInit => kernel.LockInit();
      case Acquire(id) => kernel.Acquire(id);
      case Release(id) => kernel.Release(id);
      case CvarInit => kernel.CvarInit();
      case CvarSignal(id) => kernel.CvarSignal(id);
      case CvarBroadcast(id) => kernel.CvarBroadcast(id);
      case CvarWait(id, lockId) => kernel.CvarWait(id, lockId);
      case Reclaim(id) => kernel.Reclaim(id);
      case SemInit => kernel.SemInit();
      case SemSignal(id) => kernel.SemSignal(id);
      case SemWait(id) => kernel.SemWait(id);
      case Tick => kernel.Tick();
      case Transmitted(t) => kernel.Transmitted(t);
      case Resume => kernel.Resume();
    }
  }

  lemma Scheduled(s: State)
    requires Core(s)
    ensures SchedInv(s.k)
  {
  }

  /** What holds of the kernel after any sequence of events. */
  ghost predicate AllInvariants(s: State) {
    && Core(s) && Runnable(s.k, IDLE) && LockInv(s) && PipeInv(s) && SemInv(s) && TtyInv(s)
    && ForestInv(s) && WaitersOk(s) && DeadInv(s)
  }

  lemma RunsKeepAll(r: Run, n: nat)
    requires n < |r.states|
    ensures AllInvariants(r.states[n])
  {
    hide *;
    EveryProcessHasOnePlace(r, n);
    LocksAreSafe(r, n);
    PipesAreStreams(r, n);
    SemaphoresCount(r, n);
    TerminalsAreExclusive(r, n);
    ProcessesFormAForest(r, n);
    WaitersHaveLiveChildren(r, n);
    EntriesAreDistinctExits(r, n);
    Together(r.states[n]);
  }

  lemma Together(s: State)
    requires Core(s) && Runnable(s.k, IDLE) && LockInv(s) && PipeInv(s) && SemInv(s) && TtyInv(s)
    requires ForestInv(s) && WaitersOk(s) && DeadInv(s)
    ensures AllInvariants(s)
  {
    hide Core, LockInv, PipeInv, SemInv, TtyInv, ForestInv, WaitersOk, DeadInv;
  }

  /** Start a kernel and perform the events on it. */
  method PerformAll(events: seq<Event>) returns (kernel: Kernel, ghost r: Run)
    requires CanRun(Boot(), events)
    ensures r.events == events && r.states[|events|] == kernel.View()
    ensures AllInvariants(kernel.View())
  {
    hide AllInvariants, Step, Enabled, Core, Boot;
    kernel := new Kernel();
    r := Trace([Boot()], []);
    var i := 0;
    assert events[0..] == events;
    while i < |events|
      invariant 0 <= i <= |events| && CanRun(kernel.View(), events[i..])
      invariant r.events == events[..i] && r.states[i] == kernel.View()
      invariant fresh(kernel)
    {
      assert events[i..][0] == events[i] && events[i..][1..] == events[i + 1..];
      EveryProcessHasOnePlace(r, i);
      r := Extend(r, events[i]);
      Perform(kernel, events[i]);
      i := i + 1;
    }
    RunsKeepAll(r, i);
  }
}
