/**
 Ids of pipes, locks and condition variables.  A new object gets one more than the number of reclaim records, so ids are
 distinct as long as nothing is reclaimed; after a Reclaim the next id is new if and only if it was the
 newest object that went.
 */
module Ids {
  import opened Constants
  import opened Scheduler
  import opened KernelSteps
  import opened KernelRuns
  import opened Calls
  import opened LockCalls
  import opened ObjectCalls
  import opened ReclaimCalls
  import opened SampleRuns
  import LocksModule = Locks

  // ----- records and listed objects -----------------------------------------------------

  function Records(s: seq<ReclaimInfo>, id: int, kind: Kind): nat {
    if s == [] then 0
    else Records(s[..|s| - 1], id, kind) + (if s[|s| - 1] == ReclaimInfo(id, kind) then 1 else 0)
  }

  /** What counts about an object here: whether it is listed, and its id. */
  datatype Mark = Mark(listed: bool, id: int)

  function Marks(s: State, kind: Kind): seq<Mark> {
    match kind
    case PipeKind => seq(|s.pipes|, h requires 0 <= h < |s.pipes| => Mark(s.pipes[h].listed, s.pipes[h].id))
    case LockKind => seq(|s.locks|, h requires 0 <= h < |s.locks| => Mark(s.locks[h].listed, s.locks[h].id))
    case CvarKind => seq(|s.cvars|, h requires 0 <= h < |s.cvars| => Mark(s.cvars[h].listed, s.cvars[h].id))
  }

  function Count(s: seq<Mark>, id: int): nat {
    if s == [] then 0 else Count(s[..|s| - 1], id) + (if s[|s| - 1] == Mark(true, id) then 1 else 0)
  }

  /** There are as many records of an id and kind as listed objects. */
  ghost predicate Matched(s: State) {
    forall id, kind :: Records(s.reclaims, id, kind) == Count(Marks(s, kind), id)
  }

  lemma {:induction false} CountUnlist(s: seq<Mark>, h: nat, id: int)
    requires h < |s| && s[h].listed
    ensures Count(s[h := Mark(false, s[h].id)], id) == Count(s, id) - (if s[h].id == id then 1 else 0)
  {
    var n, t := |s| - 1, s[h := Mark(false, s[h].id)];
    if h < n {
      CountUnlist(s[..n], h, id);
      assert t[..n] == s[..n][h := Mark(false, s[h].id)];
    } else {
      assert t[..n] == s[..n];
    }
  }

  lemma CountAppend(s: seq<Mark>, x: Mark, id: int)
    ensures Count(s + [x], id) == Count(s, id) + (if x == Mark(true, id) then 1 else 0)
  {
    assert (s + [x])[..|s|] == s;
  }

  lemma RecordsAppend(s: seq<ReclaimInfo>, x: ReclaimInfo, id: int, kind: Kind)
    ensures Records(s + [x], id, kind) == Records(s, id, kind) + (if x == ReclaimInfo(id, kind) then 1 else 0)
  {
    assert (s + [x])[..|s|] == s;
  }

  lemma {:induction false} RecordsCut(s: seq<ReclaimInfo>, i: nat, id: int, kind: Kind)
    requires i < |s|
    ensures Records(s[..i] + s[i + 1..], id, kind) == Records(s, id, kind) - (if s[i] == ReclaimInfo(id, kind) then 1 else 0)
  {
    var n := |s| - 1;
    if i == n {
      assert s[..i] + s[i + 1..] == s[..n];
    } else {
      RecordsCut(s[..n], i, id, kind);
      RecordsAppend(s[..n][..i] + s[..n][i + 1..], s[n], id, kind);
      assert s[..n][..i] + s[..n][i + 1..] + [s[n]] == s[..i] + s[i + 1..];
    }
  }

  lemma {:induction false} CountedIsThere(s: seq<Mark>, id: int)
    ensures Count(s, id) > 0 <==> exists h :: 0 <= h < |s| && s[h] == Mark(true, id)
  {
    if s != [] {
      var n := |s| - 1;
      CountedIsThere(s[..n], id);
      if h :| 0 <= h < |s| && s[h] == Mark(true, id) {
        assert h < n ==> s[..n][h] == Mark(true, id);
      }
      if Count(s[..n], id) > 0 {
        var h :| 0 <= h < n && s[..n][h] == Mark(true, id);
        assert s[h] == Mark(true, id);
      }
    }
  }

  lemma {:induction false} RecordedIsThere(s: seq<ReclaimInfo>, id: int, kind: Kind)
    ensures Records(s, id, kind) > 0 <==> exists i :: 0 <= i < |s| && s[i] == ReclaimInfo(id, kind)
  {
    if s != [] {
      var n := |s| - 1;
      RecordedIsThere(s[..n], id, kind);
      if i :| 0 <= i < |s| && s[i] == ReclaimInfo(id, kind) {
        assert i < n ==> s[..n][i] == ReclaimInfo(id, kind);
      }
      if Records(s[..n], id, kind) > 0 {
        var i :| 0 <= i < n && s[..n][i] == ReclaimInfo(id, kind);
        assert s[i] == ReclaimInfo(id, kind);
      }
    }
  }

  // ----- every step -------------------------------------------------------------------------

  predicate Creates(e: Event) { e.PipeInit? || e.LockInit? || e.CvarInit? }

  ghost predicate SameBooks(s: State, s': State) {
    s'.reclaims == s.reclaims && forall kind :: Marks(s', kind) == Marks(s, kind)
  }

  lemma OtherSteps(s: Good, e: Event)
    requires Enabled(s, e) && !Creates(e) && !e.Reclaim?
    ensures SameBooks(s, Step(s, e))
  {
    hide Core, Within, Move, Q, FindLock, FindHeld, FindCvar, FindPipe, FindSem, FindDead, FindPid, FindWriter, RemoveLoc, Orphaned, DropChild, Sent, Signalled, At0;
    if e.Resume? {
      ResumeSame(s);
    } else {
      CallSame(s, e);
    }
    var p := PlanOf(s, e).next;
    assert Marks(Step(s, e), PipeKind) == Marks(p, PipeKind) && Marks(Step(s, e), LockKind) == Marks(p, LockKind)
        && Marks(Step(s, e), CvarKind) == Marks(p, CvarKind);
  }

  lemma CallSame(s: Good, e: Event)
    requires Enabled(s, e) && !Creates(e) && !e.Reclaim? && !e.Resume?
    ensures SameBooks(s, PlanOf(s, e).next)
  {
    hide Core, Within, Q, FindDead, FindPid, FindWriter, RemoveLoc, Orphaned, DropChild, At0;
    var s' := PlanOf(s, e).next;
    assert Marks(s', PipeKind) == Marks(s, PipeKind);
    assert Marks(s', LockKind) == Marks(s, LockKind);
    assert Marks(s', CvarKind) == Marks(s, CvarKind);
  }

  lemma ResumeSame(s: Good)
    requires Enabled(s, Resume)
    ensures SameBooks(s, PlanResume(s).next)
  {
    hide Core, Within, Q, FindDead, RemoveLoc, At0;
    var s' := PlanResume(s).next;
    assert Marks(s', PipeKind) == Marks(s, PipeKind);
    assert Marks(s', LockKind) == Marks(s, LockKind);
    assert Marks(s', CvarKind) == Marks(s, CvarKind);
  }

  lemma SameIsMatched(s: State, s': State)
    requires Matched(s) && SameBooks(s, s')
    ensures Matched(s')
  {
  }

  lemma NewIsMatched(s: State, s': State, id: int, kind: Kind)
    requires Matched(s) && s'.reclaims == s.reclaims + [ReclaimInfo(id, kind)]
    requires Marks(s', kind) == Marks(s, kind) + [Mark(true, id)] && forall k :: k != kind ==> Marks(s', k) == Marks(s, k)
    ensures Matched(s')
  {
    forall x, k ensures Records(s'.reclaims, x, k) == Count(Marks(s', k), x) {
      assert Records(s.reclaims, x, k) == Count(Marks(s, k), x);
      RecordsAppend(s.reclaims, ReclaimInfo(id, kind), x, k);
      CountAppend(Marks(s, kind), Mark(true, id), x);
    }
  }

  lemma GoneIsMatched(s: State, s': State, i: nat, h: nat)
    requires Matched(s) && i < |s.reclaims| && s'.reclaims == s.reclaims[..i] + s.reclaims[i + 1..]
    requires h < |Marks(s, s.reclaims[i].kind)| && Marks(s, s.reclaims[i].kind)[h] == Mark(true, s.reclaims[i].id)
    requires Marks(s', s.reclaims[i].kind) == Marks(s, s.reclaims[i].kind)[h := Mark(false, s.reclaims[i].id)]
    requires forall k :: k != s.reclaims[i].kind ==> Marks(s', k) == Marks(s, k)
    ensures Matched(s')
  {
    var kind := s.reclaims[i].kind;
    forall x, k ensures Records(s'.reclaims, x, k) == Count(Marks(s', k), x) {
      assert Records(s.reclaims, x, k) == Count(Marks(s, k), x);
      RecordsCut(s.reclaims, i, x, k);
      CountUnlist(Marks(s, kind), h, x);
    }
  }

  lemma InitMatched(r: Run, n: nat)
    requires n < |r.events| && Creates(r.events[n]) && Matched(r.states[n])
    ensures Matched(r.states[n + 1])
  {
    hide Step, Enabled, Matched, Returned, ListsSame;
    InitOutcome(r, n);
    var s, s', e := r.states[n], r.states[n + 1], r.events[n];
    var kind := if e.PipeInit? then PipeKind else if e.LockInit? then LockKind else CvarKind;
    forall k ensures k != kind ==> Marks(s', k) == Marks(s, k) {
    }
    NewIsMatched(s, s', |s.reclaims| + 1, kind);
  }

  lemma ReclaimMatched(r: Run, n: nat, id: int)
    requires n < |r.events| && r.events[n] == Reclaim(id) && Matched(r.states[n])
    ensures Matched(r.states[n + 1])
  {
    hide Step, Enabled, Matched, Returned, HalfWoken, RecordIs, NoRecord, PipeIs, CvarIs, NoPipe, NoCvar, MayReclaim, ReclaimedIs, FindReclaim;
    var s, s' := r.states[n], r.states[n + 1];
    RecordFound(s, id);
    if id < 0 || FindReclaim(s.reclaims, id, 0).None? {
      ReclaimUnknown(r, n, id);
      RefusedBooks(s, s');
    } else {
      var i := FindReclaim(s.reclaims, id, 0).value;
      RecordIn(s, id);
      match s.reclaims[i].kind
      case PipeKind => ReclaimPipeMatched(r, n, id, i);
      case LockKind => ReclaimLockMatched(r, n, id, i);
      case CvarKind => ReclaimCvarMatched(r, n, id, i);
    }
  }

  lemma RefusedBooks(s: State, s': State)
    requires Matched(s) && Refused(s, s')
    ensures Matched(s')
  {
    hide Matched;
    assert Marks(s', PipeKind) == Marks(s, PipeKind) && Marks(s', LockKind) == Marks(s, LockKind) && Marks(s', CvarKind) == Marks(s, CvarKind);
    SameIsMatched(s, s');
  }

  lemma ReclaimPipeMatched(r: Run, n: nat, id: int, i: nat)
    requires n < |r.events| && r.events[n] == Reclaim(id) && id >= 0 && RecordIs(r.states[n], id, i) && Matched(r.states[n])
    requires i < |r.states[n].reclaims| && r.states[n].reclaims[i] == ReclaimInfo(id, PipeKind)
    ensures Matched(r.states[n + 1])
  {
    hide Step, Enabled, Matched, Returned, HalfWoken, RecordIs, FindPipe, NoPipe;
    var s, s' := r.states[n], r.states[n + 1];
    ReclaimPipeOutcome(r, n, id, i);
    PipeFound(s, id);
    if FindPipe(s.pipes, id, 0).None? {
      RefusedBooks(s, s');
    } else {
      var h := FindPipe(s.pipes, id, 0).value;
      assert PipeIs(s, id, h);
      assert Marks(s', PipeKind) == Marks(s, PipeKind)[h := Mark(false, id)];
      assert Marks(s', LockKind) == Marks(s, LockKind) && Marks(s', CvarKind) == Marks(s, CvarKind);
      GoneIsMatched(s, s', i, h);
    }
  }

  lemma ReclaimCvarMatched(r: Run, n: nat, id: int, i: nat)
    requires n < |r.events| && r.events[n] == Reclaim(id) && id >= 0 && RecordIs(r.states[n], id, i) && Matched(r.states[n])
    requires i < |r.states[n].reclaims| && r.states[n].reclaims[i] == ReclaimInfo(id, CvarKind)
    ensures Matched(r.states[n + 1])
  {
    hide Step, Enabled, Matched, Returned, HalfWoken, RecordIs, FindCvar, NoCvar;
    var s, s' := r.states[n], r.states[n + 1];
    ReclaimCvarOutcome(r, n, id, i);
    CvarFound(s, id);
    if FindCvar(s.cvars, id, 0).None? {
      RefusedBooks(s, s');
    } else {
      var h := FindCvar(s.cvars, id, 0).value;
      assert CvarIs(s, id, h);
      assert Marks(s', CvarKind) == Marks(s, CvarKind)[h := Mark(false, id)];
      assert Marks(s', LockKind) == Marks(s, LockKind) && Marks(s', PipeKind) == Marks(s, PipeKind);
      GoneIsMatched(s, s', i, h);
    }
  }

  lemma ReclaimLockMatched(r: Run, n: nat, id: int, i: nat)
    requires n < |r.events| && r.events[n] == Reclaim(id) && id >= 0 && RecordIs(r.states[n], id, i) && Matched(r.states[n])
    requires i < |r.states[n].reclaims| && r.states[n].reclaims[i] == ReclaimInfo(id, LockKind)
    ensures Matched(r.states[n + 1])
  {
    hide Step, Enabled, Matched, Returned, HalfWoken, RecordIs, FindDisposable, Vacant, LocksModule.Inside, LocksModule.LockInv;
    var s, s' := r.states[n], r.states[n + 1];
    ReclaimLockOutcome(r, n, id, i);
    LocksModule.LocksAreSafe(r, n);
    DisposableFound(s, id);
    if FindDisposable(s.locks, id, s.k.active, 0).None? {
      RefusedBooks(s, s');
    } else {
      var h := FindDisposable(s.locks, id, s.k.active, 0).value;
      assert ReclaimedIs(s, id, h);
      assert Marks(s', LockKind) == Marks(s, LockKind)[h := Mark(false, id)];
      assert Marks(s', CvarKind) == Marks(s, CvarKind) && Marks(s', PipeKind) == Marks(s, PipeKind);
      GoneIsMatched(s, s', i, h);
    }
  }

  /** On every run, reclaims included, there are as many records of an id and kind as listed objects. */
  lemma {:induction false} RecordsMatchObjects(r: Run, n: nat)
    requires n < |r.states|
    ensures Matched(r.states[n])
  {
    hide Step, Enabled, Matched, Core, SameBooks;
    if n == 0 {
      BootMatched();
    } else {
      RecordsMatchObjects(r, n - 1);
      if Creates(r.events[n - 1]) {
        InitMatched(r, n - 1);
      } else if r.events[n - 1].Reclaim? {
        ReclaimMatched(r, n - 1, r.events[n - 1].id);
      } else {
        StepOf(r, n - 1);
        OtherSteps(r.states[n - 1], r.events[n - 1]);
        SameIsMatched(r.states[n - 1], r.states[n]);
      }
    }
  }

  lemma BootMatched()
    ensures Matched(Boot())
  {
    forall id, kind ensures Records(Boot().reclaims, id, kind) == Count(Marks(Boot(), kind), id) {
      assert Marks(Boot(), kind) == [];
    }
  }

  // ----- distinct ids ----------------------------------------------------------------------------

  /** Object h of a kind is listed under the id. */
  predicate Has(s: State, kind: Kind, h: int, id: int) {
    0 <= h < |Marks(s, kind)| && Marks(s, kind)[h] == Mark(true, id)
  }

  /** Some listed object has the id. */
  ghost predicate Taken(s: State, id: int) { exists kind, h :: Has(s, kind, h, id) }

  ghost predicate IdsDistinct(s: State) {
    forall kind, h, kind', h', id :: Has(s, kind, h, id) && Has(s, kind', h', id) ==> kind == kind' && h == h'
  }

  /** The records are numbered 1, 2, 3, ... */
  ghost predicate InOrder(s: State) {
    forall i :: 0 <= i < |s.reclaims| ==> s.reclaims[i].id == i + 1
  }

  lemma {:induction false} CountTwice(s: seq<Mark>, h: nat, h': nat, id: int)
    requires h < h' < |s| && s[h] == s[h'] == Mark(true, id)
    ensures Count(s, id) >= 2
  {
    var n := |s| - 1;
    if h' < n {
      CountTwice(s[..n], h, h', id);
    } else {
      CountedIsThere(s[..n], id);
      assert s[..n][h] == Mark(true, id);
    }
  }

  lemma {:induction false} RecordedOnce(s: seq<ReclaimInfo>, id: int, kind: Kind)
    requires forall i :: 0 <= i < |s| ==> s[i].id == i + 1
    ensures Records(s, id, kind) <= 1
  {
    if s != [] {
      var n := |s| - 1;
      RecordedOnce(s[..n], id, kind);
      RecordedIsThere(s[..n], id, kind);
    }
  }

  lemma OrderedIsDistinct(s: State)
    requires Matched(s) && InOrder(s)
    ensures IdsDistinct(s)
  {
    forall kind, h, kind', h', id | Has(s, kind, h, id) && Has(s, kind', h', id) ensures kind == kind' && h == h' {
      HasRecord(s, kind, h, id);
      HasRecord(s, kind', h', id);
      RecordedOnce(s.reclaims, id, kind);
      assert Records(s.reclaims, id, kind) == Count(Marks(s, kind), id);
      if kind == kind' && h < h' {
        CountTwice(Marks(s, kind), h, h', id);
      } else if kind == kind' && h' < h {
        CountTwice(Marks(s, kind), h', h, id);
      }
    }
  }

  lemma HasRecord(s: State, kind: Kind, h: int, id: int)
    requires Matched(s) && Has(s, kind, h, id)
    ensures exists i :: 0 <= i < |s.reclaims| && s.reclaims[i] == ReclaimInfo(id, kind)
  {
    assert Records(s.reclaims, id, kind) == Count(Marks(s, kind), id);
    CountedIsThere(Marks(s, kind), id);
    RecordedIsThere(s.reclaims, id, kind);
  }

  /** On every run without a Reclaim all ids are distinct, across the kinds. */
  lemma IdsAreDistinct(r: Run, n: nat)
    requires n < |r.states| && forall k :: 0 <= k < n ==> !r.events[k].Reclaim?
    ensures IdsDistinct(r.states[n])
  {
    hide Step, Matched, IdsDistinct, InOrder;
    RecordsMatchObjects(r, n);
    NumberedInOrder(r, n);
    OrderedIsDistinct(r.states[n]);
  }

  lemma {:induction false} NumberedInOrder(r: Run, n: nat)
    requires n < |r.states| && forall k :: 0 <= k < n ==> !r.events[k].Reclaim?
    ensures InOrder(r.states[n])
  {
    hide Step, Enabled, Core, Returned, ListsSame;
    if n > 0 {
      NumberedInOrder(r, n - 1);
      if Creates(r.events[n - 1]) {
        InitOutcome(r, n - 1);
      } else {
        StepOf(r, n - 1);
        OtherSteps(r.states[n - 1], r.events[n - 1]);
      }
    }
  }

  /** On every run the id of a new object is taken already if and only if a record has it. */
  lemma NewIdTakenIff(r: Run, n: nat, id: int)
    requires n < |r.states|
    ensures Taken(r.states[n], id) <==> exists i :: 0 <= i < |r.states[n].reclaims| && r.states[n].reclaims[i].id == id
  {
    hide Step, Matched;
    RecordsMatchObjects(r, n);
    var s := r.states[n];
    if kind, h :| Has(s, kind, h, id) {
      HasRecord(s, kind, h, id);
    }
    if i :| 0 <= i < |s.reclaims| && s.reclaims[i].id == id {
      RecordHas(s, i);
    }
  }

  lemma RecordHas(s: State, i: nat)
    requires Matched(s) && i < |s.reclaims|
    ensures exists h :: Has(s, s.reclaims[i].kind, h, s.reclaims[i].id)
  {
    var id, kind := s.reclaims[i].id, s.reclaims[i].kind;
    assert s.reclaims[i] == ReclaimInfo(id, kind);
    RecordedIsThere(s.reclaims, id, kind);
    assert Records(s.reclaims, id, kind) == Count(Marks(s, kind), id);
    CountedIsThere(Marks(s, kind), id);
    var h :| 0 <= h < |Marks(s, kind)| && Marks(s, kind)[h] == Mark(true, id);
    assert Has(s, kind, h, id);
  }

  /** A first successful Reclaim: the id of the next new object is that of a listed one if and only if it was not the
      newest object that was reclaimed. */
  lemma ReclaimBreaksIdsIff(r: Run, n: nat, id: int)
    requires n < |r.events| && r.events[n] == Reclaim(id) && (forall k :: 0 <= k < n ==> !r.events[k].Reclaim?)
    requires Returned(r.states[n], r.states[n + 1], 0)
    ensures Taken(r.states[n + 1], |r.states[n + 1].reclaims| + 1) <==> id != |r.states[n].reclaims|
  {
    hide Step, Enabled, Returned, Taken;
    NumberedInOrder(r, n);
    ReclaimCuts(r, n, id);
    var s, s' := r.states[n], r.states[n + 1];
    var m := |s.reclaims|;
    NewIdTakenIff(r, n + 1, m);
    if id != m {
      assert s'.reclaims[m - 2] == s.reclaims[m - 1] && s'.reclaims[m - 2].id == m;
    } else {
      assert forall j :: 0 <= j < |s'.reclaims| ==> s'.reclaims[j] == s.reclaims[j];
    }
  }

  lemma ReclaimCuts(r: Run, n: nat, id: int)
    requires n < |r.events| && r.events[n] == Reclaim(id) && InOrder(r.states[n]) && Returned(r.states[n], r.states[n + 1], 0)
    ensures 1 <= id <= |r.states[n].reclaims|
    ensures r.states[n + 1].reclaims == r.states[n].reclaims[..id - 1] + r.states[n].reclaims[id..]
  {
    hide Step, Enabled, HalfWoken, RecordIs, NoRecord, FindReclaim, FindPipe, FindCvar, FindDisposable, PipeIs, NoPipe, CvarIs, NoCvar,
      MayReclaim, ReclaimedIs, LocksModule.LockInv;
    var s := r.states[n];
    RecordFound(s, id);
    if id < 0 || FindReclaim(s.reclaims, id, 0).None? {
      ReclaimUnknown(r, n, id);
    } else {
      var i := FindReclaim(s.reclaims, id, 0).value;
      RecordIn(s, id);
      PipeFound(s, id);
      CvarFound(s, id);
      LocksModule.LocksAreSafe(r, n);
      DisposableFound(s, id);
      match s.reclaims[i].kind
      case PipeKind => ReclaimPipeOutcome(r, n, id, i);
      case LockKind => ReclaimLockOutcome(r, n, id, i);
      case CvarKind => ReclaimCvarOutcome(r, n, id, i);
    }
  }

  // ----- a run on which two listed pipes have one id ------------------------------------------------

  const t1 := Boot().(pipes := [Pipe(1, true, [])], reclaims := [ReclaimInfo(1, PipeKind)])
  const t2 := Boot().(pipes := [Pipe(1, true, []), Pipe(2, true, [])], reclaims := [ReclaimInfo(1, PipeKind), ReclaimInfo(2, PipeKind)])
  const t3 := Boot().(k := Boot().k.(lists := map[PipeQ(0) := []]), pipes := [Pipe(1, false, []), Pipe(2, true, [])],
                      reclaims := [ReclaimInfo(2, PipeKind)])
  const t4 := t3.(pipes := [Pipe(1, false, []), Pipe(2, true, []), Pipe(2, true, [])],
                  reclaims := [ReclaimInfo(2, PipeKind), ReclaimInfo(2, PipeKind)])

  lemma TwoPipes()
    ensures Goes(Boot(), PipeInit, t1) && Goes(t1, PipeInit, t2)
  {
    hide Goes;
    assert Boot().k.pcbs[0 := Pcb(true, User, 0)] == Boot().k.pcbs;
    Returns(Boot(), PipeInit, t1, 0, t1);
    Returns(t1, PipeInit, t2, 0, t2);
  }

  lemma FirstReclaimed()
    ensures Goes(t2, Reclaim(1), t3)
  {
    hide PlanReclaim, Within;
    FirstReclaimPlan();
    assert Boot().k.pcbs[0 := Pcb(true, User, 0)] == Boot().k.pcbs;
    assert [1] + [] == [1];
  }

  lemma FirstReclaimPlan()
    ensures PlanReclaim(t2, 1) == Plan(t3.(k := t2.k), Heads(PipeQ(0), 0), Ret(0))
  {
    assert FindReclaim(t2.reclaims, 1, 0) == Some(0) && FindPipe(t2.pipes, 1, 0) == Some(0);
  }

  lemma ThirdPipe()
    ensures Goes(t3, PipeInit, t4)
  {
    hide Goes;
    assert Boot().k.pcbs[0 := Pcb(true, User, 0)] == Boot().k.pcbs;
    Returns(t3, PipeInit, t4, 0, t4);
  }

  /** Two pipes, the older one reclaimed, and a third: two listed pipes have id 2. */
  lemma SameIdTwice() returns (r: Run)
    ensures r.events == [PipeInit, PipeInit, Reclaim(1), PipeInit] && |r.states| == 5
    ensures Has(r.states[4], PipeKind, 1, 2) && Has(r.states[4], PipeKind, 2, 2) && !IdsDistinct(r.states[4])
  {
    hide Step, Enabled, Goes, Boot;
    var t := Trace([Boot(), t1, t2, t3, t4], [PipeInit, PipeInit, Reclaim(1), PipeInit]);
    TwoPipes();
    FirstReclaimed();
    ThirdPipe();
    RunOf(t.states, t.events);
    r := t;
    assert Has(t4, PipeKind, 1, 2) && Has(t4, PipeKind, 2, 2);
  }
}
