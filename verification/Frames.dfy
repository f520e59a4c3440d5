/**
 Frame ownership.  All frames the kernel knows, free or mapped anywhere, are counted.
 No step makes a count grow, so no frame ever has two owners; and no step makes one shrink
 unless a Brk maps over pages that are still mapped, so otherwise no frame is ever lost.
 */
module Frames {
  import opened Memory

  /** Whether an entry holds frame f, as a number. */
  function Held(x: Pte, f: int): nat {
    if x.valid && x.pfn == f then 1 else 0
  }

  function HeldIn(s: seq<Pte>, f: int): nat {
    if s == [] then 0 else Held(s[0], f) + HeldIn(s[1..], f)
  }

  function InSpace(x: Space, f: int): nat {
    HeldIn(x.upt, f) + HeldIn(x.kst, f)
  }

  function InSpaces(s: seq<Space>, f: int): nat {
    if s == [] then 0 else InSpace(s[0], f) + InSpaces(s[1..], f)
  }

  /** How often frame f is free or mapped, over the whole kernel. */
  function Uses(m: Mem, f: int): nat {
    multiset(m.free)[f] + HeldIn(m.kpt, f) + HeldIn(m.initial, f) + InSpaces(m.spaces, f)
  }

  ghost predicate Exclusive(m: Mem) {
    forall f :: Uses(m, f) <= 1
  }

  // ----- sums under update ------------------------------------------------------

  lemma {:induction false} TableUpdate(s: seq<Pte>, i: nat, x: Pte, f: int)
    requires i < |s|
    ensures HeldIn(s[i := x], f) == HeldIn(s, f) - Held(s[i], f) + Held(x, f)
  {
    var t := s[i := x];
    if i == 0 {
      assert t[1..] == s[1..];
    } else {
      assert t[1..] == s[1..][i - 1 := x];
      TableUpdate(s[1..], i - 1, x, f);
    }
  }

  lemma {:induction false} SpacesUpdate(s: seq<Space>, p: nat, x: Space, f: int)
    requires p < |s|
    ensures InSpaces(s[p := x], f) == InSpaces(s, f) - InSpace(s[p], f) + InSpace(x, f)
  {
    hide InSpace;
    var t := s[p := x];
    if p == 0 {
      assert t[1..] == s[1..];
    } else {
      assert t[1..] == s[1..][p - 1 := x];
      SpacesUpdate(s[1..], p - 1, x, f);
    }
  }

  lemma {:induction false} SpacesAppend(s: seq<Space>, x: Space, f: int)
    ensures InSpaces(s + [x], f) == InSpaces(s, f) + InSpace(x, f)
  {
    hide InSpace;
    if s == [] {
      assert s + [x] == [x];
      assert [x][1..] == [];
    } else {
      assert (s + [x])[1..] == s[1..] + [x];
      SpacesAppend(s[1..], x, f);
    }
  }

  lemma {:induction false} BlankHolds(s: seq<Pte>, f: int)
    requires forall i :: 0 <= i < |s| ==> !s[i].valid
    ensures HeldIn(s, f) == 0
  {
    if s != [] {
      BlankHolds(s[1..], f);
    }
  }

  lemma SetUserUses(m: Mem, p: int, i: int, x: Pte, f: int)
    requires HasUser(m, p, i)
    ensures Uses(SetUser(m, p, i, x), f) == Uses(m, f) - Held(m.spaces[p].upt[i], f) + Held(x, f)
  {
    hide Held, HeldIn, InSpaces;
    var sp := m.spaces[p];
    TableUpdate(sp.upt, i, x, f);
    SpacesUpdate(m.spaces, p, sp.(upt := sp.upt[i := x]), f);
  }

  lemma SetStackUses(m: Mem, p: int, i: int, x: Pte, f: int)
    requires HasStack(m, p, i)
    ensures Uses(SetStack(m, p, i, x), f) == Uses(m, f) - Held(m.spaces[p].kst[i], f) + Held(x, f)
  {
    hide Held, HeldIn, InSpaces;
    var sp := m.spaces[p];
    TableUpdate(sp.kst, i, x, f);
    SpacesUpdate(m.spaces, p, sp.(kst := sp.kst[i := x]), f);
  }

  /** Changing anything of a process but its tables leaves the frames alone. */
  lemma SetSpaceUses(m: Mem, p: int, x: Space, f: int)
    requires 0 <= p < |m.spaces| && x.upt == m.spaces[p].upt && x.kst == m.spaces[p].kst
    ensures Uses(SetSpace(m, p, x), f) == Uses(m, f)
  {
    hide HeldIn, InSpaces;
    SpacesUpdate(m.spaces, p, x, f);
  }

  lemma FreeSplit(m: Mem, f: int)
    requires m.free != []
    ensures multiset(m.free)[f] == multiset(FreeLeft(m))[f] + (if f == FrameTaken(m) then 1 else 0)
  {
    assert m.free == [m.free[0]] + m.free[1..];
  }

  // ----- one frame ------------------------------------------------------------------

  /** Mapping a page takes a frame from the free list; what the entry held before is lost. */
  lemma MapUserUses(m: Mem, p: int, i: int, prot: int, f: int)
    requires HasUser(m, p, i) && m.free != []
    ensures Uses(MapUser(m, p, i, prot), f) == Uses(m, f) - Held(m.spaces[p].upt[i], f)
  {
    hide HeldIn, InSpaces;
    SetUserUses(m, p, i, Pte(true, prot, FrameTaken(m)), f);
    FreeSplit(m, f);
  }

  lemma UnmapUserUses(m: Mem, p: int, i: int, f: int)
    requires HasUser(m, p, i)
    ensures Uses(UnmapUser(m, p, i), f) == Uses(m, f)
  {
    hide HeldIn, InSpaces;
    SetUserUses(m, p, i, Pte(false, 0, m.spaces[p].upt[i].pfn), f);
  }

  lemma MapStackUses(m: Mem, p: int, i: int, f: int)
    requires HasStack(m, p, i) && i < |m.initial| && m.free != []
    ensures Uses(MapStack(m, p, i), f) == Uses(m, f) - Held(m.spaces[p].kst[i], f)
  {
    hide HeldIn, InSpaces;
    SetStackUses(m, p, i, Pte(true, READ_WRITE, FrameTaken(m)), f);
    FreeSplit(m, f);
  }

  lemma UnmapStackUses(m: Mem, p: int, i: int, f: int)
    requires HasStack(m, p, i)
    ensures Uses(UnmapStack(m, p, i), f) == Uses(m, f)
  {
    hide HeldIn, InSpaces;
    SetStackUses(m, p, i, Pte(false, 0, m.spaces[p].kst[i].pfn), f);
  }

  lemma MapKernelUses(m: Mem, i: int, f: int)
    requires 0 <= i < |m.kpt| && m.free != []
    ensures Uses(MapKernel(m, i), f) == Uses(m, f) - Held(m.kpt[i], f)
  {
    hide HeldIn, InSpaces;
    TableUpdate(m.kpt, i, Pte(true, READ_WRITE, FrameTaken(m)), f);
    FreeSplit(m, f);
  }

  // ----- loops ----------------------------------------------------------------------------

  /** How often the entries i..end of a table hold f. */
  function Range(s: seq<Pte>, i: int, end: int, f: int): nat
    requires 0 <= i && end <= |s|
    decreases end - i
  {
    if i >= end then 0 else Held(s[i], f) + Range(s, i + 1, end, f)
  }

  lemma {:induction false} RangeSame(s: seq<Pte>, t: seq<Pte>, i: int, end: int, f: int)
    requires 0 <= i && end <= |s| && end <= |t| && forall j :: i <= j < end ==> s[j] == t[j]
    ensures Range(s, i, end, f) == Range(t, i, end, f)
    decreases end - i
  {
    if i < end {
      RangeSame(s, t, i + 1, end, f);
    }
  }

  lemma {:induction false} RangeLast(s: seq<Pte>, i: int, end: int, f: int)
    requires 0 <= i < end <= |s|
    ensures Range(s, i, end, f) == Range(s, i, end - 1, f) + Held(s[end - 1], f)
    decreases end - i
  {
    hide Held;
    if i < end - 1 {
      RangeLast(s, i + 1, end, f);
    }
  }

  lemma {:induction false} RangeBlank(s: seq<Pte>, i: int, end: int, f: int)
    requires 0 <= i && end <= |s| && forall j :: i <= j < end ==> !s[j].valid
    ensures Range(s, i, end, f) == 0
    decreases end - i
  {
    if i < end {
      RangeBlank(s, i + 1, end, f);
    }
  }

  /** A growing break that succeeds loses exactly the frames its range still held. */
  lemma {:induction false} MapUpUses(m: Mem, p: int, i: int, end: int, f: int)
    requires 0 <= i && 0 <= p < |m.spaces| && end <= |m.spaces[p].upt|
    ensures MapUp(m, p, i, end).ok ==>
              Uses(MapUp(m, p, i, end).m, f) == Uses(m, f) - Range(m.spaces[p].upt, i, end, f)
    ensures Uses(m, f) - Range(m.spaces[p].upt, i, end, f) <= Uses(MapUp(m, p, i, end).m, f) <= Uses(m, f)
    decreases end - i
  {
    hide Uses, Held;
    if i < end && m.free != [] {
      var m1 := MapUser(m, p, i, READ_WRITE);
      MapUserUses(m, p, i, READ_WRITE, f);
      MapUpUses(m1, p, i + 1, end, f);
      RangeSame(m.spaces[p].upt, m1.spaces[p].upt, i + 1, end, f);
    }
  }

  lemma {:induction false} MapDownUses(m: Mem, p: int, i: int, end: int, f: int)
    requires -1 <= end <= i && 0 <= p < |m.spaces| && i < |m.spaces[p].upt| && |m.free| >= i - end
    ensures Uses(MapDown(m, p, i, end), f) == Uses(m, f) - Range(m.spaces[p].upt, end + 1, i + 1, f)
    decreases i - end
  {
    hide Uses, Held;
    if i > end {
      var m1 := MapUser(m, p, i, READ_WRITE);
      MapUserUses(m, p, i, READ_WRITE, f);
      MapDownUses(m1, p, i - 1, end, f);
      RangeSame(m.spaces[p].upt, m1.spaces[p].upt, end + 1, i, f);
      RangeLast(m.spaces[p].upt, end + 1, i + 1, f);
    }
  }

  lemma {:induction false} FreeUserUses(m: Mem, p: int, i: nat, f: int)
    requires 0 <= p < |m.spaces| && |m.spaces[p].upt| == TABLE && i <= TABLE
    ensures Uses(FreeUserFrom(m, p, i), f) == Uses(m, f)
    decreases TABLE - i
  {
    hide Uses;
    if i < TABLE {
      UnmapUserUses(m, p, i, f);
      FreeUserUses(UnmapUser(m, p, i), p, i + 1, f);
    }
  }

  /** Freeing from entry i on: those entries are invalid, the earlier ones as they were. */
  lemma {:induction false} FreeUserTable(m: Mem, p: int, i: nat, j: nat)
    requires 0 <= p < |m.spaces| && |m.spaces[p].upt| == TABLE && i <= TABLE && j < TABLE
    ensures var x := FreeUserFrom(m, p, i).spaces[p].upt[j];
            if j >= i then !x.valid else x == m.spaces[p].upt[j]
    decreases TABLE - i
  {
    if i < TABLE {
      FreeUserTable(UnmapUser(m, p, i), p, i + 1, j);
    }
  }

  lemma {:induction false} ProtectUses(m: Mem, p: int, i: int, end: int, f: int)
    requires 0 <= i && 0 <= p < |m.spaces| && end <= |m.spaces[p].upt|
    ensures Uses(Protect(m, p, i, end), f) == Uses(m, f)
    ensures forall j :: 0 <= j < |m.spaces[p].upt| ==>
              && Protect(m, p, i, end).spaces[p].upt[j].valid == m.spaces[p].upt[j].valid
              && Protect(m, p, i, end).spaces[p].upt[j].pfn == m.spaces[p].upt[j].pfn
    decreases end - i
  {
    hide Uses;
    if i < end {
      var x := m.spaces[p].upt[i];
      SetUserUses(m, p, i, x.(prot := READ_EXEC), f);
      ProtectUses(SetUser(m, p, i, x.(prot := READ_EXEC)), p, i + 1, end, f);
    }
  }

  lemma {:induction false} MapKernelUpUses(m: Mem, i: int, end: int, f: int)
    requires 0 <= i && end <= |m.kpt|
    ensures Uses(MapKernelUp(m, i, end).m, f) <= Uses(m, f)
    ensures (forall j :: i <= j < end ==> !m.kpt[j].valid) ==> Uses(MapKernelUp(m, i, end).m, f) == Uses(m, f)
    decreases end - i
  {
    hide Uses;
    if i < end && m.free != [] {
      MapKernelUses(m, i, f);
      MapKernelUpUses(MapKernel(m, i), i + 1, end, f);
    }
  }

  lemma {:induction false} MapUpTable(m: Mem, p: int, i: int, end: int, j: int)
    requires 0 <= i && 0 <= p < |m.spaces| && end <= |m.spaces[p].upt| && 0 <= j < |m.spaces[p].upt|
    ensures j < i || j >= end ==> MapUp(m, p, i, end).m.spaces[p].upt[j] == m.spaces[p].upt[j]
    ensures MapUp(m, p, i, end).ok && i <= j < end ==>
              MapUp(m, p, i, end).m.spaces[p].upt[j].valid && MapUp(m, p, i, end).m.spaces[p].upt[j].prot == READ_WRITE
    decreases end - i
  {
    if i < end && m.free != [] {
      MapUpTable(MapUser(m, p, i, READ_WRITE), p, i + 1, end, j);
    }
  }

  lemma {:induction false} MapUpFree(m: Mem, p: int, i: int, end: int)
    requires 0 <= i <= end && 0 <= p < |m.spaces| && end <= |m.spaces[p].upt|
    ensures MapUp(m, p, i, end).ok <==> |m.free| >= end - i
    ensures MapUp(m, p, i, end).ok ==> |MapUp(m, p, i, end).m.free| == |m.free| - (end - i)
    decreases end - i
  {
    if i < end && m.free != [] {
      MapUpFree(MapUser(m, p, i, READ_WRITE), p, i + 1, end);
    }
  }

  lemma {:induction false} MapDownTable(m: Mem, p: int, i: int, end: int, j: int)
    requires -1 <= end && 0 <= p < |m.spaces| && i < |m.spaces[p].upt| && 0 <= j < |m.spaces[p].upt|
    ensures j > i || j <= end ==> MapDown(m, p, i, end).spaces[p].upt[j] == m.spaces[p].upt[j]
    ensures end < j <= i ==> MapDown(m, p, i, end).spaces[p].upt[j].valid && MapDown(m, p, i, end).spaces[p].upt[j].prot == READ_WRITE
    decreases i - end
  {
    if i > end {
      MapDownTable(MapUser(m, p, i, READ_WRITE), p, i - 1, end, j);
    }
  }

  // ----- one owner ---------------------------------------------------------------------------

  lemma {:induction false} HeldInTable(s: seq<Pte>, i: nat)
    requires i < |s| && s[i].valid
    ensures HeldIn(s, s[i].pfn) >= 1
  {
    if i > 0 {
      HeldInTable(s[1..], i - 1);
    }
  }

  lemma {:induction false} TwiceInTable(s: seq<Pte>, i: nat, j: nat)
    requires i < j < |s| && s[i].valid && s[j].valid && s[i].pfn == s[j].pfn
    ensures HeldIn(s, s[i].pfn) >= 2
  {
    if i == 0 {
      HeldInTable(s[1..], j - 1);
    } else {
      TwiceInTable(s[1..], i - 1, j - 1);
    }
  }

  lemma {:induction false} SpaceInSpaces(s: seq<Space>, p: nat, f: int)
    requires p < |s|
    ensures InSpace(s[p], f) <= InSpaces(s, f)
  {
    hide InSpace;
    if p > 0 {
      SpaceInSpaces(s[1..], p - 1, f);
    }
  }

  lemma {:induction false} TwoSpaces(s: seq<Space>, p: nat, q: nat, f: int)
    requires p < q < |s|
    ensures InSpace(s[p], f) + InSpace(s[q], f) <= InSpaces(s, f)
  {
    hide InSpace;
    if p == 0 {
      SpaceInSpaces(s[1..], q - 1, f);
    } else {
      TwoSpaces(s[1..], p - 1, q - 1, f);
    }
  }

  /** Where a frame can be mapped. */
  datatype Owner = KernelPage(i: int) | InitialStack(i: int) | UserPage(p: int, i: int) | StackPage(p: int, i: int)

  ghost predicate Owns(m: Mem, o: Owner, f: int) {
    match o
    case KernelPage(i) => 0 <= i < |m.kpt| && m.kpt[i].valid && m.kpt[i].pfn == f
    case InitialStack(i) => 0 <= i < |m.initial| && m.initial[i].valid && m.initial[i].pfn == f
    case UserPage(p, i) => HasUser(m, p, i) && m.spaces[p].upt[i].valid && m.spaces[p].upt[i].pfn == f
    case StackPage(p, i) => HasStack(m, p, i) && m.spaces[p].kst[i].valid && m.spaces[p].kst[i].pfn == f
  }

  lemma OwnerInSpace(m: Mem, o: Owner, f: int)
    requires Owns(m, o, f) && (o.UserPage? || o.StackPage?)
    ensures 1 <= InSpace(m.spaces[o.p], f) <= InSpaces(m.spaces, f)
  {
    SpaceInSpaces(m.spaces, o.p, f);
    if o.UserPage? {
      HeldInTable(m.spaces[o.p].upt, o.i);
    } else {
      HeldInTable(m.spaces[o.p].kst, o.i);
    }
  }

  /** A mapped frame is not free. */
  lemma OwnedNotFree(m: Mem, o: Owner, f: int)
    requires Exclusive(m) && Owns(m, o, f)
    ensures f !in m.free
  {
    hide HeldIn, InSpaces, InSpace;
    match o {
      case KernelPage(i) => HeldInTable(m.kpt, i);
      case InitialStack(i) => HeldInTable(m.initial, i);
      case UserPage(_, _) => OwnerInSpace(m, o, f);
      case StackPage(_, _) => OwnerInSpace(m, o, f);
    }
    assert Uses(m, f) <= 1;
    assert f in m.free ==> f in multiset(m.free);
  }

  /** No frame has two owners. */
  lemma OneOwner(m: Mem, o: Owner, o': Owner, f: int)
    requires Exclusive(m) && Owns(m, o, f) && Owns(m, o', f)
    ensures o == o'
  {
    hide HeldIn, InSpaces, InSpace;
    assert Uses(m, f) <= 1;
    if o.KernelPage? { HeldInTable(m.kpt, o.i); }
    if o'.KernelPage? { HeldInTable(m.kpt, o'.i); }
    if o.InitialStack? { HeldInTable(m.initial, o.i); }
    if o'.InitialStack? { HeldInTable(m.initial, o'.i); }
    if o.UserPage? || o.StackPage? { OwnerInSpace(m, o, f); }
    if o'.UserPage? || o'.StackPage? { OwnerInSpace(m, o', f); }
    SameTable(m, o, o', f);
  }

  lemma SameTable(m: Mem, o: Owner, o': Owner, f: int)
    requires Uses(m, f) <= 1 && Owns(m, o, f) && Owns(m, o', f)
    ensures o.KernelPage? && o'.KernelPage? ==> o == o'
    ensures o.InitialStack? && o'.InitialStack? ==> o == o'
    ensures (o.UserPage? || o.StackPage?) && (o'.UserPage? || o'.StackPage?) ==> o == o'
  {
    hide HeldIn, InSpaces, InSpace;
    if o.KernelPage? && o'.KernelPage? {
      TwiceAnyOrder(m.kpt, o.i, o'.i);
    } else if o.InitialStack? && o'.InitialStack? {
      TwiceAnyOrder(m.initial, o.i, o'.i);
    } else if (o.UserPage? || o.StackPage?) && (o'.UserPage? || o'.StackPage?) {
      OwnerInSpace(m, o, f);
      OwnerInSpace(m, o', f);
      if o.p < o'.p {
        TwoSpaces(m.spaces, o.p, o'.p, f);
      } else if o'.p < o.p {
        TwoSpaces(m.spaces, o'.p, o.p, f);
      } else {
        SameSpace(m.spaces[o.p], o, o', f);
      }
    }
  }

  lemma TwiceAnyOrder(s: seq<Pte>, i: int, j: int)
    requires 0 <= i < |s| && 0 <= j < |s| && s[i].valid && s[j].valid && s[i].pfn == s[j].pfn
    ensures i == j || HeldIn(s, s[i].pfn) >= 2
  {
    hide HeldIn;
    if i < j {
      TwiceInTable(s, i, j);
    } else if j < i {
      TwiceInTable(s, j, i);
    }
  }

  lemma SameSpace(x: Space, o: Owner, o': Owner, f: int)
    requires (o.UserPage? || o.StackPage?) && (o'.UserPage? || o'.StackPage?) && o.p == o'.p
    requires InSpace(x, f) <= 1
    requires o.UserPage? ==> 0 <= o.i < |x.upt| && x.upt[o.i].valid && x.upt[o.i].pfn == f
    requires o'.UserPage? ==> 0 <= o'.i < |x.upt| && x.upt[o'.i].valid && x.upt[o'.i].pfn == f
    requires o.StackPage? ==> 0 <= o.i < |x.kst| && x.kst[o.i].valid && x.kst[o.i].pfn == f
    requires o'.StackPage? ==> 0 <= o'.i < |x.kst| && x.kst[o'.i].valid && x.kst[o'.i].pfn == f
    ensures o == o'
  {
    hide HeldIn;
    if o.UserPage? && o'.UserPage? {
      TwiceAnyOrder(x.upt, o.i, o'.i);
    } else if o.StackPage? && o'.StackPage? {
      TwiceAnyOrder(x.kst, o.i, o'.i);
    } else {
      HeldInTable(x.upt, if o.UserPage? then o.i else o'.i);
      HeldInTable(x.kst, if o.StackPage? then o.i else o'.i);
    }
  }
}
