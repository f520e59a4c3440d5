/**
 The linked list with a dummy head on which every queue of the kernel is built: heap nodes, changed
 in place.  Locations count from 1.  Each operation is proved against an operation on sequences;
 the rest of the project uses those sequences.
 */
module LinkedList {
  import opened Constants

  class Node<T(0)> {
    var data: T
    var next: Node?<T>

    /** A zeroed allocation. */
    constructor ()
      ensures next == null
    {
      next := null;
    }
  }

  class List<T(0)> {
    var head: Node<T>
    var len: int
    ghost var spine: seq<Node<T>>
    ghost var contents: seq<T>

    constructor ()
      ensures Valid(this) && contents == [] && fresh(spine)
    {
      head := new Node<T>();
      len := 0;
      new;
      spine, contents := [head], [];
    }
  }

  ghost function Nodes<T(0)>(lst: List?<T>): seq<Node<T>>
    reads lst
  {
    if lst == null then [] else lst.spine
  }

  /** The spine runs from the dummy head along `next` to null, without a cycle; `len` counts the
      nodes after the head, and they hold the contents. */
  ghost predicate Valid<T(0)>(lst: List?<T>)
    reads lst, Nodes(lst)
  {
    lst != null ==>
      && |lst.spine| == lst.len + 1 == |lst.contents| + 1 && lst.spine[0] == lst.head
      && (forall i {:trigger lst.spine[i].next} :: 0 <= i <= lst.len ==>
            lst.spine[i].next == if i < lst.len then lst.spine[i + 1] else null)
      && (forall i {:trigger lst.spine[i].data} :: 1 <= i <= lst.len ==> lst.spine[i].data == lst.contents[i - 1])
  }

  /** Ending in null rules out cycles: two places of the spine never share a node, since they would
      stay together up to the end. */
  lemma {:induction false} Acyclic<T(0)>(lst: List<T>, i: int, j: int)
    requires Valid(lst) && 0 <= i < j <= lst.len
    ensures lst.spine[i] != lst.spine[j]
    decreases lst.len - j
  {
    assert lst.spine[i].next == lst.spine[i + 1];
    if j < lst.len {
      assert lst.spine[j].next == lst.spine[j + 1];
      Acyclic(lst, i + 1, j + 1);
    }
  }

  lemma OnlyOnce<T(0)>(lst: List<T>, k: int)
    requires Valid(lst) && 0 <= k <= lst.len
    ensures forall i :: 0 <= i <= lst.len && i != k ==> lst.spine[i] != lst.spine[k]
  {
    forall i | 0 <= i <= lst.len && i != k ensures lst.spine[i] != lst.spine[k] {
      if i < k { Acyclic(lst, i, k); } else { Acyclic(lst, k, i); }
    }
  }

  // ----- sequences ---------------------------------------------------------------------------

  predicate CanInsert<T>(s: seq<T>, location: int) { 1 <= location <= |s| + 1 }
  predicate CanRemove<T>(s: seq<T>, location: int) { 1 <= location <= |s| }

  /** Out of range, nothing happens. */
  function Inserted<T>(s: seq<T>, location: int, x: T): seq<T> {
    if CanInsert(s, location) then s[..location - 1] + [x] + s[location - 1..] else s
  }

  function Removed<T>(s: seq<T>, location: int): seq<T> {
    if CanRemove(s, location) then s[..location - 1] + s[location..] else s
  }

  lemma InsertedAt<T>(s: seq<T>, location: int, x: T)
    requires CanInsert(s, location)
    ensures |Inserted(s, location, x)| == |s| + 1
    ensures forall i {:trigger Inserted(s, location, x)[i]} :: 0 <= i <= |s| ==>
              Inserted(s, location, x)[i] == if i < location - 1 then s[i] else if i == location - 1 then x else s[i - 1]
  {
  }

  lemma RemovedAt<T>(s: seq<T>, location: int)
    requires CanRemove(s, location)
    ensures |Removed(s, location)| == |s| - 1
    ensures forall i {:trigger Removed(s, location)[i]} :: 0 <= i < |s| - 1 ==>
              Removed(s, location)[i] == if i < location - 1 then s[i] else s[i + 1]
  {
  }

  /** Removing what was inserted restores the list, and putting back what was removed does too. */
  lemma InsertRemoveUndo<T>(s: seq<T>, location: int, x: T)
    ensures CanInsert(s, location) ==> Removed(Inserted(s, location, x), location) == s
    ensures CanRemove(s, location) ==> Inserted(Removed(s, location), location, s[location - 1]) == s
  {
    if CanInsert(s, location) {
      assert Removed(Inserted(s, location, x), location) == s;
    }
    if CanRemove(s, location) {
      assert Inserted(Removed(s, location), location, s[location - 1]) == s;
    }
  }

  datatype Op<T> = Insert(location: int, data: T) | Remove(location: int)

  function Performed<T>(s: seq<T>, op: Op<T>): seq<T> {
    match op
    case Insert(k, x) => Inserted(s, k, x)
    case Remove(k) => Removed(s, k)
  }

  function PerformedAll<T>(s: seq<T>, ops: seq<Op<T>>): seq<T> {
    if ops == [] then s else Performed(PerformedAll(s, ops[..|ops| - 1]), ops[|ops| - 1])
  }

  lemma PerformedLast<T>(s: seq<T>, ops: seq<Op<T>>, op: Op<T>)
    ensures PerformedAll(s, ops + [op]) == Performed(PerformedAll(s, ops), op)
  {
    var all := ops + [op];
    assert all[..|all| - 1] == ops;
  }

  lemma InsertedLast<T>(s: seq<T>, x: T)
    ensures Inserted(s, |s| + 1, x) == s + [x]
  {
    assert s[..|s|] == s && s[|s|..] == [];
  }

  lemma EnqueueLast<T>(n: nat, xs: seq<T>)
    requires xs != []
    ensures Enqueue(n, xs) == Enqueue(n, xs[..|xs| - 1]) + [Insert(n + |xs|, xs[|xs| - 1])]
  {
  }

  /** A list used as a queue: insertions at `len + 1`, one after the other, append in order. */
  lemma {:induction false} InsertsAppend<T>(s: seq<T>, xs: seq<T>)
    ensures PerformedAll(s, Enqueue(|s|, xs)) == s + xs
    decreases |xs|
  {
    hide PerformedAll, Inserted, Enqueue;
    if xs == [] {
      NothingPerformed(s);
    } else {
      var init, x := xs[..|xs| - 1], xs[|xs| - 1];
      InsertsAppend(s, init);
      EnqueueLast(|s|, xs);
      PerformedLast(s, Enqueue(|s|, init), Insert(|s| + |xs|, x));
      InsertedLast(s + init, x);
      assert s + init + [x] == s + xs;
    }
  }

  lemma NothingPerformed<T>(s: seq<T>)
    ensures PerformedAll(s, Enqueue(|s|, [])) == s + []
  {
    assert Enqueue<T>(|s|, []) == [] && s + [] == s;
  }

  /** `list_insert(q, q->len + 1, x)`, once for every element. */
  function Enqueue<T>(n: nat, xs: seq<T>): seq<Op<T>> {
    seq(|xs|, i requires 0 <= i < |xs| => Insert(n + i + 1, xs[i]))
  }

  /** `list_remove(q, 1)`, n times. */
  function Dequeue<T>(n: nat): seq<Op<T>> {
    seq(n, i => Remove(1))
  }

  /** ... and removals at location 1 take the elements that came first. */
  lemma {:induction false} RemovesDropFirst<T>(s: seq<T>, n: nat)
    requires n <= |s|
    ensures PerformedAll(s, Dequeue(n)) == s[n..]
  {
    if n > 0 {
      RemovesDropFirst(s, n - 1);
      var ops := Dequeue<T>(n);
      assert ops[..n - 1] == Dequeue(n - 1);
      assert Removed(s[n - 1..], 1) == s[n..];
    }
  }

  // ----- the code ------------------------------------------------------------------------------

  /** Follow `next` from the head. */
  method Walk<T(0)>(lst: List<T>, steps: int) returns (curr: Node<T>)
    requires Valid(lst) && 0 <= steps <= lst.len
    ensures curr == lst.spine[steps]
  {
    curr := lst.head;
    var i := 0;
    while i < steps
      invariant 0 <= i <= steps && curr == lst.spine[i]
    {
      curr := curr.next;
      i := i + 1;
    }
  }

  method ListInsert<T(0)>(lst: List?<T>, location: int, data: T) returns (r: int)
    requires Valid(lst)
    modifies lst, Nodes(lst)
    ensures Valid(lst) && (forall i :: 0 <= i < |Nodes(lst)| ==> Nodes(lst)[i] in old(Nodes(lst)) || fresh(Nodes(lst)[i]))
    ensures lst != null ==> lst.contents == Inserted(old(lst.contents), location, data)
    ensures r == if lst != null && CanInsert(old(lst.contents), location) then 0 else ERROR
  {
    if lst == null {
      return ERROR;
    }
    if location > lst.len + 1 || location < 1 {
      return ERROR;
    }
    var n := Splice(lst, location, data);
    InsertedAt(old(lst.spine), location + 1, n);
    return 0;
  }

  method Splice<T(0)>(lst: List<T>, location: int, data: T) returns (n: Node<T>)
    requires Valid(lst) && CanInsert(lst.contents, location)
    modifies lst, lst.spine
    ensures Valid(lst) && lst.contents == Inserted(old(lst.contents), location, data)
    ensures fresh(n) && lst.spine == Inserted(old(lst.spine), location + 1, n)
  {
    hide Inserted;
    ghost var spine, len := lst.spine, lst.len;
    OnlyOnce(lst, location - 1);
    n := new Node<T>();
    var curr := Walk(lst, location - 1);
    var tmp := curr.next;
    curr.next := n;
    n.data := data;
    n.next := tmp;
    lst.len := lst.len + 1;
    assert forall i {:trigger spine[i].next} :: 0 <= i <= len && i != location - 1 ==>
        spine[i].next == if i < len then spine[i + 1] else null;
    InsertedAt(lst.contents, location, data);
    InsertedAt(lst.spine, location + 1, n);
    lst.contents := Inserted(lst.contents, location, data);
    lst.spine := Inserted(lst.spine, location + 1, n);
  }

  /** The node removed is handed to the caller, with its data. */
  method ListRemove<T(0)>(lst: List?<T>, location: int) returns (r: Node?<T>)
    requires Valid(lst)
    modifies lst, Nodes(lst)
    ensures Valid(lst) && (forall i :: 0 <= i < |Nodes(lst)| ==> Nodes(lst)[i] in old(Nodes(lst)))
    ensures lst != null ==> lst.contents == Removed(old(lst.contents), location)
    ensures r != null <==> lst != null && CanRemove(old(lst.contents), location)
    ensures r != null ==> r == old(lst.spine)[location] && r.data == old(lst.contents)[location - 1] && r !in Nodes(lst)
  {
    if lst == null {
      return null;
    }
    if location > lst.len || location < 1 {
      return null;
    }
    hide Removed;
    var curr := Walk(lst, location - 1);
    var tmp := curr.next;
    OnlyOnce(lst, location - 1);
    OnlyOnce(lst, location);
    RemovedAt(lst.contents, location);
    RemovedAt(lst.spine, location + 1);
    curr.next := tmp.next;
    lst.len := lst.len - 1;
    lst.contents := Removed(lst.contents, location);
    lst.spine := Removed(lst.spine, location + 1);
    return tmp;
  }

  method ListIndex<T(0)>(lst: List?<T>, location: int) returns (r: Node?<T>)
    requires Valid(lst)
    ensures r != null <==> lst != null && CanRemove(lst.contents, location)
    ensures r != null ==> r == lst.spine[location] && r.data == lst.contents[location - 1]
  {
    if lst == null {
      return null;
    }
    if location > lst.len || location < 1 {
      return null;
    }
    r := Walk(lst, location);
  }

  /** Every node of the list is freed, the dummy head first, and none twice; the list cannot be
      used afterwards. */
  method ListDelete<T(0)>(lst: List?<T>) returns (r: int, freed: seq<Node<T>>)
    requires Valid(lst)
    modifies lst
    ensures lst == null ==> r == -1 && freed == []
    ensures lst != null ==> r == 0 && lst.len == 0
    ensures lst != null ==> freed == old(lst.spine) && forall i, j :: 0 <= i < j < |freed| ==> freed[i] != freed[j]
  {
    freed := [];
    if lst == null {
      return -1, freed;
    }
    forall i, j | 0 <= i < j <= lst.len ensures lst.spine[i] != lst.spine[j] {
      Acyclic(lst, i, j);
    }
    var nxt: Node?<T> := lst.head;
    var i := 0;
    while i < lst.len + 1
      invariant 0 <= i <= lst.len + 1 && freed == lst.spine[..i]
      invariant nxt == if i <= lst.len then lst.spine[i] else null
    {
      var curr := nxt;
      nxt := nxt.next;
      freed := freed + [curr];
      i := i + 1;
    }
    lst.len := 0;
    r := 0;
  }

  /** Any sequence of insertions and removals, in range or not, keeps the list well formed. */
  method PerformAll<T(0)>(lst: List<T>, ops: seq<Op<T>>)
    requires Valid(lst)
    modifies lst, Nodes(lst)
    ensures Valid(lst) && lst.contents == PerformedAll(old(lst.contents), ops)
    ensures (forall i :: 0 <= i < |Nodes(lst)| ==> Nodes(lst)[i] in old(Nodes(lst)) || fresh(Nodes(lst)[i]))
  {
    var i := 0;
    while i < |ops|
      invariant 0 <= i <= |ops| && Valid(lst) && lst.contents == PerformedAll(old(lst.contents), ops[..i])
      invariant (forall i :: 0 <= i < |Nodes(lst)| ==> Nodes(lst)[i] in old(Nodes(lst)) || fresh(Nodes(lst)[i]))
    {
      assert ops[..i + 1][..i] == ops[..i];
      match ops[i] {
        case Insert(k, x) =>
          var _ := ListInsert(lst, k, x);
        case Remove(k) =>
          var _ := ListRemove(lst, k);
      }
      i := i + 1;
    }
    assert ops[..i] == ops;
  }
}
