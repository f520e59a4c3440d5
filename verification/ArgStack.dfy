/**
 The argument block that `load_program` builds at the top of a new program's stack: argc, the
 argv pointers with their terminating NULLs, and the strings.  Reading the block back, as the
 new program does, gives exactly the original arguments, and the block stays inside the stack
 pages that the load maps.
 */
module ArgStack {
  import opened Constants

  const WORD: int := 4
  const POST_ARGV_NULL_SPACE: int := 0x20

  /** A C string: bytes without a zero. */
  ghost predicate IsString(s: seq<int>) {
    forall i :: 0 <= i < |s| ==> 0 < s[i] < 256
  }

  ghost predicate AreStrings(args: seq<seq<int>>) {
    forall i :: 0 <= i < |args| ==> IsString(args[i])
  }

  // ----- sizes and addresses ----------------------------------------------------------------

  /** Bytes the strings take, terminators included. */
  function Size(args: seq<seq<int>>): nat {
    if args == [] then 0 else Size(args[..|args| - 1]) + |args[|args| - 1]| + 1
  }

  function StringsAt(args: seq<seq<int>>): int { VMEM_1_LIMIT - Size(args) }

  /** Where the pointer block starts: room for argc, argv, two NULLs and the null space below
      the strings, rounded down to a double word.  It is also the new stack pointer. */
  function BlockAt(args: seq<seq<int>>): int {
    var a := StringsAt(args) - (|args| + 3 + POST_ARGV_NULL_SPACE) * WORD;
    a - a % 8
  }

  function StackPages(args: seq<seq<int>>): int {
    (VMEM_1_LIMIT - BlockAt(args) / PAGESIZE * PAGESIZE) / PAGESIZE
  }

  /** The check that leaves a page between heap and stack. */
  predicate Accepted(args: seq<seq<int>>, dataPage: int, dataPages: int) {
    StackPages(args) + dataPage + dataPages < MAX_PT_LEN
  }

  /** Where the i-th string goes. */
  function StringAt(args: seq<seq<int>>, i: nat): int
    requires i <= |args|
  {
    StringsAt(args) + Size(args[..i])
  }

  function SlotAt(args: seq<seq<int>>, i: nat): int {
    BlockAt(args) + WORD * (i + 1)
  }

  /** An accepted load keeps the block inside the stack pages, and the heap below the stack. */
  lemma AcceptedFits(args: seq<seq<int>>, dataPage: int, dataPages: int)
    requires Accepted(args, dataPage, dataPages) && 0 <= dataPage && 0 <= dataPages
    ensures VMEM_1_BASE <= VMEM_1_LIMIT - StackPages(args) * PAGESIZE <= BlockAt(args)
    ensures BlockAt(args) % 8 == 0
    ensures dataPage + dataPages <= MAX_PT_LEN - 1 - StackPages(args)
  {
    var b := BlockAt(args);
    assert b == PAGESIZE * (b / PAGESIZE) + b % PAGESIZE;
    assert StackPages(args) == (VMEM_1_LIMIT / PAGESIZE) - b / PAGESIZE;
  }

  /** The pointer block ends below the first string. */
  lemma BlockBelowStrings(args: seq<seq<int>>)
    ensures BlockAt(args) + WORD * (|args| + 3) <= StringsAt(args) <= VMEM_1_LIMIT
  {
  }

  lemma SizeStep(args: seq<seq<int>>, i: nat)
    requires i < |args|
    ensures Size(args[..i + 1]) == Size(args[..i]) + |args[i]| + 1
  {
    var a := args[..i + 1];
    assert a[..|a| - 1] == args[..i];
  }

  lemma {:induction false} SizeGrows(args: seq<seq<int>>, i: nat, j: nat)
    requires i <= j <= |args|
    ensures Size(args[..i]) <= Size(args[..j])
    decreases j
  {
    if i < j {
      SizeGrows(args, i, j - 1);
      SizeStep(args, j - 1);
    }
  }

  /** Strings follow each other without overlap, up to the limit. */
  lemma StringsInOrder(args: seq<seq<int>>, i: nat, j: nat)
    requires i < j <= |args|
    ensures StringsAt(args) <= StringAt(args, i)
    ensures StringAt(args, i) + |args[i]| + 1 <= StringAt(args, j) <= VMEM_1_LIMIT
  {
    SizeStep(args, i);
    SizeGrows(args, i + 1, j);
    SizeGrows(args, j, |args|);
    assert args[..|args|] == args;
  }

  /** The strings stand one behind the other, each with one byte for its terminator, and end at the limit. */
  lemma StringsTile(args: seq<seq<int>>, i: nat)
    requires i < |args|
    ensures StringAt(args, i + 1) == StringAt(args, i) + |args[i]| + 1
    ensures StringAt(args, 0) == StringsAt(args) && StringAt(args, |args|) == VMEM_1_LIMIT
  {
    SizeStep(args, i);
    assert args[..|args|] == args;
  }

  /** The block starts at the highest double word that leaves room below the strings for argc, the pointers, two NULLs and the
      32 words of zeros. */
  lemma BlockExact(args: seq<seq<int>>)
    ensures BlockAt(args) % 8 == 0
    ensures BlockAt(args) + 4 * (|args| + 3 + 32) <= StringsAt(args) < BlockAt(args) + 4 * (|args| + 3 + 32) + 8
  {
  }

  /** A load is accepted if and only if the pages of the stack, those that hold the block and everything above it, leave
      a page between themselves and the data. */
  lemma AcceptedIff(args: seq<seq<int>>, dataPage: nat, dataPages: nat, first: int)
    requires VMEM_1_BASE + PAGESIZE * first <= BlockAt(args) < VMEM_1_BASE + PAGESIZE * (first + 1)
    ensures Accepted(args, dataPage, dataPages) <==> dataPage + dataPages < first
    ensures StackPages(args) == 128 - first
  {
    hide BlockAt;
    assert BlockAt(args) / PAGESIZE == 128 + first;
  }

  // ----- words and strings in memory ----------------------------------------------------------

  function ByteOf(v: int, k: int): int
    requires 0 <= k < 4
  {
    if k == 0 then v % 256 else if k == 1 then v / 256 % 256 else if k == 2 then v / 65536 % 256 else v / 16777216 % 256
  }

  predicate WordAt(m: seq<int>, a: int, v: int) {
    && 0 <= a && a + WORD <= |m|
    && m[a] == ByteOf(v, 0) && m[a + 1] == ByteOf(v, 1) && m[a + 2] == ByteOf(v, 2) && m[a + 3] == ByteOf(v, 3)
  }

  ghost predicate StrAt(m: seq<int>, a: int, s: seq<int>) {
    && 0 <= a && a + |s| + 1 <= |m|
    && (forall k :: 0 <= k < |s| ==> m[a + k] == s[k])
    && m[a + |s|] == 0
  }

  /** What the new program sees at an address: a 32-bit little-endian word ... */
  function ReadWord(m: seq<int>, a: int): int {
    if 0 <= a && a + WORD <= |m| then m[a] + 256 * m[a + 1] + 65536 * m[a + 2] + 16777216 * m[a + 3] else 0
  }

  /** ... or the bytes up to the next zero. */
  function ReadStr(m: seq<int>, a: int): seq<int>
    decreases |m| - a
  {
    if a < 0 || a >= |m| || m[a] == 0 then [] else [m[a]] + ReadStr(m, a + 1)
  }

  lemma WordReadsBack(m: seq<int>, a: int, v: int)
    requires WordAt(m, a, v) && 0 <= v < 0x1_0000_0000
    ensures ReadWord(m, a) == v
  {
    var q1 := v / 256;
    var q2 := q1 / 256;
    var q3 := q2 / 256;
    assert v / 65536 == q2 && v / 16777216 == q3;
    assert q3 % 256 == q3;
  }

  lemma {:induction false} StrReadsBack(m: seq<int>, a: int, s: seq<int>)
    requires StrAt(m, a, s) && IsString(s)
    ensures ReadStr(m, a) == s
    decreases |s|
  {
    if s != [] {
      assert m[a] == s[0];
      assert forall k :: 0 <= k < |s[1..]| ==> s[1..][k] == s[k + 1] && m[a + 1 + k] == s[k + 1];
      StrReadsBack(m, a + 1, s[1..]);
    }
  }

  // ----- the block --------------------------------------------------------------------------------

  /** The first n pointers and strings are in place. */
  ghost predicate Filled(m: seq<int>, args: seq<seq<int>>, n: nat)
    requires n <= |args|
  {
    forall i :: 0 <= i < n ==> WordAt(m, SlotAt(args, i), StringAt(args, i)) && StrAt(m, StringAt(args, i), args[i])
  }

  /** The whole block: argc, argv, NULL, NULL for the environment, zeros, the strings. */
  ghost predicate Layout(m: seq<int>, args: seq<seq<int>>) {
    && |m| == VMEM_1_LIMIT
    && WordAt(m, BlockAt(args), |args|)
    && Filled(m, args, |args|)
    && WordAt(m, SlotAt(args, |args|), 0) && WordAt(m, SlotAt(args, |args| + 1), 0)
    && (forall a :: 0 <= a && SlotAt(args, |args| + 2) <= a < StringsAt(args) ==> m[a] == 0)
  }

  /** argc and argv as a C program reads them from its stack pointer. */
  function ReadArgs(m: seq<int>, sp: int): seq<seq<int>> {
    var argc := ReadWord(m, sp);
    if argc < 0 then [] else seq(argc, i requires 0 <= i => ReadStr(m, ReadWord(m, sp + WORD * (i + 1))))
  }

  /** The round trip: the program finds exactly the arguments it was given. */
  lemma ArgumentsReadBack(m: seq<int>, args: seq<seq<int>>)
    requires Layout(m, args) && AreStrings(args) && 0 <= BlockAt(args)
    ensures ReadArgs(m, BlockAt(args)) == args
    ensures ReadWord(m, SlotAt(args, |args|)) == 0 && ReadWord(m, SlotAt(args, |args| + 1)) == 0
  {
    hide BlockAt, WordAt, ReadWord, ReadStr, StrAt;
    BlockBelowStrings(args);
    WordReadsBack(m, BlockAt(args), |args|);
    WordReadsBack(m, SlotAt(args, |args|), 0);
    WordReadsBack(m, SlotAt(args, |args| + 1), 0);
    forall i | 0 <= i < |args| ensures ReadStr(m, ReadWord(m, SlotAt(args, i))) == args[i] {
      StringsInOrder(args, i, |args|);
      WordReadsBack(m, SlotAt(args, i), StringAt(args, i));
      StrReadsBack(m, StringAt(args, i), args[i]);
    }
  }

  // ----- the code -------------------------------------------------------------------------------------

  /** All strings one after the other, each with its terminator. */
  function Flat(args: seq<seq<int>>): (s: seq<int>)
    ensures |s| == Size(args)
  {
    if args == [] then [] else Flat(args[..|args| - 1]) + args[|args| - 1] + [0]
  }

  /** Copy the arguments to a kernel buffer, before region 1 goes away. */
  method SaveArgs(args: seq<seq<int>>) returns (buf: seq<int>)
    ensures buf == Flat(args)
  {
    buf := [];
    var i := 0;
    while i < |args|
      invariant 0 <= i <= |args| && buf == Flat(args[..i])
    {
      assert args[..i + 1][..i] == args[..i];
      buf := buf + args[i] + [0];
      i := i + 1;
    }
    assert args[..i] == args;
  }

  lemma {:induction false} FlatHolds(args: seq<seq<int>>, i: nat)
    requires i < |args|
    ensures StrAt(Flat(args), Size(args[..i]), args[i])
  {
    var n := |args| - 1;
    var init := args[..n];
    if i < n {
      FlatHolds(init, i);
      assert init[..i] == args[..i];
      SizeStep(args, i);
      SizeGrows(args, i + 1, n);
    } else {
      assert args[..n] == init;
    }
  }

  method StoreWord(mem: array<int>, a: int, v: int)
    requires 0 <= a && a + WORD <= mem.Length
    modifies mem
    ensures WordAt(mem[..], a, v)
    ensures forall k :: 0 <= k < mem.Length && !(a <= k < a + WORD) ==> mem[k] == old(mem[k])
  {
    mem[a] := ByteOf(v, 0);
    mem[a + 1] := ByteOf(v, 1);
    mem[a + 2] := ByteOf(v, 2);
    mem[a + 3] := ByteOf(v, 3);
  }

  /** strcpy from the kernel buffer, terminator included; the length is what strlen finds. */
  method CopyString(mem: array<int>, dst: int, buf: seq<int>, src: int, ghost s: seq<int>) returns (n: int)
    requires StrAt(buf, src, s) && IsString(s) && 0 <= dst && dst + |s| + 1 <= mem.Length
    modifies mem
    ensures n == |s| && StrAt(mem[..], dst, s)
    ensures forall k :: 0 <= k < mem.Length && !(dst <= k < dst + |s| + 1) ==> mem[k] == old(mem[k])
  {
    n := 0;
    while buf[src + n] != 0
      invariant 0 <= n <= |s| && (n < |s| ==> buf[src + n] == s[n])
      invariant forall k :: 0 <= k < n ==> mem[dst + k] == s[k]
      invariant forall k :: 0 <= k < mem.Length && !(dst <= k < dst + n) ==> mem[k] == old(mem[k])
      decreases |s| - n
    {
      mem[dst + n] := buf[src + n];
      n := n + 1;
    }
    mem[dst + n] := 0;
  }

  method ClearFrom(mem: array<int>, a: int)
    requires 0 <= a <= mem.Length
    modifies mem
    ensures forall k :: 0 <= k < mem.Length ==> mem[k] == if k < a then old(mem[k]) else 0
  {
    var i := a;
    while i < mem.Length
      invariant a <= i <= mem.Length
      invariant forall k :: 0 <= k < mem.Length ==> mem[k] == if a <= k < i then 0 else old(mem[k])
    {
      mem[i] := 0;
      i := i + 1;
    }
  }

  /** Writing outside what is already filled in leaves it filled in. */
  lemma FilledKept(m: seq<int>, m': seq<int>, args: seq<seq<int>>, n: nat, lo: int, hi: int)
    requires n <= |args| && |m'| == |m| && Filled(m, args, n)
    requires forall k :: 0 <= k < |m| && !(lo <= k < hi) ==> m'[k] == m[k]
    requires (BlockAt(args) + WORD * (n + 1) <= lo && hi <= StringsAt(args)) || StringAt(args, n) <= lo
    ensures Filled(m', args, n)
  {
    hide BlockAt, ByteOf;
    BlockBelowStrings(args);
    forall i | 0 <= i < n
      ensures WordAt(m', SlotAt(args, i), StringAt(args, i)) && StrAt(m', StringAt(args, i), args[i])
    {
      StringsInOrder(args, i, n);
      assert WordAt(m, SlotAt(args, i), StringAt(args, i)) && StrAt(m, StringAt(args, i), args[i]);
      StringsStart(args, n);
    }
  }

  lemma StringsStart(args: seq<seq<int>>, n: nat)
    requires n <= |args|
    ensures StringsAt(args) <= StringAt(args, n) <= VMEM_1_LIMIT
  {
    SizeGrows(args, n, |args|);
    assert args[..|args|] == args;
  }

  /** One argument: its pointer, then its string. */
  method PutArgument(mem: array<int>, cp: int, cpp: int, buf: seq<int>, cp2: int, ghost args: seq<seq<int>>, ghost i: nat)
    returns (n: int)
    requires mem.Length == VMEM_1_LIMIT && AreStrings(args) && i < |args| && 0 <= BlockAt(args) && buf == Flat(args)
    requires cp == StringAt(args, i) && cpp == SlotAt(args, i) && cp2 == Size(args[..i])
    requires Filled(mem[..], args, i)
    modifies mem
    ensures n == |args[i]| && Filled(mem[..], args, i + 1)
    ensures forall k | 0 <= k < mem.Length && !(cpp <= k < cpp + WORD) && !(cp <= k < cp + n + 1) :: mem[k] == old(mem[k])
  {
    hide BlockAt, ByteOf, Flat, Filled, WordAt, StrAt;
    BlockBelowStrings(args);
    StringsInOrder(args, i, i + 1);
    StringsStart(args, i + 1);
    FlatHolds(args, i);
    ghost var m0 := mem[..];
    StoreWord(mem, cpp, cp);
    ghost var m1 := mem[..];
    FilledKept(m0, m1, args, i, cpp, cpp + WORD);
    n := CopyString(mem, cp, buf, cp2, args[i]);
    FilledKept(m1, mem[..], args, i, cp, cp + n + 1);
    WordKept(m1, mem[..], cpp, cp, StringsAt(args));
    FilledMore(mem[..], args, i);
  }

  lemma WordKept(m: seq<int>, m': seq<int>, a: int, v: int, from: int)
    requires WordAt(m, a, v) && |m'| == |m| && a + WORD <= from
    requires forall k :: 0 <= k < |m| && k < from ==> m'[k] == m[k]
    ensures WordAt(m', a, v)
  {
  }

  lemma FilledMore(m: seq<int>, args: seq<seq<int>>, i: nat)
    requires i < |args| && Filled(m, args, i)
    requires WordAt(m, SlotAt(args, i), StringAt(args, i)) && StrAt(m, StringAt(args, i), args[i])
    ensures Filled(m, args, i + 1)
  {
  }

  /** The sizes and the check before anything of the old program is given up. */
  method PlanStack(args: seq<seq<int>>, dataPage: int, dataPages: int) returns (ok: bool, cp: int, cpp: int)
    ensures cp == StringsAt(args) && cpp == BlockAt(args) && ok == Accepted(args, dataPage, dataPages)
  {
    var size, i := 0, 0;
    while i < |args|
      invariant 0 <= i <= |args| && size == Size(args[..i])
    {
      SizeStep(args, i);
      size := size + |args[i]| + 1;
      i := i + 1;
    }
    assert args[..i] == args;
    cp := VMEM_1_LIMIT - size;
    cpp := cp - (i + 3 + POST_ARGV_NULL_SPACE) * WORD;
    cpp := cpp - cpp % 8;
    ok := (VMEM_1_LIMIT - cpp / PAGESIZE * PAGESIZE) / PAGESIZE + dataPage + dataPages < MAX_PT_LEN;
  }

  /** The block with its first i arguments in place, the later pointers still zero. */
  ghost predicate Begun(m: seq<int>, args: seq<seq<int>>, i: nat)
    requires i <= |args|
  {
    && |m| == VMEM_1_LIMIT
    && WordAt(m, BlockAt(args), |args|) && Filled(m, args, i)
    && forall k :: 0 <= k && SlotAt(args, i) <= k < StringsAt(args) ==> m[k] == 0
  }

  lemma BegunMore(m: seq<int>, m': seq<int>, args: seq<seq<int>>, i: nat)
    requires i < |args| && 0 <= BlockAt(args) && Begun(m, args, i) && |m'| == |m| && Filled(m', args, i + 1)
    requires forall k | 0 <= k < |m| && !(SlotAt(args, i) <= k < SlotAt(args, i + 1))
                        && !(StringAt(args, i) <= k < StringAt(args, i + 1)) :: m'[k] == m[k]
    ensures Begun(m', args, i + 1) && forall k :: 0 <= k < BlockAt(args) ==> m'[k] == m[k]
  {
    hide BlockAt, ByteOf, StrAt, Filled, WordAt;
    BlockBelowStrings(args);
    StringsStart(args, i);
    WordKept(m, m', BlockAt(args), |args|, SlotAt(args, i));
  }

  /** Build the argument block; nothing below the new stack pointer is written. */
  method BuildArgs(mem: array<int>, argc: nat, strings: int, block: int, buf: seq<int>, ghost args: seq<seq<int>>)
    requires mem.Length == VMEM_1_LIMIT && AreStrings(args) && 0 <= BlockAt(args)
    requires argc == |args| && strings == StringsAt(args) && block == BlockAt(args) && buf == Flat(args)
    modifies mem
    ensures Layout(mem[..], args)
    ensures forall k :: 0 <= k < block ==> mem[k] == old(mem[k])
  {
    hide BlockAt, ByteOf, Flat, StrAt, WordAt, Filled, Begun, Layout, AreStrings;
    BlockBelowStrings(args);
    ClearFrom(mem, block);
    StoreWord(mem, block, argc);
    NothingFilled(mem[..], args);
    var cp, cpp, cp2 := strings, block + WORD, 0;
    var i := 0;
    while i < argc
      invariant 0 <= i <= argc && cp == StringAt(args, i) && cpp == SlotAt(args, i) && cp2 == Size(args[..i])
      invariant Begun(mem[..], args, i)
      invariant forall k :: 0 <= k < block ==> mem[k] == old(mem[k])
    {
      ghost var m := mem[..];
      BegunFilled(m, args, i);
      SizeStep(args, i);
      var n := PutArgument(mem, cp, cpp, buf, cp2, args, i);
      BegunMore(m, mem[..], args, i);
      cp, cpp, cp2 := cp + n + 1, cpp + WORD, cp2 + n + 1;
      i := i + 1;
    }
    BegunFilled(mem[..], args, i);
    PutNulls(mem, cpp, args);
  }

  lemma NothingFilled(m: seq<int>, args: seq<seq<int>>)
    requires |m| == VMEM_1_LIMIT && 0 <= BlockAt(args) && WordAt(m, BlockAt(args), |args|)
    requires forall k :: SlotAt(args, 0) <= k < |m| ==> m[k] == 0
    ensures Begun(m, args, 0) && StringsAt(args) == StringAt(args, 0) && Size(args[..0]) == 0
  {
    BlockBelowStrings(args);
  }

  lemma BegunFilled(m: seq<int>, args: seq<seq<int>>, i: nat)
    requires i <= |args| && Begun(m, args, i)
    ensures Filled(m, args, i) && WordAt(m, BlockAt(args), |args|)
    ensures i == |args| ==> forall k :: 0 <= k && SlotAt(args, |args| + 2) <= k < StringsAt(args) ==> m[k] == 0
  {
    hide BlockAt, Filled, WordAt;
  }

  /** The NULL that ends argv and the one that ends the empty environment. */
  method PutNulls(mem: array<int>, cpp: int, ghost args: seq<seq<int>>)
    requires mem.Length == VMEM_1_LIMIT && 0 <= BlockAt(args) && cpp == SlotAt(args, |args|)
    requires WordAt(mem[..], BlockAt(args), |args|) && Filled(mem[..], args, |args|)
    requires forall k :: SlotAt(args, |args| + 2) <= k < StringsAt(args) ==> mem[k] == 0
    modifies mem
    ensures Layout(mem[..], args)
    ensures forall k :: 0 <= k < BlockAt(args) ==> mem[k] == old(mem[k])
  {
    hide BlockAt, ByteOf, Filled, WordAt;
    BlockBelowStrings(args);
    ghost var m0 := mem[..];
    StoreWord(mem, cpp, 0);
    ghost var m1 := mem[..];
    StoreWord(mem, cpp + WORD, 0);
    FilledKept(m0, mem[..], args, |args|, cpp, cpp + 2 * WORD);
    WordKept(m0, mem[..], BlockAt(args), |args|, cpp);
    WordKept(m1, mem[..], cpp, 0, cpp + WORD);
  }

  /** The argument part of a load as a whole: a refused load writes nothing; an accepted one writes
      only inside the mapped stack pages, and the new program reads its arguments from there. */
  method LoadArguments(mem: array<int>, args: seq<seq<int>>, dataPage: nat, dataPages: nat) returns (ok: bool, sp: int)
    requires mem.Length == VMEM_1_LIMIT && AreStrings(args)
    modifies mem
    ensures ok == Accepted(args, dataPage, dataPages)
    ensures ok ==> ReadArgs(mem[..], sp) == args && sp % 8 == 0
    ensures forall k | 0 <= k < mem.Length && (!ok || k < VMEM_1_LIMIT - StackPages(args) * PAGESIZE) :: mem[k] == old(mem[k])
  {
    hide Layout, BlockAt, StackPages, ReadArgs, Flat, Accepted;
    var cp;
    ok, cp, sp := PlanStack(args, dataPage, dataPages);
    if ok {
      AcceptedFits(args, dataPage, dataPages);
      var buf := SaveArgs(args);
      BuildArgs(mem, |args|, cp, sp, buf, args);
      ArgumentsReadBack(mem[..], args);
    }
  }
}
