/**
 * The user-mode heap (`usr/lib/stdlib.c`): a list of blocks in address order, first fit with splitting, coalescing on
 * every free, and `sbrk` when nothing fits.  Sizes and the argument of `sbrk` are 32 bits wide.
 */
module UserHeap {
  import opened Machine

  const HEADER: nat := 16
  const ALIGNMENT: nat := 8

  datatype Block = Block(addr: nat, size: nat, free: bool)

  function End(b: Block): (e: nat) { b.addr + HEADER + b.size }

  /** `ALIGN`, which wraps to 0 on the last seven sizes. */
  function Align(size: nat): (r: nat)
    requires size < TWO32
    ensures r % ALIGNMENT == 0
    ensures if size <= TWO32 - ALIGNMENT then size <= r < size + ALIGNMENT else r == 0
  {
    ((size + 7) % TWO32) / 8 * 8
  }

  // ---------------------------------------------------------------- the list of blocks

  ghost predicate Sorted(bs: seq<Block>) {
    forall i, j | 0 <= i < j < |bs| :: End(bs[i]) <= bs[j].addr
  }

  ghost predicate Below(bs: seq<Block>, brk: nat) {
    forall i | 0 <= i < |bs| :: End(bs[i]) <= brk
  }

  /** Blocks `i` and `i + 1` are free and touch. */
  predicate Touching(bs: seq<Block>, i: nat) {
    i + 1 < |bs| && bs[i].free && bs[i + 1].free && End(bs[i]) == bs[i + 1].addr
  }

  ghost predicate Coalesced(bs: seq<Block>, n: nat) {
    forall i | 0 <= i < n :: !Touching(bs, i)
  }

  ghost function Live(bs: seq<Block>): set<Block> {
    set b | b in bs && !b.free
  }

  ghost predicate Covered(bs: seq<Block>, x: int) {
    exists i :: 0 <= i < |bs| && bs[i].addr <= x < End(bs[i])
  }

  function Total(bs: seq<Block>): (n: nat) {
    if bs == [] then 0 else HEADER + bs[0].size + Total(bs[1..])
  }

  lemma {:induction false} TotalConcat(a: seq<Block>, b: seq<Block>)
    ensures Total(a + b) == Total(a) + Total(b)
  {
    if a == [] {
      assert a + b == b;
    } else {
      assert (a + b)[1..] == a[1..] + b;
      TotalConcat(a[1..], b);
    }
  }

  /** Live allocations never overlap. */
  lemma LiveDisjoint(bs: seq<Block>, a: Block, b: Block)
    requires Sorted(bs) && a in Live(bs) && b in Live(bs) && a != b
    ensures End(a) <= b.addr || End(b) <= a.addr
  {
  }

  lemma CoveredConcat(a: seq<Block>, b: seq<Block>, x: int)
    ensures Covered(a + b, x) <==> Covered(a, x) || Covered(b, x)
  {
    if k :| 0 <= k < |a| && a[k].addr <= x < End(a[k]) {
      assert (a + b)[k] == a[k];
    }
    if k :| 0 <= k < |b| && b[k].addr <= x < End(b[k]) {
      assert (a + b)[|a| + k] == b[k];
    }
  }

  lemma LiveConcat(a: seq<Block>, b: seq<Block>)
    ensures Live(a + b) == Live(a) + Live(b)
  {
  }

  /** The stretch `mid` replaces the `n` blocks from `i` on. */
  function Replace(bs: seq<Block>, i: nat, n: nat, mid: seq<Block>): (r: seq<Block>)
    requires i + n <= |bs|
  {
    bs[..i] + mid + bs[i + n..]
  }

  /** Blocks replaced by others in the same place, of the same total and over the same bytes. */
  ghost predicate Exchange(old': seq<Block>, new': seq<Block>) {
    && old' != [] && new' != [] && Sorted(new') && Total(old') == Total(new') && SameCover(old', new')
    && (forall k | 0 <= k < |new'| :: old'[0].addr <= new'[k].addr && End(new'[k]) <= End(old'[|old'| - 1]))
  }

  lemma ReplaceKeeps(bs: seq<Block>, brk: nat, i: nat, n: nat, mid: seq<Block>)
    requires Sorted(bs) && Below(bs, brk) && i + n <= |bs| && Exchange(bs[i..i + n], mid)
    ensures var r := Replace(bs, i, n, mid); Sorted(r) && Below(r, brk) && Total(r) == Total(bs) && SameCover(bs, r)
    ensures Live(Replace(bs, i, n, mid)) == Live(bs[..i]) + Live(mid) + Live(bs[i + n..])
    ensures Live(bs) == Live(bs[..i]) + Live(bs[i..i + n]) + Live(bs[i + n..])
  {
    hide Sorted, Below, Covered, Live, Total, SameCover;
    var was, pre, post := bs[i..i + n], bs[..i], bs[i + n..];
    assert bs == pre + was + post;
    TotalConcat(pre + mid, post);
    TotalConcat(pre, mid);
    TotalConcat(pre + was, post);
    TotalConcat(pre, was);
    LiveConcat(pre + mid, post);
    LiveConcat(pre, mid);
    LiveConcat(pre + was, post);
    LiveConcat(pre, was);
    ReplaceSorted(bs, brk, i, n, mid);
    ReplaceCover(pre, was, mid, post);
  }

  ghost predicate Above(bs: seq<Block>, m: int) {
    forall i | 0 <= i < |bs| :: m <= bs[i].addr
  }

  lemma SortedJoin(a: seq<Block>, b: seq<Block>, m: nat)
    requires Sorted(a) && Sorted(b) && Below(a, m) && Above(b, m)
    ensures Sorted(a + b)
  {
  }

  lemma BelowJoin(a: seq<Block>, b: seq<Block>, m: nat)
    ensures Below(a + b, m) <==> Below(a, m) && Below(b, m)
  {
    assert forall i | 0 <= i < |b| :: b[i] == (a + b)[|a| + i];
    assert forall i | 0 <= i < |a| :: a[i] == (a + b)[i];
  }

  lemma ReplaceSorted(bs: seq<Block>, brk: nat, i: nat, n: nat, mid: seq<Block>)
    requires Sorted(bs) && Below(bs, brk) && i + n <= |bs| && Exchange(bs[i..i + n], mid)
    ensures Sorted(Replace(bs, i, n, mid)) && Below(Replace(bs, i, n, mid), brk)
  {
    hide Total, SameCover;
    var was, pre, post := bs[i..i + n], bs[..i], bs[i + n..];
    var lo, hi := bs[i].addr, End(bs[i + n - 1]);
    assert was[0] == bs[i] && was[n - 1] == bs[i + n - 1];
    SortedJoin(pre, mid, lo);
    BelowJoin(pre, mid, hi);
    SortedJoin(pre + mid, post, hi);
    BelowJoin(pre, mid, brk);
    BelowJoin(pre + mid, post, brk);
  }

  lemma ReplaceCover(pre: seq<Block>, was: seq<Block>, mid: seq<Block>, post: seq<Block>)
    requires SameCover(was, mid)
    ensures SameCover(pre + was + post, pre + mid + post)
  {
    hide Covered;
    forall x ensures Covered(pre + was + post, x) <==> Covered(pre + mid + post, x) {
      CoveredConcat(pre + was, post, x);
      CoveredConcat(pre, was, x);
      CoveredConcat(pre + mid, post, x);
      CoveredConcat(pre, mid, x);
    }
  }

  lemma CoveredOne(b: Block, x: int)
    ensures Covered([b], x) <==> b.addr <= x < End(b)
  {
    assert [b][0] == b;
  }

  lemma TotalOne(b: Block)
    ensures Total([b]) == HEADER + b.size && Live([b]) == if b.free then {} else {b}
  {
  }

  function Split(b: Block, size: nat): (r: seq<Block>)
    requires size <= b.size
  {
    if b.size - size > HEADER + ALIGNMENT
    then [Block(b.addr, size, false), Block(b.addr + HEADER + size, b.size - size - HEADER, true)]
    else [b.(free := false)]
  }

  function Merge(a: Block, b: Block): (r: Block) {
    Block(a.addr, a.size + HEADER + b.size, true)
  }

  ghost predicate Heaped(bs: seq<Block>, brk: nat) {
    Sorted(bs) && Below(bs, brk) && Coalesced(bs, |bs|)
  }

  ghost predicate SameCover(a: seq<Block>, b: seq<Block>) {
    forall x :: Covered(a, x) <==> Covered(b, x)
  }

  /** Taking a free block, whole or in part, moves no other block and loses no byte. */
  lemma UseKeeps(bs: seq<Block>, brk: nat, i: nat, size: nat)
    requires Heaped(bs, brk) && i < |bs| && bs[i].free && size <= bs[i].size
    ensures var r := Replace(bs, i, 1, Split(bs[i], size));
      && Heaped(r, brk) && Total(r) == Total(bs) && SameCover(bs, r)
      && i < |r| && r[i].addr == bs[i].addr && r[i].size >= size && r[i] !in Live(bs) && Live(r) == Live(bs) + {r[i]}
  {
    hide Covered, Live, Total, SameCover, Sorted, Coalesced;
    var mid := Split(bs[i], size);
    var r := Replace(bs, i, 1, mid);
    assert bs[i..i + 1] == [bs[i]];
    SplitExchange(bs[i], size);
    ReplaceKeeps(bs, brk, i, 1, mid);
    TotalOne(bs[i]);
    UsedIsNew(bs, i, mid[0]);
    UseCoalesced(bs, i, size);
  }

  lemma UsedIsNew(bs: seq<Block>, i: nat, b: Block)
    requires Sorted(bs) && i < |bs| && bs[i].free && b.addr == bs[i].addr
    ensures b !in Live(bs)
  {
  }

  lemma UseCoalesced(bs: seq<Block>, i: nat, size: nat)
    requires Coalesced(bs, |bs|) && i < |bs| && bs[i].free && size <= bs[i].size
    ensures var r := Replace(bs, i, 1, Split(bs[i], size)); Coalesced(r, |r|)
  {
    var mid := Split(bs[i], size);
    var r := Replace(bs, i, 1, mid);
    assert !Touching(bs, i);
    forall k | 0 <= k < |r| ensures !Touching(r, k) {
      assert k < i ==> !Touching(bs, k);
      assert k >= i + |mid| ==> !Touching(bs, k - |mid| + 1);
    }
  }

  lemma SplitExchange(b: Block, size: nat)
    requires size <= b.size
    ensures var mid := Split(b, size); Exchange([b], mid) && Live(mid) == {mid[0]}
  {
    hide Covered, Live, Total;
    var mid := Split(b, size);
    TotalOne(b);
    TotalOne(mid[0]);
    if |mid| == 2 {
      TotalOne(mid[1]);
      assert mid == [mid[0]] + [mid[1]];
      TotalConcat([mid[0]], [mid[1]]);
      LiveConcat([mid[0]], [mid[1]]);
    }
    forall x ensures Covered([b], x) <==> Covered(mid, x) {
      CoveredOne(b, x);
      CoveredOne(mid[0], x);
      if |mid| == 2 {
        CoveredOne(mid[1], x);
        CoveredConcat([mid[0]], [mid[1]], x);
      }
    }
  }

  /** Merging two free blocks that touch moves no other block and loses no byte. */
  lemma MergeKeeps(bs: seq<Block>, brk: nat, i: nat)
    requires Sorted(bs) && Below(bs, brk) && Touching(bs, i) && Coalesced(bs, i)
    ensures var r := Replace(bs, i, 2, [Merge(bs[i], bs[i + 1])]);
      && Sorted(r) && Below(r, brk) && Coalesced(r, i) && Total(r) == Total(bs) && SameCover(bs, r) && Live(r) == Live(bs)
      && |r| == |bs| - 1
  {
    hide Covered, Live, Total, Sorted, SameCover;
    var a, b := bs[i], bs[i + 1];
    var m := Merge(a, b);
    var r := Replace(bs, i, 2, [m]);
    assert bs[i..i + 2] == [a] + [b];
    MergeExchange(a, b);
    ReplaceKeeps(bs, brk, i, 2, [m]);
    TotalOne(a);
    TotalOne(b);
    TotalOne(m);
    LiveConcat([a], [b]);
    forall k | 0 <= k < i ensures !Touching(r, k) {
      assert !Touching(bs, k);
    }
  }

  lemma MergeExchange(a: Block, b: Block)
    requires End(a) == b.addr
    ensures Exchange([a] + [b], [Merge(a, b)])
  {
    hide Covered, Total;
    var m := Merge(a, b);
    TotalOne(a);
    TotalOne(b);
    TotalOne(m);
    TotalConcat([a], [b]);
    forall x ensures Covered([a] + [b], x) <==> Covered([m], x) {
      CoveredOne(a, x);
      CoveredOne(b, x);
      CoveredOne(m, x);
      CoveredConcat([a], [b], x);
    }
  }

  lemma ReleaseKeeps(bs: seq<Block>, brk: nat, i: nat)
    requires Sorted(bs) && Below(bs, brk) && i < |bs| && !bs[i].free
    ensures var r := bs[i := bs[i].(free := true)];
      Sorted(r) && Below(r, brk) && Total(r) == Total(bs) && SameCover(bs, r) && Live(r) == Live(bs) - {bs[i]}
  {
    hide Covered, Live, Total, Sorted;
    var b := bs[i].(free := true);
    assert bs[i..i + 1] == [bs[i]];
    assert bs[i := b] == Replace(bs, i, 1, [b]);
    TotalOne(bs[i]);
    TotalOne(b);
    assert Sorted([b]) by { SortedOne(b); }
    forall x ensures Covered([bs[i]], x) <==> Covered([b], x) {
      CoveredOne(bs[i], x);
      CoveredOne(b, x);
    }
    ReplaceKeeps(bs, brk, i, 1, [b]);
    OnlyHere(bs, i);
  }

  lemma SortedOne(b: Block)
    ensures Sorted([b])
  {
  }

  lemma OnlyHere(bs: seq<Block>, i: nat)
    requires Sorted(bs) && i < |bs|
    ensures bs[i] !in Live(bs[..i]) && bs[i] !in Live(bs[i + 1..])
  {
  }

  lemma GrowKeeps(bs: seq<Block>, brk: nat, b: Block)
    requires Heaped(bs, brk) && b.addr == brk && !b.free
    ensures var r := bs + [b];
      && r[|bs|] == b && Total(r) == Total(bs) + HEADER + b.size && Live(r) == Live(bs) + {b} && b !in Live(bs)
      && forall top: nat :: Heaped(r, top) <==> End(b) <= top
  {
    var r := bs + [b];
    TotalConcat(bs, [b]);
    assert Total([b]) == HEADER + b.size + Total([]);
    assert r[|bs|] == b;
    forall i | 0 <= i < |r| ensures !Touching(r, i) {
      assert i < |bs| ==> !Touching(bs, i);
    }
  }

  // ---------------------------------------------------------------- stdlib.c

  class Heap {
    var blocks: seq<Block>
    var start: nat
    var brk: nat

    ghost predicate Valid()
      reads this
    {
      Heaped(blocks, brk)
    }

    function View(): State
      reads this
    {
      State(blocks, start, brk)
    }

    /** Before the first allocation: `brk` is where the program image ends. */
    constructor (end: nat)
      ensures Valid() && View() == State([], end, end)
    {
      blocks, start, brk := [], end, end;
    }

    /** `find_free_block`: the lowest free block that is large enough. */
    method FindFree(size: nat) returns (i: int)
      ensures i == -1 <==> !Fits(blocks, size)
      ensures i != -1 ==> 0 <= i < |blocks| && blocks[i].free && blocks[i].size >= size
      ensures i != -1 ==> forall k | 0 <= k < i :: !(blocks[k].free && blocks[k].size >= size)
    {
      var k: nat := 0;
      while k < |blocks|
        invariant k <= |blocks|
        invariant forall j | 0 <= j < k :: !(blocks[j].free && blocks[j].size >= size)
      {
        if blocks[k].free && blocks[k].size >= size {
          return k;
        }
        k := k + 1;
      }
      i := -1;
    }

    /** `malloc`.  `grant` is whether the system has the memory that `sbrk` asks for; 0 stands for NULL. */
    method Malloc(size: nat, grant: bool) returns (p: nat)
      requires Valid() && size < TWO32
      modifies this
      ensures Valid() <==> Served(old(blocks), old(start), old(brk), size, grant)
      ensures Allocated(old(View()), size, grant, View(), p)
    {
      hide Total, Covered, SameCover, Live, Heaped, Align, Split, Replace;
      p := 0;
      if size > 0 {
        var n := Align(size);
        var i := FindFree(n);
        if i != -1 {
          UseKeeps(blocks, brk, i, n);
          Lowest(blocks, brk, i, n);
          CarvedIs(blocks, i, n);
          blocks := Replace(blocks, i, 1, Split(blocks[i], n));
          p := blocks[i].addr + HEADER;
        } else {
          var delta := Signed(HEADER + n);
          if grant && start <= brk + delta {
            var b := Block(brk, n, false);
            GrowKeeps(blocks, brk, b);
            blocks := blocks + [b];
            p := brk + HEADER;
            brk := brk + delta;
          }
        }
      }
    }

    /** `free`: a pointer to a used block gives it back, anything else changes nothing. */
    method Free(p: nat)
      requires Valid()
      modifies this
      ensures Valid() && Freed(old(View()), p, View())
    {
      var i := FindBlock(p);
      if i != -1 && !blocks[i].free {
        OneBlockAt(blocks, i, p);
        ReleaseKeeps(blocks, brk, i);
        blocks := blocks[i := blocks[i].(free := true)];
        Coalesce();
      } else {
        NoneLiveAt(blocks, i, p);
      }
    }

    /** The header in front of `p`, when it is one. */
    method FindBlock(p: nat) returns (i: int)
      ensures i == -1 || (0 <= i < |blocks| && blocks[i].addr + HEADER == p)
      ensures i == -1 ==> forall k | 0 <= k < |blocks| :: blocks[k].addr + HEADER != p
    {
      var k: nat := 0;
      while k < |blocks|
        invariant k <= |blocks| && forall j | 0 <= j < k :: blocks[j].addr + HEADER != p
      {
        if blocks[k].addr + HEADER == p {
          return k;
        }
        k := k + 1;
      }
      i := -1;
    }

    /** `coalesce_free_blocks` */
    method Coalesce()
      requires Sorted(blocks) && Below(blocks, brk)
      modifies this`blocks
      ensures Heaped(blocks, brk) && Total(blocks) == Total(old(blocks)) && SameCover(old(blocks), blocks) && Live(blocks) == Live(old(blocks))
    {
      hide Total, Covered, Replace, Merge, Live, Sorted, Below;
      ghost var was := blocks;
      var i: nat := 0;
      while i + 1 < |blocks|
        invariant Sorted(blocks) && Below(blocks, brk) && Coalesced(blocks, i) && (i == 0 || i < |blocks|)
        invariant Total(blocks) == Total(was) && SameCover(was, blocks) && Live(blocks) == Live(was)
        decreases 2 * |blocks| - i
      {
        if Touching(blocks, i) {
          MergeKeeps(blocks, brk, i);
          blocks := Replace(blocks, i, 2, [Merge(blocks[i], blocks[i + 1])]);
        } else {
          i := i + 1;
        }
      }
    }

    /** One operation of a run; the program may also raise the break itself. */
    method Perform(op: Op) returns (p: nat)
      requires Valid() && !Breaks(View(), op)
      modifies this
      ensures Valid() && Does(old(View()), op, View(), p)
    {
      hide Sorted, Coalesced, Allocated, Freed, Served;
      p := 0;
      match op
      case Malloc(size, grant) => p := Malloc(size, grant);
      case Free(q) => Free(q);
      case Sbrk(n) => brk := brk + n;
    }

    /** Any sequence of allocations and frees, up to a request whose increment the break does not survive: `trace` are the
        states passed through, `results` the pointers returned. */
    method Run(ops: seq<Op>) returns (results: seq<nat>, ghost trace: seq<State>)
      requires Valid()
      modifies this
      ensures |results| <= |ops| && Valid() && IsRun(trace, ops[..|results|], results)
      ensures trace[0] == old(View()) && trace[|results|] == View()
      ensures |results| < |ops| ==> Breaks(View(), ops[|results|])
    {
      hide Heaped, Does, Breaks;
      results, trace := [], [View()];
      while |results| < |ops| && !Breaks(View(), ops[|results|])
        invariant |results| <= |ops| && Valid() && IsRun(trace, ops[..|results|], results)
        invariant trace[0] == old(View()) && trace[|results|] == View()
        decreases |ops| - |results|
      {
        var p := Perform(ops[|results|]);
        assert ops[..|results| + 1] == ops[..|results|] + [ops[|results|]];
        results, trace := results + [p], trace + [View()];
      }
    }
  }

  datatype State = State(blocks: seq<Block>, start: nat, brk: nat)

  /** What `malloc` does: first fit, whole or split; the break only when nothing fits; otherwise NULL and no change. */
  ghost predicate Allocated(a: State, size: nat, grant: bool, b: State, p: nat)
    requires size < TWO32
  {
    var n := Align(size);
    && b.start == a.start && (p == 0 <==> size == 0 || (!Fits(a.blocks, n) && !Granted(a.start, a.brk, size, grant)))
    && (p == 0 ==> b == a)
    && (p != 0 ==> NewLive(a.blocks, b.blocks, p, n) && FirstFit(a.blocks, p, n))
    && (p != 0 && Fits(a.blocks, n) ==>
          && b.brk == a.brk && Total(b.blocks) == Total(a.blocks) && SameCover(a.blocks, b.blocks)
          && exists i | 0 <= i < |a.blocks| :: a.blocks[i].free && a.blocks[i].addr + HEADER == p && Carved(a.blocks, i, n, b.blocks))
    && (p != 0 && !Fits(a.blocks, n) ==>
          p == a.brk + HEADER && b.brk == a.brk + Signed(HEADER + n) && b.blocks == a.blocks + [Block(a.brk, n, false)])
  }

  /** Free block `i` is in use: as it was, or cut to `n` bytes if what is left over holds a header and more than 8 bytes,
      which are then a free block behind it.  No other block has changed. */
  ghost predicate Carved(was: seq<Block>, i: nat, n: nat, now: seq<Block>)
    requires i < |was|
  {
    var b := was[i];
    && b.size >= n
    && now == was[..i]
              + (if b.size - n <= 24 then [Block(b.addr, b.size, false)]
                 else [Block(b.addr, n, false), Block(b.addr + 16 + n, b.size - n - 16, true)])
              + was[i + 1..]
  }

  /** What `free` does: exactly the allocation at `p` goes, if there is one. */
  ghost predicate Freed(a: State, p: nat, b: State) {
    && b.brk == a.brk && b.start == a.start && Total(b.blocks) == Total(a.blocks) && SameCover(a.blocks, b.blocks)
    && Live(b.blocks) == Live(a.blocks) - (set x | x in Live(a.blocks) && x.addr + HEADER == p)
  }

  // ---------------------------------------------------------------- runs

  type Size = w: nat | w < TWO32

  datatype Op = Malloc(size: Size, grant: bool) | Free(p: nat) | Sbrk(n: nat)

  predicate Breaks(s: State, op: Op) { op.Malloc? && !Served(s.blocks, s.start, s.brk, op.size, op.grant) }

  ghost predicate Does(a: State, op: Op, b: State, p: nat) {
    && Heaped(a.blocks, a.brk) && Heaped(b.blocks, b.brk)
    && match op
       case Malloc(size, grant) => Allocated(a, size, grant, b, p)
       case Free(q) => p == 0 && Freed(a, q, b)
       case Sbrk(n) => p == 0 && b == a.(brk := a.brk + n)
  }

  ghost predicate IsRun(trace: seq<State>, ops: seq<Op>, results: seq<nat>) {
    && |trace| == |ops| + 1 && |results| == |ops| && Heaped(trace[0].blocks, trace[0].brk)
    && forall k | 0 <= k < |ops| :: Does(trace[k], ops[k], trace[k + 1], results[k])
  }

  /** After every operation of every run the blocks are in order, no two that touch are free, and allocations do not
      overlap. */
  lemma {:induction false} RunIsHeaped(trace: seq<State>, ops: seq<Op>, results: seq<nat>, k: nat)
    requires IsRun(trace, ops, results) && k <= |ops|
    ensures Heaped(trace[k].blocks, trace[k].brk)
    ensures forall a, b | a in Live(trace[k].blocks) && b in Live(trace[k].blocks) && a != b :: End(a) <= b.addr || End(b) <= a.addr
  {
    hide Allocated, Freed;
    if k > 0 {
      assert Does(trace[k - 1], ops[k - 1], trace[k - 1 + 1], results[k - 1]);
    }
    forall a, b | a in Live(trace[k].blocks) && b in Live(trace[k].blocks) && a != b ensures End(a) <= b.addr || End(b) <= a.addr {
      LiveDisjoint(trace[k].blocks, a, b);
    }
  }

  /** An allocation stays where it is, and as large, until it is freed. */
  lemma {:induction false} LiveStays(trace: seq<State>, ops: seq<Op>, results: seq<nat>, i: nat, j: nat, b: Block)
    requires IsRun(trace, ops, results) && i <= j <= |ops| && b in Live(trace[i].blocks)
    requires forall k | i <= k < j :: ops[k] != Free(b.addr + HEADER)
    ensures b in Live(trace[j].blocks)
    decreases j
  {
    hide Does, Live, Heaped;
    if i < j {
      LiveStays(trace, ops, results, i, j - 1, b);
      assert Does(trace[j - 1], ops[j - 1], trace[j - 1 + 1], results[j - 1]);
      OneKeeps(trace[j - 1], ops[j - 1], trace[j], results[j - 1], b);
    }
  }

  lemma OneKeeps(s: State, op: Op, r: State, p: nat, b: Block)
    requires Does(s, op, r, p) && b in Live(s.blocks) && op != Free(b.addr + HEADER)
    ensures b in Live(r.blocks)
  {
    hide Live, Heaped, FirstFit, SameCover, Align;
  }

  /** No byte of the heap is ever lost: what some block covers stays covered. */
  lemma {:induction false} BytesStay(trace: seq<State>, ops: seq<Op>, results: seq<nat>, i: nat, j: nat, x: int)
    requires IsRun(trace, ops, results) && i <= j <= |ops| && Covered(trace[i].blocks, x)
    ensures Covered(trace[j].blocks, x)
    decreases j
  {
    hide Does, Covered;
    if i < j {
      BytesStay(trace, ops, results, i, j - 1, x);
      assert Does(trace[j - 1], ops[j - 1], trace[j - 1 + 1], results[j - 1]);
      OneCovers(trace[j - 1], ops[j - 1], trace[j], results[j - 1], x);
    }
  }

  lemma OneCovers(s: State, op: Op, r: State, p: nat, x: int)
    requires Does(s, op, r, p) && Covered(s.blocks, x)
    ensures Covered(r.blocks, x)
  {
    hide Heaped, FirstFit, NewLive, Align, Covered;
    if op.Malloc? && p != 0 && !Fits(s.blocks, Align(op.size)) {
      CoveredConcat(s.blocks, [Block(s.brk, Align(op.size), false)], x);
    }
  }

  /** Exactly one allocation more: one of at least `size` bytes at `p`. */
  ghost predicate NewLive(was: seq<Block>, now: seq<Block>, p: nat, size: nat) {
    exists i | 0 <= i < |now| ::
      now[i].addr + HEADER == p && now[i].size >= size && now[i] !in Live(was) && Live(now) == Live(was) + {now[i]}
  }

  ghost predicate FirstFit(bs: seq<Block>, p: nat, size: nat) {
    forall k | 0 <= k < |bs| && bs[k].free && bs[k].size >= size :: p <= bs[k].addr + HEADER
  }

  lemma Lowest(bs: seq<Block>, brk: nat, i: nat, size: nat)
    requires Heaped(bs, brk) && i < |bs| && forall k | 0 <= k < i :: !(bs[k].free && bs[k].size >= size)
    ensures FirstFit(bs, bs[i].addr + HEADER, size)
  {
  }

  lemma CarvedIs(bs: seq<Block>, i: nat, n: nat)
    requires i < |bs| && n <= bs[i].size
    ensures Carved(bs, i, n, Replace(bs, i, 1, Split(bs[i], n)))
  {
  }

  predicate Fits(bs: seq<Block>, size: nat) {
    exists k :: 0 <= k < |bs| && bs[k].free && bs[k].size >= size
  }

  /** `sbrk` goes through: the memory is there and the new end is not below the start. */
  predicate Granted(start: nat, brk: nat, size: nat, grant: bool)
    requires size < TWO32
  {
    grant && start <= brk + Signed(HEADER + Align(size))
  }

  /** Exactly when an allocation leaves the list inside the heap: `sbrk` was not needed, did not go through, or was
      asked for an increment that fits an `int`. */
  predicate Served(bs: seq<Block>, start: nat, brk: nat, size: nat, grant: bool)
    requires size < TWO32
  {
    Fits(bs, Align(size)) || HEADER + Align(size) < TWO31 || !Granted(start, brk, size, grant)
  }

  /** Behind one allocation of 104 bytes, a request for 32 bytes less than 4 GB takes the break down into that allocation
      while the new block lies above it; one for 4 GB less a byte gets a block of no bytes at all. */
  lemma HugeRequestExample(bs: seq<Block>)
    requires bs == [Block(0x4000_0000, 104, false)]
    ensures Heaped(bs, 0x4000_0078) && !Served(bs, 0x4000_0000, 0x4000_0078, 0xFFFF_FFE0, true)
    ensures Signed(HEADER + Align(0xFFFF_FFE0)) == -16 && 0x4000_0078 - 16 < End(bs[0])
    ensures Served(bs, 0x4000_0000, 0x4000_0078, 0xFFFF_FFFF, true) && Align(0xFFFF_FFFF) == 0
  {
  }

  lemma OneBlockAt(bs: seq<Block>, i: nat, p: nat)
    requires Sorted(bs) && i < |bs| && bs[i].addr + HEADER == p && !bs[i].free
    ensures (set b | b in Live(bs) && b.addr + HEADER == p) == {bs[i]}
  {
  }

  lemma NoneLiveAt(bs: seq<Block>, i: int, p: nat)
    requires Sorted(bs) && (i != -1 ==> 0 <= i < |bs| && bs[i].addr + HEADER == p && bs[i].free)
    requires i == -1 ==> forall k | 0 <= k < |bs| :: bs[k].addr + HEADER != p
    ensures (set b | b in Live(bs) && b.addr + HEADER == p) == {}
  {
  }

  /** What is asked for is what is received, unless the size wraps: then nothing is. */
  lemma AllocationLargeEnough(size: nat)
    requires 0 < size < TWO32
    ensures Align(size) >= size <==> size <= TWO32 - ALIGNMENT
  {
  }

  /** An `sbrk` beyond the range of an `int` lowers the break, or raises it by 8 or not at all. */
  lemma HugeRequestsShrinkTheHeap(size: nat)
    requires size < TWO32 && HEADER + Align(size) >= TWO31
    ensures Signed(HEADER + Align(size)) < 0 || Signed(HEADER + Align(size)) == 0 || Signed(HEADER + Align(size)) == 8
  {
  }
}
