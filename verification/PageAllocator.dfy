/**
 * The kernel page allocator (`memory.c`): a table of page flags and `head`, a hint below which nothing is free.
 * `head` is kept as a block number; the source keeps the address `HEAP_KERNEL + head * MEM_BLOCK_SIZE`.
 */
module PageAllocator {
  import opened Machine

  const BLOCKS: nat := 0x2000 // KERNEL_HEAP_SIZE / MEM_BLOCK_SIZE
  const BLOCK: nat := 0x1000
  const HEAP_KERNEL: nat := 0x106_0000
  const NULL: int := 0

  /** C's division by the block size, which truncates. */
  function Trunc(x: int): (q: int)
    ensures if x >= 0 then q * BLOCK <= x < (q + 1) * BLOCK else (q - 1) * BLOCK < x <= q * BLOCK
  {
    if x >= 0 then x / BLOCK else -((-x) / BLOCK)
  }

  /** The block that an address, as an `int`, lies in, counted from the start of the heap; below it C rounds up. */
  function BlockOf(offset: U32): (b: int)
    ensures var at := HEAP_KERNEL + b * BLOCK;
      if Signed(offset) >= HEAP_KERNEL then at <= Signed(offset) < at + BLOCK else at - BLOCK < Signed(offset) <= at
  {
    Trunc(Signed(offset) - HEAP_KERNEL)
  }

  function BlocksIn(bytes: int): (n: int)
    ensures bytes > 0 ==> (n - 1) * BLOCK < bytes <= n * BLOCK
  {
    Trunc(bytes + (BLOCK - 1))
  }

  /** `sum` is what `bytes + (MEM_BLOCK_SIZE-1)` comes to; when that overflows an `int`, C leaves it open. */
  predicate RoundsTo(bytes: int, sum: int) {
    if bytes + (BLOCK - 1) < TWO31 then sum == bytes + (BLOCK - 1) else -TWO31 <= sum < TWO31
  }

  function Address(b: int): (a: int) { HEAP_KERNEL + b * BLOCK }

  // ---------------------------------------------------------------- first fit

  /** `n` blocks from `s` on are free. */
  ghost predicate Run(st: seq<bool>, s: int, n: nat) {
    0 <= s && s + n <= |st| && forall k | s <= k < s + n :: !st[k]
  }

  /** `s` is the lowest run of `n` free blocks from `from` on; -1 when there is none. */
  ghost predicate Lowest(st: seq<bool>, from: nat, n: nat, s: int) {
    && (s == -1 || (s >= from && Run(st, s, n)))
    && (forall k | from <= k && (s == -1 || k < s) :: !Run(st, k, n))
  }

  ghost predicate FullBelow(st: seq<bool>, head: nat) {
    head <= |st| && forall k | 0 <= k < head :: st[k]
  }

  /** Starting at the hint finds what a search of the whole heap finds. */
  lemma HintIsHarmless(st: seq<bool>, head: nat, n: nat, s: int)
    requires FullBelow(st, head) && n > 0 && Lowest(st, head, n, s)
    ensures Lowest(st, 0, n, s)
  {
    forall k | 0 <= k < head ensures !Run(st, k, n) {
      assert st[k];
    }
  }

  /** The table with blocks `lo` to `hi - 1`, as far as they exist, set to `v`. */
  function Marked(st: seq<bool>, lo: int, hi: int, v: bool): (r: seq<bool>)
    ensures |r| == |st| && forall k | 0 <= k < |st| :: r[k] == if lo <= k < hi then v else st[k]
  {
    seq(|st|, k requires 0 <= k < |st| => if lo <= k < hi then v else st[k])
  }

  /** A free keeps the hint sound exactly when its first block is in the heap, or it frees nothing, or there was
      nothing below the hint. */
  lemma FreeKeepsHintIff(st: seq<bool>, head: nat, lo: int, n: int)
    requires FullBelow(st, head) && |st| > 0
    ensures FullBelow(Marked(st, lo, lo + n, false), if 0 <= lo < |st| && lo < head then lo else head)
       <==> lo >= 0 || lo + n <= 0 || head == 0
  {
    if lo < 0 && lo + n > 0 && head > 0 {
      assert !Marked(st, lo, lo + n, false)[0];
    }
  }

  lemma TakeKeepsHint(st: seq<bool>, head: nat, s: int, n: nat)
    requires FullBelow(st, head) && s >= head && Run(st, s, n)
    ensures FullBelow(Marked(st, s, s + n, true), if s == head then head + n else head)
  {
  }

  /** Freeing what was just allocated gives back the table as it was. */
  lemma FreeUndoesMalloc(st: seq<bool>, s: nat, bytes: int)
    requires |st| == BLOCKS && bytes > 0 && Run(st, s, BlocksIn(bytes))
    ensures BlockOf(Address(s)) == s
    ensures var lo := BlockOf(Address(s)); Marked(Marked(st, s, s + BlocksIn(bytes), true), lo, lo + BlocksIn(bytes), false) == st
  {
  }

  /** With the first two pages in use, freeing two pages from the one before the heap on leaves block 0 free below the
      hint, which stays at 2. */
  lemma FreeBelowHeapExample(st: seq<bool>)
    requires |st| == BLOCKS && st[0] && st[1] && FullBelow(st, 2)
    ensures BlockOf(HEAP_KERNEL - BLOCK) == -1 && BlocksIn(2 * BLOCK) == 2
    ensures !FullBelow(Marked(st, -1, -1 + 2, false), 2)
  {
    assert !Marked(st, -1, -1 + 2, false)[0];
  }

  class Memory {
    const status: array<bool>
    var head: nat

    ghost predicate Valid()
      reads this, status
    {
      status.Length == BLOCKS && FullBelow(status[..], head)
    }

    /** `memory_init` */
    constructor ()
      ensures Valid() && head == 0 && fresh(status) && forall k | 0 <= k < BLOCKS :: !status[k]
    {
      status := new bool[BLOCKS](_ => false);
      head := 0;
    }

    method SetRange(lo: int, n: int, v: bool)
      requires status.Length == BLOCKS
      modifies status
      ensures status[..] == Marked(old(status[..]), lo, lo + n, v)
    {
      var i := 0;
      while i < n
        invariant 0 <= i && (i <= n || i == 0)
        invariant forall k | 0 <= k < BLOCKS :: status[k] == if lo <= k < lo + i then v else old(status[k])
      {
        if 0 <= lo + i < BLOCKS {
          status[lo + i] := v;
        }
        i := i + 1;
      }
    }

    /** `memory_reserve` */
    method Reserve(offset: U32, bytes: int, sum: int)
      requires Valid() && RoundsTo(bytes, sum)
      modifies status
      ensures Valid() && status[..] == Marked(old(status[..]), BlockOf(offset), BlockOf(offset) + Trunc(sum), true)
    {
      SetRange(BlockOf(offset), Trunc(sum), true);
    }

    /** `free` */
    method Free(offset: U32, bytes: int, sum: int)
      requires Valid() && RoundsTo(bytes, sum)
      modifies this, status
      ensures status.Length == BLOCKS
      ensures offset == 0 || bytes == 0 ==> status[..] == old(status[..]) && head == old(head)
      ensures offset != 0 && bytes != 0 ==>
        && status[..] == Marked(old(status[..]), BlockOf(offset), BlockOf(offset) + Trunc(sum), false)
        && head == if 0 <= BlockOf(offset) < BLOCKS && BlockOf(offset) < old(head) then BlockOf(offset) else old(head)
      ensures Valid() <==> offset == 0 || bytes == 0 || BlockOf(offset) >= 0 || BlockOf(offset) + Trunc(sum) <= 0 || old(head) == 0
    {
      if offset != 0 && bytes != 0 {
        var blockStart := BlockOf(offset);
        FreeKeepsHintIff(status[..], head, blockStart, Trunc(sum));
        SetRange(blockStart, Trunc(sum), false);
        if 0 <= blockStart < BLOCKS && blockStart < head {
          head := blockStart;
        }
      }
    }

    /** `malloc`: the lowest run of free blocks in the whole heap, or NULL exactly when there is none.  A size that
        overflows the rounding may come out as no blocks at all: then the start of the heap is returned without being
        allocated, and the hint is lost if it stood there. */
    method Malloc(bytes: int, sum: int) returns (addr: int)
      requires Valid() && RoundsTo(bytes, sum)
      modifies this, status
      ensures bytes <= 0 ==> addr == NULL
      ensures addr == NULL ==> status[..] == old(status[..]) && head == old(head)
      ensures bytes > 0 && Trunc(sum) > 0 && addr == NULL ==> Lowest(old(status[..]), 0, Trunc(sum), -1)
      ensures bytes > 0 && Trunc(sum) > 0 && addr != NULL ==>
                exists s :: addr == HEAP_KERNEL + s * BLOCK && Lowest(old(status[..]), 0, Trunc(sum), s) && s >= 0
                         && status[..] == Marked(old(status[..]), s, s + Trunc(sum), true)
                         && head == if s == old(head) then s + Trunc(sum) else old(head)
      ensures 0 < bytes <= TWO31 - BLOCK ==> (Trunc(sum) - 1) * BLOCK < bytes <= Trunc(sum) * BLOCK
      ensures bytes > 0 && Trunc(sum) <= 0 ==> addr == HEAP_KERNEL && status[..] == old(status[..])
      ensures bytes > 0 && Trunc(sum) <= 0 ==> head == if old(head) == 0 then Trunc(sum) % 0x10_0000 else old(head)
      ensures bytes > 0 && Trunc(sum) <= 0 ==> bytes > TWO31 - BLOCK
      ensures Valid() <==> bytes <= 0 || Trunc(sum) > 0 || Trunc(sum) == 0 || old(head) > 0
    {
      addr := NULL;
      if bytes > 0 {
        var n := Trunc(sum);
        if n <= 0 {
          addr := Address(0);
          if head == 0 {
            head := n % 0x10_0000;
          }
        } else {
          var s := Search(n);
          HintIsHarmless(status[..], head, n, s);
          if s != -1 {
            TakeKeepsHint(status[..], head, s, n);
            SetRange(s, n, true);
            addr := Address(s);
            if s == head {
              head := s + n;
            }
          }
        }
      }
    }

    /** The search loop of `malloc`, from the hint on. */
    method Search(n: nat) returns (s: int)
      requires Valid() && n > 0
      ensures Lowest(status[..], head, n, s)
    {
      ghost var st := status[..];
      var remaining: nat := n;
      var index: nat := head;
      s := 0;
      while remaining > 0
        invariant remaining <= n && head <= index <= BLOCKS && n - remaining <= index - head
        invariant remaining < n ==> s == index - (n - remaining)
        invariant forall k | index - (n - remaining) <= k < index :: !st[k]
        invariant forall k | head <= k < index - (n - remaining) :: !Run(st, k, n)
        decreases BLOCKS - index
      {
        if index >= BLOCKS {
          assert forall k | index - (n - remaining) <= k :: !Run(st, k, n);
          return -1;
        }
        if !status[index] {
          if remaining == n {
            s := index;
          }
          remaining := remaining - 1;
        } else {
          assert forall k | index - (n - remaining) <= k <= index :: !Run(st, k, n);
          remaining := n;
        }
        index := index + 1;
      }
    }
  }
}
