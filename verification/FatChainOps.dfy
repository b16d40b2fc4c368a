/** Growing and shrinking the cluster chain of one file. */
module FatChainOps {
  import opened Sequences
  import opened Machine
  import opened FatLayout
  import opened FatTable
  import opened FatCache
  import opened FatData

  ghost predicate TailDangles(t: Table, n: nat, last: int)
    requires n <= |t| && 0 <= last < |t|
  {
    ValidCluster(n, t[last]) && t[t[last]] == 0
  }

  /** Clusters that the table `t` has in use, other than those of `s`, keep their bytes. */
  ghost predicate DataKept(l: Layout, b0: seq<Byte>, b: seq<Byte>, t: Table, s: seq<int>)
    requires OnVolume(l, b0) && OnVolume(l, b) && l.clusters <= |t|
  {
    forall c | 2 <= c < l.clusters && t[c] != 0 && c !in s :: ClusterData(l, b, c) == ClusterData(l, b0, c)
  }

  lemma DataKeptTrans(l: Layout, b0: seq<Byte>, b1: seq<Byte>, b2: seq<Byte>, t: Table, s: seq<int>)
    requires OnVolume(l, b0) && OnVolume(l, b1) && OnVolume(l, b2) && l.clusters <= |t|
    requires DataKept(l, b0, b1, t, s) && DataKept(l, b1, b2, t, [])
    ensures DataKept(l, b0, b2, t, s)
  {
  }

  lemma DataKeptSame(l: Layout, b: seq<Byte>, t: Table, s: seq<int>)
    requires OnVolume(l, b) && l.clusters <= |t|
    ensures DataKept(l, b, b, t, s)
  {
  }

  /** Before anything is linked or written. */
  lemma NothingYet(l: Layout, b: seq<Byte>, t: Table, last: int)
    requires OnVolume(l, b) && l.clusters <= |t| && 0 <= last < |t|
    ensures DataKept(l, b, b, t, []) && LowestFree(t, l.clusters, []) && Extended(t, t, last, [])
  {
  }

  lemma DataKeptStep(l: Layout, b0: seq<Byte>, b1: seq<Byte>, b2: seq<Byte>, t: Table, s: seq<int>, c: int)
    requires OnVolume(l, b0) && OnVolume(l, b1) && l.clusters <= |t| && 2 <= c < l.clusters
    requires DataKept(l, b0, b1, t, s) && OnlyCluster(l, b1, b2, c) && (t[c] == 0 || c in s)
    ensures DataKept(l, b0, b2, t, s)
  {
    forall d | 2 <= d < l.clusters && t[d] != 0 && d !in s ensures ClusterData(l, b2, d) == ClusterData(l, b0, d) {
      OnlyClusterFrame(l, b1, b2, c, d);
    }
  }

  lemma DataKeptFrom(l: Layout, b0: seq<Byte>, b: seq<Byte>, t: Table, s: seq<int>, c: int)
    requires OnVolume(l, b0) && l.clusters <= |t| && 2 <= c < l.clusters && OnlyCluster(l, b0, b, c) && c in s
    ensures DataKept(l, b0, b, t, s)
  {
  }

  lemma DataKeptFlush(l: Layout, b0: seq<Byte>, b1: seq<Byte>, b2: seq<Byte>, t: Table, s: seq<int>)
    requires OnVolume(l, b0) && OnVolume(l, b1) && l.clusters <= |t|
    requires DataKept(l, b0, b1, t, s) && OffTablesSame(l, b1, b2)
    ensures DataKept(l, b0, b2, t, s)
  {
  }

  ghost predicate AllZero(l: Layout, b: seq<Byte>, s: seq<int>)
    requires OnVolume(l, b) && Clusters(l, s)
  {
    forall i | 0 <= i < |s| :: ClusterData(l, b, s[i]) == Zeros(l.bpc)
  }

  /** Follows the table for at most `count - 1` links. */
  method WalkChain(cache: Cache, start: nat, count: nat, ghost s: seq<int>) returns (last: nat)
    requires cache.Valid() && IsChain(cache.table[..], cache.layout.clusters, s) && s[0] == start
    ensures last == s[if count <= 1 then 0 else if count <= |s| then count - 1 else |s| - 1]
  {
    ghost var n, j := cache.layout.clusters, 0;
    last := start;
    var i := 1;
    while i < count
      invariant 1 <= i && (i <= count || i == 1)
      invariant 0 <= j < |s| && last == s[j] && j == i - 1
    {
      assert ValidCluster(n, s[j]);
      var next := cache.table[last];
      assert j < |s| - 1 ==> cache.table[..][s[j]] == s[j + 1];
      if !ValidCluster(cache.layout.clusters, next) {
        assert j == |s| - 1;
        return;
      }
      last := next;
      j := j + 1;
      i := i + 1;
    }
  }

  /** Overwrites a whole cluster. */
  method WriteCluster(cache: Cache, c: nat, data: seq<Byte>) returns (ok: bool)
    requires cache.Valid() && 2 <= c < cache.layout.clusters && |data| == cache.layout.bpc
    modifies cache.dev
    ensures cache.Valid() && OnlyCluster(cache.layout, old(cache.dev.bytes), cache.dev.bytes, c)
    ensures old(cache.dev.faults) <= cache.dev.faults && (ok <==> cache.dev.faults == old(cache.dev.faults))
    ensures ok ==> ClusterData(cache.layout, cache.dev.bytes, c) == data
  {
    assert cache.layout.clusterAddr[c] + cache.layout.bpc <= cache.layout.size;
    ok := cache.dev.Write(cache.layout.clusterAddr[c], data);
  }

  // ---------------------------------------------------------------- zeroing up to the end of the last cluster

  /** Splicing zeros into the last cluster from the old end of file on. */
  lemma GapZeroed(d0: seq<Byte>, at: nat, cd: seq<Byte>, cd': seq<Byte>, from: nat, to: nat, size: nat, newSize: nat)
    requires at + |cd| == |d0| && d0[at..] == cd && |cd'| == |cd| && from <= to <= |cd|
    requires at + from == size < newSize
    requires cd'[..from] == cd[..from] && (forall k | from <= k < to :: cd'[k] == 0)
    requires at + to <= newSize && (to == |cd| || at + to == newSize)
    requires forall k | to <= k < |cd| :: cd'[k] == if size > 0 then cd[k] else 0
    ensures ZeroExtended(d0, Splice(d0, at, cd'), size, newSize) && RestKept(d0, Splice(d0, at, cd'), size, newSize)
  {
    var d := Splice(d0, at, cd');
    forall k | newSize <= k < |d| ensures d[k] == if size > 0 then d0[k] else 0 {
      assert d0[k] == d0[at..][k - at] && d[k] == cd'[k - at];
    }
  }

  lemma ZeroExtendedSelf(d: seq<Byte>, size: nat, newSize: nat)
    requires size <= |d| && (size == |d| || newSize <= size)
    ensures ZeroExtended(d, d, size, newSize)
  {
  }

  lemma GapDone(l: Layout, b0: seq<Byte>, b: seq<Byte>, s: seq<int>, cd': seq<Byte>, from: nat, to: nat, size: nat, newSize: nat)
    requires OnVolume(l, b0) && Clusters(l, s) && Distinct(s) && s != [] && Fits(l.bpc, |s|, size) && size < newSize
    requires (size % l.bpc != 0 || size == 0) && from == size % l.bpc && from <= to <= l.bpc
    requires to <= newSize - (size - from) && (to == l.bpc || to == newSize - (size - from))
    requires OnlyCluster(l, b0, b, s[|s| - 1]) && ClusterData(l, b, s[|s| - 1]) == cd'
    requires cd'[..from] == ClusterData(l, b0, s[|s| - 1])[..from] && (forall k | from <= k < to :: cd'[k] == 0)
    requires forall k | to <= k < |cd'| :: cd'[k] == if from > 0 then ClusterData(l, b0, s[|s| - 1])[k] else 0
    ensures ZeroExtended(ChainData(l, b0, s), ChainData(l, b, s), size, newSize)
    ensures RestKept(ChainData(l, b0, s), ChainData(l, b, s), size, newSize)
  {
    var d0, at, cd := ChainData(l, b0, s), (|s| - 1) * l.bpc, ClusterData(l, b0, s[|s| - 1]);
    TailOffset(l.bpc, |s|, size);
    ChainDataAt(l, b0, s, |s| - 1);
    assert at + l.bpc == |d0| && d0[at..] == cd;
    ChainWrite(l, b0, b, s, |s| - 1);
    GapZeroed(d0, at, cd, cd', from, to, size, newSize);
  }

  /** The contents of cluster `c` with `from..to` cleared; a whole-cluster clear needs no read. */
  method GapBuffer(cache: Cache, c: nat, from: nat, to: nat) returns (ok: bool, buf: seq<Byte>)
    requires cache.Valid() && 2 <= c < cache.layout.clusters && from <= to <= cache.layout.bpc
    modifies cache.dev`faults
    ensures old(cache.dev.faults) <= cache.dev.faults && (ok <==> cache.dev.faults == old(cache.dev.faults))
    ensures ok ==> |buf| == cache.layout.bpc && buf[..from] == ClusterData(cache.layout, cache.dev.bytes, c)[..from]
    ensures ok ==> forall k | from <= k < to :: buf[k] == 0
    ensures ok ==> forall k | to <= k < |buf| :: buf[k] == if from > 0 then ClusterData(cache.layout, cache.dev.bytes, c)[k] else 0
  {
    var l := cache.layout;
    if from == 0 {
      ok := cache.dev.Acquire();
      buf := Zeros(l.bpc);
    } else {
      assert l.clusterAddr[c] + l.bpc <= l.size;
      ok, buf := cache.dev.Read(l.clusterAddr[c], l.bpc);
      if ok {
        buf := Splice(buf, from, Zeros(to - from));
      }
    }
  }

  /** Clears the bytes between the old end of file and the end of its cluster (or the new end). */
  method ZeroGap(cache: Cache, last: nat, oldSize: nat, newSize: nat, ghost s: seq<int>) returns (ok: bool)
    requires cache.Valid() && Clusters(cache.layout, s) && Distinct(s) && s != [] && last == s[|s| - 1]
    requires Fits(cache.layout.bpc, |s|, oldSize) && oldSize < newSize
    modifies cache.dev
    ensures cache.Valid() && OnlyCluster(cache.layout, old(cache.dev.bytes), cache.dev.bytes, last)
    ensures old(cache.dev.faults) <= cache.dev.faults && (ok <==> cache.dev.faults == old(cache.dev.faults))
    ensures ok ==> ZeroExtended(ChainData(cache.layout, old(cache.dev.bytes), s),
                                ChainData(cache.layout, cache.dev.bytes, s), oldSize, newSize)
    ensures ok ==> RestKept(ChainData(cache.layout, old(cache.dev.bytes), s),
                            ChainData(cache.layout, cache.dev.bytes, s), oldSize, newSize)
  {
    var l := cache.layout;
    ghost var b0 := cache.dev.bytes;
    if oldSize % l.bpc != 0 || oldSize == 0 {
      var from := oldSize % l.bpc;
      var to := newSize - (oldSize - from);
      if to > l.bpc {
        to := l.bpc;
      }
      var buf;
      ok, buf := GapBuffer(cache, last, from, to);
      if !ok {
        return;
      }
      ok := WriteCluster(cache, last, buf);
      if ok {
        GapDone(l, b0, cache.dev.bytes, s, buf, from, to, oldSize, newSize);
      }
    } else {
      ok := true;
      TailOffset(l.bpc, |s|, oldSize);
      ZeroExtendedSelf(ChainData(l, b0, s), oldSize, newSize);
    }
  }

  // ---------------------------------------------------------------- allocating and linking clusters

  /** Everything the allocation loop maintains about the table. */
  ghost predicate Allocating(t0: Table, t: Table, d: seq<bool>, n: nat, last: int, news: seq<int>, from: int, lo: int, hi: int) {
    && LowestFree(t0, n, news) && Extended(t0, t, last, news) && Dirtied(t0, t, d, lo, hi)
    && 2 <= from <= n && 0 <= lo <= last <= hi < n
    && (forall i | 0 <= i < |news| :: news[i] < from && news[i] != last)
    && (forall x | 2 <= x < from && t0[x] == 0 :: x in news)
  }

  /** The search over the edited table finds what a search over the original one would find. */
  lemma SearchSame(t0: Table, t: Table, d: seq<bool>, n: nat, last: int, news: seq<int>, from: int, lo: int, hi: int, c: int)
    requires Allocating(t0, t, d, n, last, news, from, lo, hi) && t0[last] != 0 && |news| < |FreeSet(t0, n)|
    requires from <= c <= n && (c < n ==> t[c] == 0) && (forall x | from <= x < c :: t[x] != 0)
    ensures c < n && t0[c] == 0 && c != last && c !in news
    ensures forall x | from <= x < c && 2 <= x :: t0[x] != 0
  {
    forall x | from <= x < n ensures (t[x] == 0 <==> t0[x] == 0) {
      if x == last && news != [] {
        assert t[last] == news[0];
      }
    }
    SearchCannotFail(t0, n, news, from);
  }

  lemma AllocateOne(t0: Table, t: Table, t': Table, d: seq<bool>, d': seq<bool>, n: nat, last: int, news: seq<int>,
                    from: int, lo: int, hi: int, prev: int, c: int)
    requires Allocating(t0, t, d, n, last, news, from, lo, hi) && n <= 0xFFF6
    requires from <= c < n && t0[c] == 0 && c != last && c !in news
    requires forall x | from <= x < c && 2 <= x :: t0[x] != 0
    requires prev == if news == [] then last else news[|news| - 1]
    requires t' == t[c := END_OF_CHAIN][prev := c] && d' == d[c := true][prev := true]
    ensures Allocating(t0, t', d', n, last, news + [c], c + 1, if c < lo then c else lo, if c > hi then c else hi)
  {
    hide LowestFree, Extended;
    AllocatingParts(t0, t, d, n, last, news, from, lo, hi, prev);
    ExtendOne(t0, t, last, news, prev, c);
    LowestFreeNext(t0, n, news, from, c);
    assert forall x :: x in news + [c] <==> x in news || x == c;
  }

  lemma AllocatingParts(t0: Table, t: Table, d: seq<bool>, n: nat, last: int, news: seq<int>, from: int, lo: int, hi: int, prev: int)
    requires Allocating(t0, t, d, n, last, news, from, lo, hi)
    requires prev == if news == [] then last else news[|news| - 1]
    ensures last !in news && Distinct(news) && |t| == |t0| && n <= |t| && 2 <= n
    ensures 0 <= prev < |t| && lo <= prev <= hi
  {
  }

  lemma AllZeroStep(l: Layout, b1: seq<Byte>, b2: seq<Byte>, s: seq<int>, c: int)
    requires OnVolume(l, b1) && 2 <= c < l.clusters && OnlyCluster(l, b1, b2, c)
    requires Clusters(l, s) && AllZero(l, b1, s) && c !in s && ClusterData(l, b2, c) == Zeros(l.bpc)
    ensures AllZero(l, b2, s + [c])
  {
    forall i | 0 <= i < |s| ensures ClusterData(l, b2, s[i]) == Zeros(l.bpc) {
      OnlyClusterFrame(l, b1, b2, c, s[i]);
    }
  }

  /** What the allocation loop maintains about the disk. */
  ghost predicate DiskReady(l: Layout, b0: seq<Byte>, b: seq<Byte>, t0: Table, news: seq<int>) {
    && OnVolume(l, b0) && OnVolume(l, b) && |t0| == l.entries && Clusters(l, news)
    && CopiesHold(l, b, t0) && DataKept(l, b0, b, t0, []) && AllZero(l, b, news)
  }

  lemma DiskReadyStep(l: Layout, b0: seq<Byte>, b1: seq<Byte>, b2: seq<Byte>, t0: Table, news: seq<int>, c: int)
    requires DiskReady(l, b0, b1, t0, news) && 2 <= c < l.clusters && c !in news && t0[c] == 0
    requires OnlyCluster(l, b1, b2, c)
    ensures DataKept(l, b0, b2, t0, [])
    ensures ClusterData(l, b2, c) == Zeros(l.bpc) ==> DiskReady(l, b0, b2, t0, news + [c])
  {
    DataKeptStep(l, b0, b1, b2, t0, [], c);
    OnlyClusterKeepsTables(l, b1, b2, c, t0);
    if ClusterData(l, b2, c) == Zeros(l.bpc) {
      AllZeroStep(l, b1, b2, news, c);
    }
  }

  /** One round of the allocation loop: find, zero and link the next free cluster. */
  method TakeNext(cache: Cache, last: nat, prev: nat, from: nat, lo: nat, hi: nat,
                  ghost b0: seq<Byte>, ghost t0: Table, ghost news: seq<int>) returns (ok: bool, free: nat)
    requires cache.Valid() && DiskReady(cache.layout, b0, cache.dev.bytes, t0, news)
    requires Allocating(t0, cache.table[..], cache.dirty[..], cache.layout.clusters, last, news, from, lo, hi)
    requires t0[last] != 0 && |news| < |FreeSet(t0, cache.layout.clusters)|
    requires prev == if news == [] then last else news[|news| - 1]
    modifies cache.table, cache.dirty, cache.dev
    ensures cache.Valid()
    ensures old(cache.dev.faults) <= cache.dev.faults && (ok <==> cache.dev.faults == old(cache.dev.faults))
    ensures DataKept(cache.layout, b0, cache.dev.bytes, t0, [])
    ensures !ok ==> cache.table[..] == old(cache.table[..])
    ensures ok ==> DiskReady(cache.layout, b0, cache.dev.bytes, t0, news + [free])
    ensures ok ==> Allocating(t0, cache.table[..], cache.dirty[..], cache.layout.clusters, last, news + [free], free + 1,
                              if free < lo then free else lo, if free > hi then free else hi)
  {
    var l := cache.layout;
    free := cache.FindFree(from);
    ghost var t1, d1, b1 := cache.table[..], cache.dirty[..], cache.dev.bytes;
    SearchSame(t0, t1, d1, l.clusters, last, news, from, lo, hi, free);
    ok := WriteCluster(cache, free, Zeros(l.bpc));
    DiskReadyStep(l, b0, b1, cache.dev.bytes, t0, news, free);
    if !ok {
      return;
    }
    var done := cache.UpdateCluster(free, END_OF_CHAIN);
    done := cache.UpdateCluster(prev, free);
    AllocateOne(t0, t1, cache.table[..], d1, cache.dirty[..], l.clusters, last, news, from, lo, hi, prev, free);
  }

  /** Writes the extended chain out; if that fails, takes the extension back. */
  method CommitRun(cache: Cache, last: nat, origTail: U16, from: nat, lo: nat, hi: nat,
                   ghost b0: seq<Byte>, ghost t0: Table, ghost news: seq<int>) returns (ok: bool)
    requires cache.Valid() && DiskReady(cache.layout, b0, cache.dev.bytes, t0, news)
    requires Allocating(t0, cache.table[..], cache.dirty[..], cache.layout.clusters, last, news, from, lo, hi)
    requires ValidCluster(cache.layout.clusters, last) && t0[last] == origTail != 0
    modifies cache.table, cache.dirty, cache.dev
    ensures cache.Valid()
    ensures old(cache.dev.faults) <= cache.dev.faults && (ok <==> cache.dev.faults == old(cache.dev.faults))
    ensures DataKept(cache.layout, b0, cache.dev.bytes, t0, [])
    ensures !ok && !TailDangles(t0, cache.layout.clusters, last) ==> cache.table[..] == t0
    ensures ok ==> cache.Synced() && cache.table[..] == old(cache.table[..]) && AllZero(cache.layout, cache.dev.bytes, news)
  {
    var l := cache.layout;
    ghost var t1, b1 := cache.table[..], cache.dev.bytes;
    ok := cache.FlushRange(lo, hi, t0);
    DataKeptFlush(l, b0, b1, cache.dev.bytes, t0, []);
    if ok {
      forall k | 0 <= k < |news| ensures ClusterData(l, cache.dev.bytes, news[k]) == Zeros(l.bpc) {
        TablesOnly(l, b1, cache.dev.bytes, news[k]);
      }
    } else {
      cache.UnwindChain(last, origTail);
      UnwindLinked(t0, t1, l.clusters, last, news);
      ghost var b2 := cache.dev.bytes;
      var again := cache.FlushCache(lo, hi);
      DataKeptFlush(l, b0, b2, cache.dev.bytes, t0, []);
    }
  }

  /** Appends `needed` clusters after `last`: the lowest free ones, in ascending order, zeroed, or none
      at all. A zeroing or flush failure puts every entry back. The search never runs out, because
      the free clusters were counted beforehand. */
  method AllocateRun(cache: Cache, last: nat, needed: nat) returns (ok: bool, ghost news: seq<int>)
    requires cache.Valid() && cache.Synced() && ValidCluster(cache.layout.clusters, last)
    requires cache.table[last] != 0 && 0 < needed <= |FreeSet(cache.table[..], cache.layout.clusters)|
    modifies cache.table, cache.dirty, cache.dev
    ensures cache.Valid()
    ensures old(cache.dev.faults) <= cache.dev.faults && (ok <==> cache.dev.faults == old(cache.dev.faults))
    ensures DataKept(cache.layout, old(cache.dev.bytes), cache.dev.bytes, old(cache.table[..]), [])
    ensures !ok && !TailDangles(old(cache.table[..]), cache.layout.clusters, last) ==> cache.table[..] == old(cache.table[..])
    ensures ok ==>
      && cache.Synced() && |news| == needed && Clusters(cache.layout, news)
      && LowestFree(old(cache.table[..]), cache.layout.clusters, news)
      && Extended(old(cache.table[..]), cache.table[..], last, news)
      && AllZero(cache.layout, cache.dev.bytes, news)
  {
    hide DataKept, CopiesHold, FreeSet, Allocating, DiskReady, Extended, AllZero, LowestFree, Clusters;
    ghost var b0, t0 := cache.dev.bytes, cache.table[..];
    AllocationStart(cache.layout, b0, t0, cache.dirty[..], last);
    news := [];
    var origTail := cache.table[last];
    ok := cache.dev.Acquire();
    if !ok {
      return;
    }
    var prev, searchFrom, min, max := last, 2, last, last;
    var i := 0;
    while i < needed
      invariant 0 <= i <= needed && i == |news|
      invariant cache.Valid() && cache.dev.faults == old(cache.dev.faults)
      invariant Allocating(t0, cache.table[..], cache.dirty[..], cache.layout.clusters, last, news, searchFrom, min, max)
      invariant prev == if news == [] then last else news[|news| - 1]
      invariant DiskReady(cache.layout, b0, cache.dev.bytes, t0, news)
    {
      ghost var t1 := cache.table[..];
      AllocationParts(cache.layout, b0, cache.dev.bytes, t0, t1, cache.dirty[..], last, news, searchFrom, min, max);
      var free;
      ok, free := TakeNext(cache, last, prev, searchFrom, min, max, b0, t0, news);
      if !ok {
        cache.UnwindChain(last, origTail);
        UndoneRun(cache.layout, t0, t1, last, news);
        return;
      }
      searchFrom := free + 1;
      min := if free < min then free else min;
      max := if free > max then free else max;
      prev := free;
      news := news + [free];
      i := i + 1;
    }
    AllocationParts(cache.layout, b0, cache.dev.bytes, t0, cache.table[..], cache.dirty[..], last, news, searchFrom, min, max);
    ok := CommitRun(cache, last, origTail, searchFrom, min, max, b0, t0, news);
  }

  lemma AllocationStart(l: Layout, b: seq<Byte>, t: Table, d: seq<bool>, last: int)
    requires OnVolume(l, b) && |t| == |d| == l.entries && ValidCluster(l.clusters, last) && CopiesHold(l, b, t)
    requires forall c | 0 <= c < |d| :: !d[c]
    ensures DataKept(l, b, b, t, []) && DiskReady(l, b, b, t, []) && Allocating(t, t, d, l.clusters, last, [], 2, last, last)
  {
  }

  lemma AllocationParts(l: Layout, b0: seq<Byte>, b: seq<Byte>, t0: Table, t: Table, d: seq<bool>, last: int, news: seq<int>,
                        from: int, lo: int, hi: int)
    requires DiskReady(l, b0, b, t0, news) && Allocating(t0, t, d, l.clusters, last, news, from, lo, hi)
    ensures LowestFree(t0, l.clusters, news) && Extended(t0, t, last, news) && Clusters(l, news) && AllZero(l, b, news)
    ensures DataKept(l, b0, b, t0, [])
  {
  }

  /** Where the old tail does not dangle, taking a run back restores the table. */
  lemma UndoneRun(l: Layout, t0: Table, t: Table, last: int, news: seq<int>)
    requires l.Sound() && l.clusters <= |t0| && ValidCluster(l.clusters, last) && t0[last] != 0 && Clusters(l, news)
    requires LowestFree(t0, l.clusters, news) && Extended(t0, t, last, news)
    ensures !TailDangles(t0, l.clusters, last) ==> Unwind(t, l.clusters, last, t0[last]) == t0
  {
    UnwindLinked(t0, t, l.clusters, last, news);
  }

  // ---------------------------------------------------------------- extending and shrinking a file

  /** The chain of a file, when its first cluster is a cluster at all. */
  ghost predicate FileChain(cache: Cache, start: int, size: nat, s: seq<int>)
    requires cache.Valid()
    reads cache.dev, cache.table
  {
    && EndMarked(cache.table[..], cache.layout.clusters, s) && s[0] == start
    && Fits(cache.layout.bpc, |s|, size)
  }

  lemma ChainFits(l: Layout, t: Table, s: seq<int>)
    requires l.Sound() && IsChain(t, l.clusters, s)
    ensures Clusters(l, s) && Distinct(s) && |s| * l.bpc + l.bpc <= TWO32
  {
    assert forall i | 0 <= i < |s| :: ValidCluster(l.clusters, s[i]);
    ChainDistinct(t, l.clusters, s);
    DistinctBound(l.clusters, s);
    MulLe(|s|, l.clusters - 2, l.bpc);
  }

  lemma ExtendedData(l: Layout, b0: seq<Byte>, b1: seq<Byte>, b2: seq<Byte>, t0: Table, s: seq<int>, news: seq<int>, size: nat, newSize: nat)
    requires OnVolume(l, b0) && OnVolume(l, b1) && OnVolume(l, b2) && Clusters(l, s) && Clusters(l, news) && l.clusters <= |t0|
    requires ZeroExtended(ChainData(l, b0, s), ChainData(l, b1, s), size, newSize)
    requires RestKept(ChainData(l, b0, s), ChainData(l, b1, s), size, newSize)
    requires DataKept(l, b1, b2, t0, []) && (forall i | 0 <= i < |s| :: t0[s[i]] != 0) && AllZero(l, b2, news)
    ensures ZeroExtended(ChainData(l, b0, s), ChainData(l, b2, s + news), size, newSize)
    ensures RestKept(ChainData(l, b0, s), ChainData(l, b2, s + news), size, newSize)
  {
    ChainDataSame(l, b1, b2, s);
    ChainDataConcat(l, b2, s, news);
    ZeroChain(l, b2, news);
  }

  function Needed(bpc: nat, len: nat, newSize: nat): (r: nat)
    requires 0 < bpc
  {
    var k := ClusterCount(bpc, newSize);
    if k <= len then 0 else k - len
  }

  /** `fat_extend_cluster_chain`: all or nothing on the table, and new bytes read as zero. */
  method ExtendChain(cache: Cache, start: nat, oldSize: nat, newSize: nat, ghost s: seq<int>) returns (r: int, ghost news: seq<int>)
    requires cache.Valid() && cache.Synced() && oldSize < TWO32 && newSize < TWO32
    requires ValidCluster(cache.layout.clusters, start) ==> FileChain(cache, start, oldSize, s)
    modifies cache.table, cache.dirty, cache.dev
    ensures cache.Valid() && old(cache.dev.faults) <= cache.dev.faults
    ensures r < 0 ==> cache.table[..] == old(cache.table[..]) && news == []
    ensures r >= 0 ==> cache.dev.faults == old(cache.dev.faults)
    ensures newSize <= oldSize ==> r == 0
    ensures !ValidCluster(cache.layout.clusters, start) || newSize <= oldSize ==>
              cache.table[..] == old(cache.table[..]) && cache.dev.bytes == old(cache.dev.bytes) && cache.Synced() && news == []
    ensures !ValidCluster(cache.layout.clusters, start) && oldSize < newSize ==> r == -1
    ensures ValidCluster(cache.layout.clusters, start) ==>
              DataKept(cache.layout, old(cache.dev.bytes), cache.dev.bytes, old(cache.table[..]), s)
    ensures ValidCluster(cache.layout.clusters, start) && oldSize < newSize && cache.dev.faults == old(cache.dev.faults) ==>
      var need, t0 := Needed(cache.layout.bpc, |s|, newSize), old(cache.table[..]);
      && cache.Synced() && Clusters(cache.layout, s) && Clusters(cache.layout, news)
      && LowestFree(t0, cache.layout.clusters, news) && Extended(t0, cache.table[..], s[|s| - 1], news)
      && (r < 0 <==> need > |FreeSet(t0, cache.layout.clusters)|)
      && (r >= 0 ==> r == |news| == need)
      && ZeroExtended(ChainData(cache.layout, old(cache.dev.bytes), s),
                      ChainData(cache.layout, cache.dev.bytes, s + news), oldSize, if r < 0 then oldSize else newSize)
      && (r >= 0 ==> RestKept(ChainData(cache.layout, old(cache.dev.bytes), s),
                              ChainData(cache.layout, cache.dev.bytes, s + news), oldSize, newSize))
  {
    hide LowestFree, DataKept, AllZero, CopiesHold, ClusterCount, Distinct, OffTablesSame, FreeSet, ChainData, ClusterData;
    var l := cache.layout;
    news := [];
    var oldClusters := ClusterCount(l.bpc, oldSize);
    var newClusters := ClusterCount(l.bpc, newSize);
    if oldClusters == 0 {
      oldClusters := 1;
    }
    if newSize <= oldSize {
      if ValidCluster(l.clusters, start) {
        DataKeptSame(l, cache.dev.bytes, cache.table[..], s);
      }
      return 0, [];
    }
    if !ValidCluster(l.clusters, start) {
      return -1, [];
    }
    ghost var b0, t0 := cache.dev.bytes, cache.table[..];
    ChainFits(l, t0, s);
    CountFits(l.bpc, oldSize, |s|);
    FreeApart(t0, l.clusters, s, []);
    assert s + [] == s;
    var last := WalkChain(cache, start, oldClusters, s);
    assert ValidCluster(l.clusters, s[|s| - 1]);
    var ok := ZeroGap(cache, last, oldSize, newSize, s);
    ghost var b1 := cache.dev.bytes;
    NothingYet(l, b0, t0, last);
    DataKeptFrom(l, b0, b1, t0, s, last);
    OnlyClusterKeepsTables(l, b0, b1, last, t0);
    if !ok {
      return -1, [];
    }
    if newClusters <= oldClusters {
      return 0, [];
    }
    var needed := newClusters - oldClusters;
    var free := cache.FreeClusters();
    if needed > free {
      return -1, [];
    }
    ok, news := AllocateRun(cache, last, needed);
    DataKeptTrans(l, b0, b1, cache.dev.bytes, t0, s);
    if !ok {
      return -1, [];
    }
    ExtendedData(l, b0, b1, cache.dev.bytes, t0, s, news, oldSize, newSize);
    return needed, news;
  }

  lemma CutByFreeing(t0: Table, n: nat, s: seq<int>, k: nat)
    requires IsChain(t0, n, s) && 1 <= k <= |s| && n <= 0xFFF6
    ensures var t1 := t0[s[k - 1] := END_OF_CHAIN];
            Cut(t0, FreeFrom(t1, n, t0[s[k - 1]]), s, k) && FreeSteps(t1, n, t0[s[k - 1]]) == |s| - k
  {
    var t1 := t0[s[k - 1] := END_OF_CHAIN];
    ChainDistinct(t0, n, s);
    assert ValidCluster(n, s[k - 1]);
    if k < |s| {
      assert t0[s[k - 1]] == s[k];
      var rest := s[k..];
      ChainTail(t0, n, s, k);
      assert s[k - 1] !in rest;
      LinkedFrame(t0, t1, n, rest);
      FreeFromChain(t1, n, rest);
      FreeStepsChain(t1, n, rest);
    }
  }

  lemma FitsMonotone(bpc: nat, k: nat, len: nat, size: nat, oldSize: nat)
    requires 0 < bpc && Fits(bpc, k, size) && Fits(bpc, len, oldSize) && size < oldSize
    ensures k <= len
  {
  }

  /** How many clusters a smaller size keeps. */
  function Kept(bpc: nat, size: nat): (k: nat)
    requires 0 < bpc
  {
    var c := ClusterCount(bpc, size);
    if c == 0 then 1 else c
  }

  lemma KeptFits(l: Layout, t: Table, s: seq<int>, oldSize: nat, newSize: nat)
    requires l.Sound() && IsChain(t, l.clusters, s) && Fits(l.bpc, |s|, oldSize) && newSize < oldSize
    ensures Kept(l.bpc, oldSize) == |s| && 1 <= Kept(l.bpc, newSize) <= |s|
    ensures Fits(l.bpc, Kept(l.bpc, newSize), newSize)
  {
    ChainFits(l, t, s);
    CountFits(l.bpc, oldSize, |s|);
    CountFits(l.bpc, newSize, Kept(l.bpc, newSize));
    FitsMonotone(l.bpc, Kept(l.bpc, newSize), |s|, newSize, oldSize);
  }

  /** `fat_shrink_cluster_chain`: keeps the clusters the new size needs, at least one, and frees the rest. */
  method ShrinkChain(cache: Cache, start: nat, oldSize: nat, newSize: nat, ghost s: seq<int>) returns (r: int)
    requires cache.Valid() && cache.Synced() && newSize < oldSize < TWO32
    requires ValidCluster(cache.layout.clusters, start) ==> FileChain(cache, start, oldSize, s)
    modifies cache.table, cache.dirty, cache.dev
    ensures cache.Valid() && old(cache.dev.faults) <= cache.dev.faults
    ensures OffTablesSame(cache.layout, old(cache.dev.bytes), cache.dev.bytes)
    ensures !ValidCluster(cache.layout.clusters, start) ==>
              r == -1 && cache.table[..] == old(cache.table[..]) && cache.Synced() && cache.dev.faults == old(cache.dev.faults)
    ensures ValidCluster(cache.layout.clusters, start) && cache.dev.faults == old(cache.dev.faults) ==>
      var k := Kept(cache.layout.bpc, newSize);
      && cache.Synced() && 1 <= k <= |s| && r == |s| - k
      && ((cache.table[..] == old(cache.table[..]) && k == |s|) || Cut(old(cache.table[..]), cache.table[..], s, k))
  {
    var l := cache.layout;
    if !ValidCluster(l.clusters, start) {
      return -1;
    }
    var oldClusters := ClusterCount(l.bpc, oldSize);
    var newClusters := ClusterCount(l.bpc, newSize);
    ghost var t0, k := cache.table[..], Kept(l.bpc, newSize);
    KeptFits(l, t0, s, oldSize, newSize);
    if newClusters >= oldClusters {
      return 0;
    }
    var cur := WalkChain(cache, start, newClusters, s);
    assert cur == s[k - 1] && ValidCluster(l.clusters, s[k - 1]);
    r := CutAfter(cache, cur, s, k);
  }

  method CutAfter(cache: Cache, cur: nat, ghost s: seq<int>, ghost k: nat) returns (r: int)
    requires cache.Valid() && cache.Synced() && IsChain(cache.table[..], cache.layout.clusters, s)
    requires 1 <= k <= |s| && cur == s[k - 1] && cur < cache.layout.clusters
    modifies cache.table, cache.dirty, cache.dev
    ensures cache.Valid() && old(cache.dev.faults) <= cache.dev.faults
    ensures OffTablesSame(cache.layout, old(cache.dev.bytes), cache.dev.bytes)
    ensures Cut(old(cache.table[..]), cache.table[..], s, k)
    ensures if cache.dev.faults == old(cache.dev.faults) then cache.Synced() && r == |s| - k else r == -1
  {
    ghost var t0 := cache.table[..];
    var toFree := cache.table[cur];
    var ok := cache.UpdateCluster(cur, END_OF_CHAIN);
    CutByFreeing(t0, cache.layout.clusters, s, k);
    var freed, min, max := cache.FreeChain(toFree, cur, cur, t0);
    ok := cache.FlushRange(min, max, t0);
    r := if ok then freed else -1;
  }
}
