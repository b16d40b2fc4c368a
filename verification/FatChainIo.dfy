/** Reading and writing bytes along a cluster chain. */
module FatChainIo {
  import opened Sequences
  import opened Machine
  import opened FatLayout
  import opened FatTable
  import opened FatCache
  import opened FatData
  import opened FatChainOps

  lemma SpliceInner(d: seq<Byte>, at: nat, len: nat, within: nat, chunk: seq<Byte>)
    requires at + len <= |d| && within + |chunk| <= len
    ensures Splice(d, at, Splice(d[at..at + len], within, chunk)) == Splice(d, at + within, chunk)
  {
  }

  lemma SpliceAppend(d: seq<Byte>, off: nat, x: seq<Byte>, y: seq<Byte>)
    requires off + |x| + |y| <= |d|
    ensures Splice(Splice(d, off, x), off + |x|, y) == Splice(d, off, x + y)
  {
  }

  /** Skips whole clusters up to `offset`; fails when the chain ends first. */
  method SkipClusters(cache: Cache, start: nat, offset: nat, ghost s: seq<int>) returns (ok: bool, cur: nat, within: nat, ghost idx: nat)
    requires cache.Valid() && IsChain(cache.table[..], cache.layout.clusters, s) && s[0] == start
    ensures ok <==> offset < |s| * cache.layout.bpc
    ensures ok ==> idx < |s| && cur == s[idx] && within < cache.layout.bpc && offset == idx * cache.layout.bpc + within
  {
    var bpc := cache.layout.bpc;
    cur, within, idx := start, offset, 0;
    while within >= bpc
      invariant 0 <= idx < |s| && cur == s[idx] && offset == idx * bpc + within
      decreases within
    {
      assert ValidCluster(cache.layout.clusters, s[idx]);
      var next := cache.table[cur];
      assert idx < |s| - 1 ==> cache.table[..][s[idx]] == s[idx + 1];
      assert (idx + 1) * bpc == idx * bpc + bpc;
      if !ValidCluster(cache.layout.clusters, next) {
        assert idx == |s| - 1;
        return false, cur, within, idx;
      }
      cur, within, idx := next, within - bpc, idx + 1;
    }
    ok := true;
    MulStep(idx, |s|, bpc);
  }

  datatype WriteOutcome = Written | ReadFailed | WriteFailed

  /** Puts `chunk` into cluster `c` at `within`: a read-modify-write unless the whole cluster is replaced. */
  method PutChunk(cache: Cache, c: nat, within: nat, chunk: seq<Byte>) returns (out: WriteOutcome)
    requires cache.Valid() && 2 <= c < cache.layout.clusters && within + |chunk| <= cache.layout.bpc
    modifies cache.dev
    ensures cache.Valid() && OnlyCluster(cache.layout, old(cache.dev.bytes), cache.dev.bytes, c)
    ensures old(cache.dev.faults) <= cache.dev.faults && (out.Written? <==> cache.dev.faults == old(cache.dev.faults))
    ensures out.Written? ==>
      ClusterData(cache.layout, cache.dev.bytes, c) == Splice(ClusterData(cache.layout, old(cache.dev.bytes), c), within, chunk)
  {
    var l := cache.layout;
    assert l.clusterAddr[c] + l.bpc <= l.size;
    if within > 0 || |chunk| < l.bpc {
      var ok, buf := cache.dev.Read(l.clusterAddr[c], l.bpc);
      if !ok {
        return ReadFailed;
      }
      ok := WriteCluster(cache, c, Splice(buf, within, chunk));
      return if ok then Written else WriteFailed;
    }
    assert Splice(ClusterData(l, cache.dev.bytes, c), within, chunk) == chunk;
    var ok := WriteCluster(cache, c, chunk);
    return if ok then Written else WriteFailed;
  }

  /** Progress of a chain write: `done` bytes of `buf` have replaced what was at `off`. */
  ghost predicate Progress(l: Layout, b0: seq<Byte>, b: seq<Byte>, s: seq<int>, off: nat, buf: seq<Byte>, done: nat) {
    && OnVolume(l, b0) && OnVolume(l, b) && Clusters(l, s) && done <= |buf| && off + done <= |s| * l.bpc
    && ChainData(l, b, s) == Splice(ChainData(l, b0, s), off, buf[..done])
  }

  lemma ProgressStep(l: Layout, b0: seq<Byte>, b1: seq<Byte>, b2: seq<Byte>, s: seq<int>, off: nat, buf: seq<Byte>,
                     done: nat, i: nat, within: nat, k: nat)
    requires Progress(l, b0, b1, s, off, buf, done) && Distinct(s) && i < |s|
    requires off + done == i * l.bpc + within && within + k <= l.bpc && done + k <= |buf|
    requires OnlyCluster(l, b1, b2, s[i])
    requires ClusterData(l, b2, s[i]) == Splice(ClusterData(l, b1, s[i]), within, buf[done..done + k])
    ensures Progress(l, b0, b2, s, off, buf, done + k)
  {
    hide ClusterData, ChainData, OnlyCluster, OnVolume, Distinct, Splice;
    StillOnVolume(l, b1, b2, s[i]);
    MulStep(i, |s|, l.bpc);
    ChainDataAt(l, b1, s, i);
    ChainWrite(l, b1, b2, s, i);
    ProgressBytes(ChainData(l, b0, s), ChainData(l, b1, s), i * l.bpc, l.bpc, within, off, buf, done, k);
  }

  lemma StillOnVolume(l: Layout, b0: seq<Byte>, b: seq<Byte>, c: int)
    requires OnVolume(l, b0) && 2 <= c < l.clusters && OnlyCluster(l, b0, b, c)
    ensures OnVolume(l, b)
  {
  }

  lemma ProgressBytes(d0: seq<Byte>, d1: seq<Byte>, at: nat, len: nat, within: nat, off: nat, buf: seq<Byte>, done: nat, k: nat)
    requires done + k <= |buf| && off + done == at + within && within + k <= len && at + len <= |d0| == |d1|
    requires d1 == Splice(d0, off, buf[..done])
    ensures Splice(d1, at, Splice(d1[at..at + len], within, buf[done..done + k])) == Splice(d0, off, buf[..done + k])
  {
    var chunk := buf[done..done + k];
    SpliceInner(d1, at, len, within, chunk);
    SpliceAppend(d0, off, buf[..done], chunk);
    assert buf[..done] + chunk == buf[..done + k];
  }

  /** What the write loop maintains: position, bytes written so far, and everything else untouched. */
  ghost predicate Writing(l: Layout, b0: seq<Byte>, b: seq<Byte>, t: Table, s: seq<int>, off: nat, buf: seq<Byte>,
                          done: nat, i: nat, within: nat) {
    && Progress(l, b0, b, s, off, buf, done) && Distinct(s) && l.clusters <= |t|
    && i < |s| && within < l.bpc && off + done == i * l.bpc + within
    && DataKept(l, b0, b, t, s)
    && (CopiesHold(l, b0, t) ==> CopiesHold(l, b, t))
  }

  lemma WritingStep(l: Layout, b0: seq<Byte>, b1: seq<Byte>, b2: seq<Byte>, t: Table, s: seq<int>, off: nat, buf: seq<Byte>,
                    done: nat, i: nat, within: nat, k: nat)
    requires Writing(l, b0, b1, t, s, off, buf, done, i, within) && OnlyCluster(l, b1, b2, s[i])
    requires k == (if l.bpc - within > |buf| - done then |buf| - done else l.bpc - within)
    requires ClusterData(l, b2, s[i]) == Splice(ClusterData(l, b1, s[i]), within, buf[done..done + k])
    ensures Progress(l, b0, b2, s, off, buf, done + k) && DataKept(l, b0, b2, t, s)
    ensures CopiesHold(l, b0, t) ==> CopiesHold(l, b2, t)
    ensures i + 1 == |s| ==> done + k == |buf| || off + done + k == |s| * l.bpc
    ensures i + 1 < |s| && done + k < |buf| ==> Writing(l, b0, b2, t, s, off, buf, done + k, i + 1, 0)
  {
    ProgressStep(l, b0, b1, b2, s, off, buf, done, i, within, k);
    DataKeptStep(l, b0, b1, b2, t, s, s[i]);
    if CopiesHold(l, b1, t) {
      OnlyClusterKeepsTables(l, b1, b2, s[i], t);
    }
    assert (i + 1) * l.bpc == i * l.bpc + l.bpc;
  }

  lemma WritingStart(l: Layout, b: seq<Byte>, t: Table, s: seq<int>, buf: seq<Byte>, i: nat, within: nat)
    requires OnVolume(l, b) && Clusters(l, s) && Distinct(s) && l.clusters <= |t| && i < |s| && within < l.bpc
    ensures Writing(l, b, b, t, s, i * l.bpc + within, buf, 0, i, within)
  {
    hide ClusterData, ChainData, OnVolume, CopiesHold, DataKept;
    MulStep(i, |s|, l.bpc);
    DataKeptSame(l, b, t, s);
    var d, off := ChainData(l, b, s), i * l.bpc + within;
    assert Splice(d, off, buf[..0]) == d;
  }

  /** The state after `done` bytes when the loop may stop there. */
  ghost predicate Wrote(l: Layout, b0: seq<Byte>, b: seq<Byte>, t: Table, s: seq<int>, off: nat, buf: seq<Byte>, done: nat) {
    && Progress(l, b0, b, s, off, buf, done) && l.clusters <= |t| && DataKept(l, b0, b, t, s)
    && (CopiesHold(l, b0, t) ==> CopiesHold(l, b, t))
  }

  /** One round of the write loop. */
  method WriteOne(cache: Cache, cur: nat, within: nat, buf: seq<Byte>, done: nat,
                  ghost b0: seq<Byte>, ghost s: seq<int>, ghost off: nat, ghost i: nat) returns (out: WriteOutcome, consumed: nat)
    requires cache.Valid() && done < |buf|
    requires Writing(cache.layout, b0, cache.dev.bytes, cache.table[..], s, off, buf, done, i, within) && cur == s[i]
    modifies cache.dev
    ensures cache.Valid() && old(cache.dev.faults) <= cache.dev.faults
    ensures out.Written? <==> cache.dev.faults == old(cache.dev.faults)
    ensures DataKept(cache.layout, b0, cache.dev.bytes, cache.table[..], s)
    ensures out.Written? ==>
      && 0 < consumed && Wrote(cache.layout, b0, cache.dev.bytes, cache.table[..], s, off, buf, done + consumed)
      && (i + 1 == |s| ==> done + consumed == |buf| || off + done + consumed == |s| * cache.layout.bpc)
      && (i + 1 < |s| && done + consumed < |buf| ==>
            Writing(cache.layout, b0, cache.dev.bytes, cache.table[..], s, off, buf, done + consumed, i + 1, 0))
  {
    var l := cache.layout;
    consumed := if l.bpc - within > |buf| - done then |buf| - done else l.bpc - within;
    var mapped := cache.dev.Acquire();
    if !mapped {
      return WriteFailed, consumed;
    }
    ghost var b1 := cache.dev.bytes;
    out := PutChunk(cache, cur, within, buf[done..done + consumed]);
    DataKeptStep(l, b0, b1, cache.dev.bytes, cache.table[..], s, cur);
    if out.Written? {
      WritingStep(l, b0, b1, cache.dev.bytes, cache.table[..], s, off, buf, done, i, within, consumed);
    }
  }

  /** Writes `buf` from cluster `first` (number `idx` of the chain) on, stopping at the end of the
      chain. Returns the bytes written, or -4 when a cluster could not be read. */
  method WriteClusters(cache: Cache, first: nat, start: nat, buf: seq<Byte>, ghost s: seq<int>, ghost idx: nat) returns (r: int)
    requires cache.Valid() && IsChain(cache.table[..], cache.layout.clusters, s) && Clusters(cache.layout, s) && Distinct(s)
    requires idx < |s| && first == s[idx] && start < cache.layout.bpc
    modifies cache.dev
    ensures cache.Valid() && old(cache.dev.faults) <= cache.dev.faults
    ensures DataKept(cache.layout, old(cache.dev.bytes), cache.dev.bytes, cache.table[..], s)
    ensures r <= |buf| && idx * cache.layout.bpc + start + r <= |s| * cache.layout.bpc
    ensures cache.dev.faults == old(cache.dev.faults) ==>
      var off := idx * cache.layout.bpc + start;
      && 0 <= r && Wrote(cache.layout, old(cache.dev.bytes), cache.dev.bytes, cache.table[..], s, off, buf, r)
      && (r == |buf| || off + r == |s| * cache.layout.bpc)
  {
    hide DataKept, CopiesHold, ChainData, IsChain, Distinct;
    ghost var b0, t, off: nat, i: nat := cache.dev.bytes, cache.table[..], idx * cache.layout.bpc + start, idx;
    var cur: nat, within: nat, done: nat := first, start, 0;
    WritingStart(cache.layout, b0, t, s, buf, idx, start);
    while done < |buf|
      invariant cache.Valid() && cache.dev.faults == old(cache.dev.faults) && 0 <= done <= |buf|
      invariant done < |buf| ==> Writing(cache.layout, b0, cache.dev.bytes, t, s, off, buf, done, i, within) && cur == s[i]
      invariant Wrote(cache.layout, b0, cache.dev.bytes, t, s, off, buf, done)
    {
      var out, consumed := WriteOne(cache, cur, within, buf, done, b0, s, off, i);
      if out.ReadFailed? {
        return -4;
      }
      if out.WriteFailed? {
        break;
      }
      done := done + consumed;
      var next := cache.table[cur];
      NextOnChain(t, cache.layout.clusters, s, i);
      if !ValidCluster(cache.layout.clusters, next) {
        break;
      }
      cur, within, i := next, 0, i + 1;
    }
    return done;
  }

  lemma NextOnChain(t: Table, n: nat, s: seq<int>, i: nat)
    requires IsChain(t, n, s) && i < |s|
    ensures ValidCluster(n, s[i])
    ensures if ValidCluster(n, t[s[i]]) then i + 1 < |s| && t[s[i]] == s[i + 1] else i + 1 == |s|
  {
  }

  /** `fat_read_file_user`: reads at most `size` bytes from `offset` on. -1 stands for a bad chain
      head, an offset past the chain or nothing read at all. */
  method ReadChain(cache: Cache, start: nat, offset: nat, size: nat, ghost s: seq<int>) returns (r: int, data: seq<Byte>)
    requires cache.Valid()
    requires ValidCluster(cache.layout.clusters, start) ==> IsChain(cache.table[..], cache.layout.clusters, s) && s[0] == start
    modifies cache.dev`faults
    ensures cache.Valid() && old(cache.dev.faults) <= cache.dev.faults
    ensures !ValidCluster(cache.layout.clusters, start) ==> r == -1 && data == []
    ensures ValidCluster(cache.layout.clusters, start) && size == 0 ==> r == 0 && data == []
    ensures ValidCluster(cache.layout.clusters, start) && size > 0 && cache.dev.faults == old(cache.dev.faults) ==>
      && Clusters(cache.layout, s)
      && var all := ChainData(cache.layout, cache.dev.bytes, s);
         if offset >= |all| then r == -1 && data == []
         else r == |data| > 0 && data == all[offset..if offset + size > |all| then |all| else offset + size]
  {
    hide Distinct, OffTablesSame, CopiesHold, Dirtied, IsChain, ChainData, ClusterData;
    var l := cache.layout;
    if !ValidCluster(l.clusters, start) {
      return -1, [];
    }
    if size == 0 {
      return 0, [];
    }
    ghost var t := cache.table[..];
    ChainFits(l, t, s);
    ghost var all := ChainData(l, cache.dev.bytes, s);
    var ok, cur, within;
    ghost var i;
    ok, cur, within, i := SkipClusters(cache, start, offset, s);
    if !ok {
      return -1, [];
    }
    ok := cache.dev.Acquire();
    if !ok {
      return -1, [];
    }
    data := [];
    ReadingStart(l, cache.dev.bytes, s, offset, i, within);
    while true
      invariant cache.Valid() && cache.dev.faults == old(cache.dev.faults)
      invariant Reading(l, cache.dev.bytes, s, offset, data, i, within) && cur == s[i] && |data| < size
      decreases |s| - i
    {
      var buf;
      ok, buf := ReadOne(cache, cur, within, size - |data|);
      if !ok {
        break;
      }
      ReadStep(l, cache.dev.bytes, s, offset, data, i, within, buf);
      data := data + buf;
      if |data| >= size {
        break;
      }
      var next := cache.table[cur];
      NextOnChain(t, l.clusters, s, i);
      if !ValidCluster(l.clusters, next) {
        break;
      }
      cur, within, i := next, 0, i + 1;
    }
    r := if |data| > 0 then |data| else -1;
  }

  /** One turn of the read loop: the rest of a cluster, or what is still wanted of it. */
  method ReadOne(cache: Cache, cur: nat, within: nat, want: nat) returns (ok: bool, buf: seq<Byte>)
    requires cache.Valid() && 2 <= cur < cache.layout.clusters && within < cache.layout.bpc && want > 0
    modifies cache.dev`faults
    ensures old(cache.dev.faults) <= cache.dev.faults && (ok <==> cache.dev.faults == old(cache.dev.faults))
    ensures ok ==> |buf| == (if cache.layout.bpc - within > want then want else cache.layout.bpc - within)
    ensures ok ==> buf == ClusterData(cache.layout, cache.dev.bytes, cur)[within..within + |buf|]
  {
    var l := cache.layout;
    var chunk := if l.bpc - within > want then want else l.bpc - within;
    assert l.clusterAddr[cur] + l.bpc <= l.size;
    ok, buf := cache.dev.Read(l.clusterAddr[cur] + within, chunk);
    if ok {
      SliceOfSlice(cache.dev.bytes, l.clusterAddr[cur], l.bpc, within, chunk);
      ok := cache.dev.Acquire();
    }
  }

  lemma SliceOfSlice(all: seq<Byte>, at: nat, len: nat, w: nat, k: nat)
    requires at + len <= |all| && w + k <= len
    ensures all[at..at + len][w..w + k] == all[at + w..at + w + k]
  {
    var x, y := all[at..at + len][w..w + k], all[at + w..at + w + k];
    forall j | 0 <= j < k ensures x[j] == y[j] {
      assert x[j] == all[at..at + len][w + j];
    }
  }

  /** What the read loop maintains: `data` is the slice read so far and ends inside cluster `i`. */
  ghost predicate Reading(l: Layout, b: seq<Byte>, s: seq<int>, offset: nat, data: seq<Byte>, i: nat, within: nat) {
    && OnVolume(l, b) && Clusters(l, s) && i < |s| && within < l.bpc
    && offset + |data| == i * l.bpc + within && offset + |data| < |s| * l.bpc
    && data == ChainData(l, b, s)[offset..offset + |data|]
  }

  lemma ReadingStart(l: Layout, b: seq<Byte>, s: seq<int>, offset: nat, i: nat, within: nat)
    requires OnVolume(l, b) && Clusters(l, s) && i < |s| && within < l.bpc && offset == i * l.bpc + within
    ensures Reading(l, b, s, offset, [], i, within)
  {
    MulStep(i, |s|, l.bpc);
  }

  lemma ReadStep(l: Layout, b: seq<Byte>, s: seq<int>, offset: nat, data: seq<Byte>, i: nat, within: nat, buf: seq<Byte>)
    requires Reading(l, b, s, offset, data, i, within) && within + |buf| <= l.bpc
    requires buf == ClusterData(l, b, s[i])[within..within + |buf|]
    ensures offset + |data| + |buf| <= |s| * l.bpc
    ensures data + buf == ChainData(l, b, s)[offset..offset + |data| + |buf|]
    ensures within + |buf| == l.bpc && i + 1 < |s| ==> Reading(l, b, s, offset, data + buf, i + 1, 0)
    ensures within + |buf| == l.bpc && i + 1 == |s| ==> offset + |data| + |buf| == |s| * l.bpc
  {
    var all, at := ChainData(l, b, s), i * l.bpc;
    ChainDataAt(l, b, s, i);
    SliceOfSlice(all, at, l.bpc, within, |buf|);
    assert buf == all[offset + |data|..offset + |data| + |buf|];
    assert (i + 1) * l.bpc == at + l.bpc;
    if i + 1 < |s| {
      MulStep(i + 1, |s|, l.bpc);
    }
  }

  /** The first `i` clusters of the chain have been copied. */
  ghost predicate Collected(l: Layout, b: seq<Byte>, s: seq<int>, data: seq<Byte>, i: nat, allocate: nat) {
    && OnVolume(l, b) && Clusters(l, s) && i < |s| && allocate <= |s| * l.bpc
    && |data| == i * l.bpc <= allocate && data <= ChainData(l, b, s)
  }

  lemma CollectStep(l: Layout, b: seq<Byte>, s: seq<int>, data: seq<Byte>, i: nat, allocate: nat)
    requires Collected(l, b, s, data, i, allocate)
    ensures var buf := ClusterData(l, b, s[i]);
            if |data| + l.bpc > allocate then data + buf[..allocate - |data|] == ChainData(l, b, s)[..allocate]
            else if i + 1 < |s| then Collected(l, b, s, data + buf, i + 1, allocate)
            else data + buf == ChainData(l, b, s)[..allocate]
  {
    hide ClusterData, ChainData, OnVolume;
    var buf, all, at := ClusterData(l, b, s[i]), ChainData(l, b, s), i * l.bpc;
    ChainDataAt(l, b, s, i);
    assert (i + 1) * l.bpc == at + l.bpc;
    assert all[..at + l.bpc] == all[..at] + all[at..at + l.bpc] == data + buf;
    if at + l.bpc > allocate {
      assert all[..allocate] == (data + buf)[..allocate] == data + buf[..allocate - at];
    }
  }

  /** The copying loop of `fat_read_file`. */
  method CollectChain(cache: Cache, start: nat, allocate: nat, ghost s: seq<int>) returns (ok: bool, data: seq<Byte>)
    requires cache.Valid() && IsChain(cache.table[..], cache.layout.clusters, s) && s[0] == start
    requires Clusters(cache.layout, s) && allocate <= |s| * cache.layout.bpc
    modifies cache.dev`faults
    ensures cache.Valid() && old(cache.dev.faults) <= cache.dev.faults && (ok <==> cache.dev.faults == old(cache.dev.faults))
    ensures ok ==> data == ChainData(cache.layout, cache.dev.bytes, s)[..allocate]
  {
    var l := cache.layout;
    data := [];
    var c: nat := start;
    ghost var i: nat := 0;
    while true
      invariant cache.Valid() && cache.dev.faults == old(cache.dev.faults)
      invariant Collected(l, cache.dev.bytes, s, data, i, allocate) && c == s[i]
      decreases |s| - i
    {
      NextOnChain(cache.table[..], l.clusters, s, i);
      assert l.clusterAddr[s[i]] + l.bpc <= l.size;
      var buf;
      ok, buf := cache.dev.Read(l.clusterAddr[c], l.bpc);
      if !ok {
        return;
      }
      CollectStep(l, cache.dev.bytes, s, data, i, allocate);
      if |data| + l.bpc > allocate {
        data := data + buf[..allocate - |data|];
        return;
      }
      data := data + buf;
      var next := cache.table[c];
      if !ValidCluster(l.clusters, next) {
        return;
      }
      c, i := next, i + 1;
    }
  }

  /** The cycle test of `fat_read_file`: counts clusters, giving up one past the size of the table. It
      rejects exactly the chains that never end, whatever the table holds. */
  method CountClusters(cache: Cache, start: nat) returns (count: nat)
    requires cache.Valid() && ValidCluster(cache.layout.clusters, start)
    ensures count >= cache.layout.clusters <==> Cyclic(cache.table[..], cache.layout.clusters, start)
    ensures count < cache.layout.clusters ==>
      var s := Trail(cache.table[..], cache.layout.clusters, start, count);
      IsChain(cache.table[..], cache.layout.clusters, s) && s[0] == start
  {
    var n := cache.layout.clusters;
    ghost var t := cache.table[..];
    var c := start;
    count := 1;
    while count <= n
      invariant 1 <= count <= n + 1
      invariant c == Walk(t, n, start, count - 1) && ValidCluster(n, c)
    {
      var next := cache.table[c];
      assert next == Walk(t, n, start, count);
      if !ValidCluster(n, next) {
        TrailIsChain(t, n, start, count);
        ChainDistinct(t, n, Trail(t, n, start, count));
        DistinctBound(n, Trail(t, n, start, count));
        return;
      }
      c := next;
      count := count + 1;
    }
    if !ValidCluster(n, Walk(t, n, start, n - 2)) {
      WalkStuck(t, n, start, n - 2, count - 1);
      assert false;
    }
    LongWalkIsCyclic(t, n, start);
  }
}
