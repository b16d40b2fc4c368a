/** File contents as the bytes of a cluster chain. */
module FatData {
  import opened Sequences
  import opened Machine
  import opened FatLayout
  import opened FatTable
  import opened FatCache

  ghost predicate OnVolume(l: Layout, b: seq<Byte>) {
    l.Sound() && l.size <= |b|
  }

  function ClusterData(l: Layout, b: seq<Byte>, c: int): (r: seq<Byte>)
    requires OnVolume(l, b) && 2 <= c < l.clusters
    ensures |r| == l.bpc
  {
    b[l.clusterAddr[c]..l.clusterAddr[c] + l.bpc]
  }

  ghost predicate Clusters(l: Layout, s: seq<int>) {
    forall i | 0 <= i < |s| :: 2 <= s[i] < l.clusters
  }

  /** The bytes of the clusters of `s`, in chain order. */
  function ChainData(l: Layout, b: seq<Byte>, s: seq<int>): (r: seq<Byte>)
    requires OnVolume(l, b) && Clusters(l, s)
    ensures |r| == |s| * l.bpc
  {
    if s == [] then []
    else
      var k := |s| - 1;
      ChainData(l, b, s[..k]) + ClusterData(l, b, s[k])
  }

  // ---------------------------------------------------------------- frames

  ghost predicate SameData(l: Layout, b0: seq<Byte>, b: seq<Byte>, s: seq<int>)
    requires OnVolume(l, b0) && OnVolume(l, b) && Clusters(l, s)
  {
    forall i | 0 <= i < |s| :: ClusterData(l, b, s[i]) == ClusterData(l, b0, s[i])
  }

  lemma {:induction false} ChainDataSame(l: Layout, b0: seq<Byte>, b: seq<Byte>, s: seq<int>)
    requires OnVolume(l, b0) && OnVolume(l, b) && Clusters(l, s) && SameData(l, b0, b, s)
    ensures ChainData(l, b, s) == ChainData(l, b0, s)
  {
    if s != [] {
      ChainDataSame(l, b0, b, s[..|s| - 1]);
    }
  }

  lemma {:induction false} ChainDataConcat(l: Layout, b: seq<Byte>, s: seq<int>, u: seq<int>)
    requires OnVolume(l, b) && Clusters(l, s) && Clusters(l, u)
    ensures ChainData(l, b, s + u) == ChainData(l, b, s) + ChainData(l, b, u)
  {
    hide OnVolume, ClusterData, ChainData;
    ChainDataNone(l, b);
    if u == [] {
      assert s + u == s;
    } else {
      var k := |u| - 1;
      assert (s + u)[..|s| + k] == s + u[..k];
      ChainDataConcat(l, b, s, u[..k]);
      ChainDataLast(l, b, s + u);
      ChainDataLast(l, b, u);
      assert ChainData(l, b, s) + (ChainData(l, b, u[..k]) + ClusterData(l, b, u[k])) ==
             ChainData(l, b, s) + ChainData(l, b, u[..k]) + ClusterData(l, b, u[k]);
    }
  }

  lemma ChainDataNone(l: Layout, b: seq<Byte>)
    requires OnVolume(l, b)
    ensures ChainData(l, b, []) == []
  {
  }

  lemma ChainDataLast(l: Layout, b: seq<Byte>, s: seq<int>)
    requires OnVolume(l, b) && Clusters(l, s) && s != []
    ensures ChainData(l, b, s) == ChainData(l, b, s[..|s| - 1]) + ClusterData(l, b, s[|s| - 1])
  {
  }

  /** The bytes of cluster number `i` of a chain sit at `i` times the cluster size. */
  lemma ChainDataAt(l: Layout, b: seq<Byte>, s: seq<int>, i: nat)
    requires OnVolume(l, b) && Clusters(l, s) && i < |s|
    ensures 0 <= i * l.bpc && i * l.bpc + l.bpc <= |s| * l.bpc
    ensures ChainData(l, b, s)[i * l.bpc..i * l.bpc + l.bpc] == ClusterData(l, b, s[i])
  {
    hide OnVolume, ClusterData, ChainData;
    MulStep(i, |s|, l.bpc);
    var p, q := s[..i], s[i + 1..];
    assert s == p + [s[i]] + q;
    ChainDataConcat(l, b, p + [s[i]], q);
    ChainDataConcat(l, b, p, [s[i]]);
    assert [s[i]][..0] == [];
    ChainDataNone(l, b);
    ChainDataLast(l, b, [s[i]]);
  }

  /** `b` is `b0` after a write that is confined to cluster `c`. */
  ghost predicate OnlyCluster(l: Layout, b0: seq<Byte>, b: seq<Byte>, c: int)
    requires OnVolume(l, b0) && 2 <= c < l.clusters
  {
    && |b| == |b0|
    && (forall k | 0 <= k < |b| && !(l.clusterAddr[c] <= k < l.clusterAddr[c] + l.bpc) :: b[k] == b0[k])
  }

  lemma OnlyClusterFrame(l: Layout, b0: seq<Byte>, b: seq<Byte>, c: int, d: int)
    requires OnVolume(l, b0) && 2 <= c < l.clusters && OnlyCluster(l, b0, b, c)
    requires 2 <= d < l.clusters && d != c
    ensures ClusterData(l, b, d) == ClusterData(l, b0, d)
  {
    assert if c < d then l.clusterAddr[c] + l.bpc <= l.clusterAddr[d] else l.clusterAddr[d] + l.bpc <= l.clusterAddr[c];
  }

  lemma OnlyClusterKeepsTables(l: Layout, b0: seq<Byte>, b: seq<Byte>, c: int, t: Table)
    requires OnVolume(l, b0) && 2 <= c < l.clusters && OnlyCluster(l, b0, b, c)
    requires CopiesHold(l, b0, t)
    ensures CopiesHold(l, b, t)
  {
    forall i, o | 0 <= i < |l.fatAddr| && 0 <= o < 2 * l.entries
      ensures CopyByte(l, b, i, o) == TableByte(t, o)
    {
      assert l.fatAddr[i] + 2 * l.entries <= l.clusterAddr[c];
      assert CopyByte(l, b0, i, o) == TableByte(t, o);
    }
  }

  /** Flushing the table leaves every cluster alone. */
  lemma TablesOnly(l: Layout, b0: seq<Byte>, b: seq<Byte>, c: int)
    requires OnVolume(l, b0) && OffTablesSame(l, b0, b) && 2 <= c < l.clusters
    ensures ClusterData(l, b, c) == ClusterData(l, b0, c)
  {
    forall k | l.clusterAddr[c] <= k < l.clusterAddr[c] + l.bpc ensures b[k] == b0[k] {
      assert forall i | 0 <= i < |l.fatAddr| :: l.fatAddr[i] + 2 * l.entries <= l.clusterAddr[c];
    }
  }

  lemma SpliceMiddle(x: seq<Byte>, m: seq<Byte>, m': seq<Byte>, y: seq<Byte>)
    requires |m'| == |m|
    ensures Splice(x + m + y, |x|, m') == x + m' + y
  {
  }

  lemma OtherClustersSame(l: Layout, b0: seq<Byte>, b: seq<Byte>, c: int, s: seq<int>)
    requires OnVolume(l, b0) && 2 <= c < l.clusters && OnlyCluster(l, b0, b, c)
    requires Clusters(l, s) && c !in s
    ensures ChainData(l, b, s) == ChainData(l, b0, s)
  {
    forall j | 0 <= j < |s| ensures ClusterData(l, b, s[j]) == ClusterData(l, b0, s[j]) {
      OnlyClusterFrame(l, b0, b, c, s[j]);
    }
    ChainDataSame(l, b0, b, s);
  }

  /** Changing cluster number `i` of a chain of distinct clusters changes that part of its bytes. */
  lemma ChainWrite(l: Layout, b0: seq<Byte>, b: seq<Byte>, s: seq<int>, i: nat)
    requires OnVolume(l, b0) && Clusters(l, s) && Distinct(s) && i < |s|
    requires OnlyCluster(l, b0, b, s[i])
    ensures i * l.bpc + l.bpc <= |s| * l.bpc
    ensures ChainData(l, b, s) == Splice(ChainData(l, b0, s), i * l.bpc, ClusterData(l, b, s[i]))
  {
    MulStep(i, |s|, l.bpc);
    var p, q := s[..i], s[i + 1..];
    assert s == p + [s[i]] + q;
    OtherClustersSame(l, b0, b, s[i], p);
    OtherClustersSame(l, b0, b, s[i], q);
    ChainDataSplit(l, b0, p, s[i], q);
    ChainDataSplit(l, b, p, s[i], q);
    SpliceMiddle(ChainData(l, b0, p), ClusterData(l, b0, s[i]), ClusterData(l, b, s[i]), ChainData(l, b0, q));
  }

  lemma ChainDataSplit(l: Layout, b: seq<Byte>, p: seq<int>, c: int, q: seq<int>)
    requires OnVolume(l, b) && Clusters(l, p) && Clusters(l, q) && 2 <= c < l.clusters
    ensures Clusters(l, p + [c] + q)
    ensures ChainData(l, b, p + [c] + q) == ChainData(l, b, p) + ClusterData(l, b, c) + ChainData(l, b, q)
  {
    ChainDataConcat(l, b, p + [c], q);
    ChainDataConcat(l, b, p, [c]);
    assert [c][..0] == [];
    assert ChainData(l, b, [c]) == ClusterData(l, b, c);
  }

  lemma {:induction false} ZeroChain(l: Layout, b: seq<Byte>, s: seq<int>)
    requires OnVolume(l, b) && Clusters(l, s)
    requires forall i | 0 <= i < |s| :: ClusterData(l, b, s[i]) == Zeros(l.bpc)
    ensures forall k | 0 <= k < |s| * l.bpc :: ChainData(l, b, s)[k] == 0
  {
    if s != [] {
      ZeroChain(l, b, s[..|s| - 1]);
    }
  }

  // ---------------------------------------------------------------- sizes

  /** The number of clusters the driver computes for a size, in 32-bit arithmetic. */
  function ClusterCount(bpc: nat, size: nat): (r: nat)
    requires 0 < bpc
  {
    (size + bpc - 1) % TWO32 / bpc
  }

  /** `len` clusters are what a file of `size` bytes owns: as few as hold it, and at least one. */
  predicate Fits(bpc: nat, len: nat, size: nat) {
    && 1 <= len
    && size <= len * bpc
    && (len == 1 || (len - 1) * bpc < size)
  }

  lemma DivUnique(a: nat, k: nat, q: nat)
    requires 0 < k && q * k <= a < q * k + k
    ensures a / k == q && a % k == a - q * k
  {
    var p := a / k;
    assert p * k <= a < p * k + k;
    if p < q {
      MulStep(p, q, k);
    } else if q < p {
      MulStep(q, p, k);
    }
  }

  /** Without wrap-around the computed count, raised to one, is exactly what fits. */
  lemma CountFits(bpc: nat, size: nat, len: nat)
    requires 0 < bpc && size + bpc <= TWO32
    ensures Fits(bpc, len, size) <==> len == (if ClusterCount(bpc, size) == 0 then 1 else ClusterCount(bpc, size))
  {
    var q := ClusterCount(bpc, size);
    assert (size + bpc - 1) % TWO32 == size + bpc - 1;
    assert q * bpc <= size + bpc - 1 < q * bpc + bpc;
    if size == 0 {
      DivUnique(bpc - 1, bpc, 0);
      if len > 1 {
        MulLe(1, len - 1, bpc);
      }
    } else {
      assert size <= q * bpc;
      assert q > 0;
      assert (q - 1) * bpc == q * bpc - bpc;
      if Fits(bpc, len, size) {
        if len < q {
          MulLe(len, q - 1, bpc);
        } else if len > q {
          MulLe(q, len - 1, bpc);
        }
      }
    }
  }

  /** Near the top of the 32-bit range the count wraps to zero: the driver would take such a size for
      an empty file, which is why `fs_truncate` bounds sizes by the volume first. */
  lemma CountWraps(bpc: nat, size: nat)
    requires 0 < bpc <= TWO32 && size < TWO32
    ensures size + bpc > TWO32 ==> ClusterCount(bpc, size) == 0
  {
  }

  /** Where the end of a file lies in its last cluster. */
  lemma TailOffset(bpc: nat, len: nat, size: nat)
    requires 0 < bpc && Fits(bpc, len, size)
    ensures size % bpc != 0 || size == 0 ==> (len - 1) * bpc + size % bpc == size
    ensures size % bpc == 0 && size != 0 ==> len * bpc == size
  {
    assert (len - 1) * bpc == len * bpc - bpc;
    if size == 0 {
      DivUnique(0, bpc, 0);
      if len > 1 {
        MulLe(0, len - 1, bpc);
      }
    } else if size == len * bpc {
      assert size < len * bpc + bpc;
      DivUnique(size, bpc, len);
    } else {
      assert (len - 1) * bpc <= size;
      if (len - 1) * bpc == size {
        assert len == 1;
      }
      DivUnique(size, bpc, len - 1);
    }
  }

  // ---------------------------------------------------------------- byte-string operations

  /** What growing or shrinking a byte string to `size` means: keep the prefix, pad with zeros. */
  function Resized(s: seq<Byte>, size: nat): (r: seq<Byte>)
    ensures |r| == size
  {
    if size <= |s| then s[..size] else s + Zeros(size - |s|)
  }

  /** `data` written at `offset`; a gap beyond the old end reads as zeros. */
  function Overwritten(s: seq<Byte>, offset: nat, data: seq<Byte>): (r: seq<Byte>)
    ensures |r| == if offset + |data| > |s| then offset + |data| else |s|
  {
    var w := if offset + |data| > |s| then Resized(s, offset + |data|) else s;
    Splice(w, offset, data)
  }

  /** `d` begins with the first `size` bytes of `d0` and is zero from there up to `upto`. */
  ghost predicate ZeroExtended(d0: seq<Byte>, d: seq<Byte>, size: nat, upto: nat) {
    && size <= |d0| && size <= |d|
    && d[..size] == d0[..size]
    && (forall k | size <= k < upto && k < |d| :: d[k] == 0)
  }

  /** Behind `upto` the bytes of `d` are those of `d0`, and zeros where `d0` has ended; an empty file starts on a cleared
      cluster. */
  ghost predicate RestKept(d0: seq<Byte>, d: seq<Byte>, size: nat, upto: nat) {
    && |d0| <= |d|
    && (forall k | upto <= k < |d| :: d[k] == if k < |d0| && size > 0 then d0[k] else 0)
  }

  lemma ZeroExtendedIsResized(d0: seq<Byte>, d: seq<Byte>, size: nat, newSize: nat)
    requires ZeroExtended(d0, d, size, newSize) && size <= newSize <= |d|
    ensures d[..newSize] == Resized(d0[..size], newSize)
  {
  }

  /** Writing into the padded bytes of a chain is an overwrite of the file. */
  lemma WriteIsOverwrite(d0: seq<Byte>, d1: seq<Byte>, size: nat, offset: nat, data: seq<Byte>)
    requires ZeroExtended(d0, d1, size, offset) && offset + |data| <= |d1|
    ensures var end := if offset + |data| > size then offset + |data| else size;
            Splice(d1, offset, data)[..end] == Overwritten(d0[..size], offset, data)
  {
  }
}
