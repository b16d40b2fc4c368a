/** The files of a mounted volume. Each behaves as a byte string of its own. */
module FatVolume {
  import opened Sequences
  import opened Machine
  import opened FatLayout
  import opened FatTable
  import opened FatCache
  import opened FatData
  import opened FatChainOps
  import opened FatChainIo

  /** The part of a directory entry that the driver works with. */
  datatype Entry = Entry(first: U16, size: U32)

  type Files = map<nat, Entry>

  /** Files whose first cluster is a cluster own a chain that starts there and is as long as the
      recorded size needs. */
  ghost predicate FilesMatch(l: Layout, files: Files, chains: Chains)
  {
    && (forall f :: f in chains <==> f in files && ValidCluster(l.clusters, files[f].first))
    && (forall f | f in chains ::
          |chains[f]| > 0 && chains[f][0] == files[f].first && Fits(l.bpc, |chains[f]|, files[f].size))
  }

  lemma FilesMatchStep(l: Layout, files: Files, chains: Chains, f: nat, s: seq<int>, size: U32)
    requires FilesMatch(l, files, chains) && f in chains
    requires |s| > 0 && s[0] == chains[f][0] && Fits(l.bpc, |s|, size)
    ensures FilesMatch(l, files[f := Entry(files[f].first, size)], chains[f := s])
  {
  }

  /** What a volume holds at one moment. */
  datatype View = View(bytes: seq<Byte>, table: Table, files: Files, chains: Chains)

  /** Between operations: every FAT copy equals the cached table, chains are owned properly, and files
      and chains agree. */
  ghost predicate Good(l: Layout, v: View) {
    && OnVolume(l, v.bytes) && CopiesHold(l, v.bytes, v.table)
    && Ownership(v.table, l.clusters, v.chains)
    && FilesMatch(l, v.files, v.chains)
  }

  ghost predicate Readable(l: Layout, v: View, f: nat) {
    && OnVolume(l, v.bytes) && f in v.chains && f in v.files
    && Clusters(l, v.chains[f]) && v.files[f].size <= |v.chains[f]| * l.bpc
  }

  /** The bytes of a file. */
  ghost function Content(l: Layout, v: View, f: nat): (r: seq<Byte>)
    requires Readable(l, v, f)
    ensures |r| == v.files[f].size
  {
    ChainData(l, v.bytes, v.chains[f])[..v.files[f].size]
  }

  lemma GoodReadable(l: Layout, v: View, f: nat)
    requires Good(l, v) && f in v.chains
    ensures Readable(l, v, f) && EndMarked(v.table, l.clusters, v.chains[f]) && v.chains[f][0] == v.files[f].first
    ensures Fits(l.bpc, |v.chains[f]|, v.files[f].size) && Distinct(v.chains[f])
  {
    ChainFits(l, v.table, v.chains[f]);
  }

  /** Every file other than `f` keeps its entry and its bytes. */
  ghost predicate OthersSame(l: Layout, v0: View, v: View, f: nat) {
    && (forall g | g != f :: (g in v.files <==> g in v0.files) && (g in v.files ==> v.files[g] == v0.files[g]))
    && (forall g | g in v0.chains && g != f ::
          Readable(l, v0, g) && Readable(l, v, g) && Content(l, v, g) == Content(l, v0, g))
  }

  /** Clusters outside the chain of `f` that were in use keep their bytes: so do the other files. */
  lemma OtherFilesKept(l: Layout, v0: View, v: View, f: nat)
    requires Good(l, v0) && OnVolume(l, v.bytes) && f in v0.chains
    requires DataKept(l, v0.bytes, v.bytes, v0.table, v0.chains[f])
    requires forall g | g != f :: (g in v.files <==> g in v0.files) && (g in v.files ==> v.files[g] == v0.files[g])
    requires forall g | g in v0.chains && g != f :: g in v.chains && v.chains[g] == v0.chains[g]
    ensures OthersSame(l, v0, v, f)
  {
    forall g | g in v0.chains && g != f
      ensures Readable(l, v0, g) && Readable(l, v, g) && Content(l, v, g) == Content(l, v0, g)
    {
      GoodReadable(l, v0, g);
      var s := v0.chains[g];
      assert Apart(s, v0.chains[f]);
      forall i | 0 <= i < |s| ensures ClusterData(l, v.bytes, s[i]) == ClusterData(l, v0.bytes, s[i]) {
        assert s[i] in s;
        OnChainInUse(v0.table, l.clusters, s, s[i]);
      }
      ChainDataSame(l, v0.bytes, v.bytes, s);
    }
  }

  lemma FlushKeepsData(l: Layout, b0: seq<Byte>, b: seq<Byte>, t: Table, s: seq<int>)
    requires OnVolume(l, b0) && OffTablesSame(l, b0, b) && l.clusters <= |t|
    ensures DataKept(l, b0, b, t, s)
    ensures Clusters(l, s) ==> ChainData(l, b, s) == ChainData(l, b0, s)
  {
    forall c | 2 <= c < l.clusters ensures ClusterData(l, b, c) == ClusterData(l, b0, c) {
      TablesOnly(l, b0, b, c);
    }
    if Clusters(l, s) {
      ChainDataSame(l, b0, b, s);
    }
  }

  lemma ChainDataPrefix(l: Layout, b: seq<Byte>, s: seq<int>, k: nat)
    requires OnVolume(l, b) && Clusters(l, s) && k <= |s|
    ensures k * l.bpc <= |s| * l.bpc
    ensures ChainData(l, b, s[..k]) == ChainData(l, b, s)[..k * l.bpc]
  {
    MulLe(k, |s|, l.bpc);
    assert s == s[..k] + s[k..];
    ChainDataConcat(l, b, s[..k], s[k..]);
  }

  /** The state after a shrink: chain cut to what the new size needs, and that size recorded. */
  ghost predicate ShrunkView(l: Layout, v0: View, v: View, f: nat, size: U32) {
    && Good(l, v0) && f in v0.chains && size < v0.files[f].size
    && OffTablesSame(l, v0.bytes, v.bytes) && CopiesHold(l, v.bytes, v.table)
    && (var k, s := Kept(l.bpc, size), v0.chains[f];
        && 1 <= k <= |s|
        && ((v.table == v0.table && k == |s|) || Cut(v0.table, v.table, s, k))
        && v.chains == v0.chains[f := s[..k]])
    && v.files == v0.files[f := Entry(v0.files[f].first, size)]
  }

  lemma ShrinkOwnership(l: Layout, v0: View, v: View, f: nat, size: U32)
    requires ShrunkView(l, v0, v, f, size)
    ensures Ownership(v.table, l.clusters, v.chains)
  {
    var s, k := v0.chains[f], Kept(l.bpc, size);
    if Cut(v0.table, v.table, s, k) {
      CutKeepsOwnership(v0.table, v.table, l.clusters, v0.chains, f, k);
    } else {
      assert s[..k] == s && v.chains == v0.chains;
    }
  }

  lemma ShrinkContent(l: Layout, v0: View, v: View, f: nat, size: U32)
    requires ShrunkView(l, v0, v, f, size) && Readable(l, v0, f) && Readable(l, v, f)
    ensures Content(l, v, f) == Content(l, v0, f)[..size]
  {
    var s, k := v0.chains[f], Kept(l.bpc, size);
    FlushKeepsData(l, v0.bytes, v.bytes, v0.table, s);
    ChainDataPrefix(l, v.bytes, s, k);
    var d := ChainData(l, v0.bytes, s);
    assert d[..k * l.bpc][..size] == d[..size] == d[..v0.files[f].size][..size];
  }

  /** A shrink keeps a prefix of one file and everything of the others. */
  lemma ShrinkStep(l: Layout, v0: View, v: View, f: nat, size: U32)
    requires ShrunkView(l, v0, v, f, size)
    ensures Good(l, v) && OthersSame(l, v0, v, f)
    ensures Readable(l, v0, f) && Readable(l, v, f) && Content(l, v, f) == Content(l, v0, f)[..size]
  {
    hide Ownership, CopiesHold, DataKept, OthersSame, Content, Cut;
    GoodReadable(l, v0, f);
    KeptFits(l, v0.table, v0.chains[f], v0.files[f].size, size);
    ShrinkOwnership(l, v0, v, f, size);
    FilesMatchStep(l, v0.files, v0.chains, f, v.chains[f], size);
    FlushKeepsData(l, v0.bytes, v.bytes, v0.table, v0.chains[f]);
    OtherFilesKept(l, v0, v, f);
    ShrinkContent(l, v0, v, f, size);
  }

  /** A view whose chain for `f` has been extended by `news`, before the size is recorded. */
  ghost predicate ExtendedView(l: Layout, v0: View, v: View, f: nat, news: seq<int>, upto: nat) {
    && Good(l, v0) && f in v0.chains && v.files == v0.files && v.chains == v0.chains[f := v0.chains[f] + news]
    && OnVolume(l, v.bytes) && CopiesHold(l, v.bytes, v.table)
    && LowestFree(v0.table, l.clusters, news) && Clusters(l, v0.chains[f]) && Clusters(l, news)
    && Extended(v0.table, v.table, v0.chains[f][|v0.chains[f]| - 1], news)
    && DataKept(l, v0.bytes, v.bytes, v0.table, v0.chains[f])
    && ZeroExtended(ChainData(l, v0.bytes, v0.chains[f]), ChainData(l, v.bytes, v.chains[f]), v0.files[f].size, upto)
  }

  /** Behind `upto` the extended chain holds what it held, and zeros. */
  ghost predicate RestStays(l: Layout, v0: View, v: View, f: nat, upto: nat) {
    && f in v0.chains && f in v.chains && f in v0.files && OnVolume(l, v0.bytes) && OnVolume(l, v.bytes)
    && Clusters(l, v0.chains[f]) && Clusters(l, v.chains[f])
    && RestKept(ChainData(l, v0.bytes, v0.chains[f]), ChainData(l, v.bytes, v.chains[f]), v0.files[f].size, upto)
  }

  lemma ExtendOwnership(l: Layout, v0: View, v: View, f: nat, news: seq<int>, upto: nat)
    requires ExtendedView(l, v0, v, f, news, upto)
    ensures Ownership(v.table, l.clusters, v.chains)
    ensures news == [] ==> v.chains == v0.chains
  {
    ExtendKeepsOwnership(v0.table, v.table, l.clusters, v0.chains, f, news);
    if news == [] {
      assert v0.chains[f] + news == v0.chains[f];
    }
  }

  lemma ExtendContent(l: Layout, v0: View, v: View, f: nat, news: seq<int>, upto: nat)
    requires ExtendedView(l, v0, v, f, news, upto) && Readable(l, v0, f)
    ensures Readable(l, v, f) && Content(l, v, f) == Content(l, v0, f)
  {
    MulLe(|v0.chains[f]|, |v.chains[f]|, l.bpc);
  }

  lemma ExtendStep(l: Layout, v0: View, v: View, f: nat, news: seq<int>, upto: nat)
    requires ExtendedView(l, v0, v, f, news, upto)
    ensures Ownership(v.table, l.clusters, v.chains) && OthersSame(l, v0, v, f)
    ensures Readable(l, v0, f) && Readable(l, v, f) && Content(l, v, f) == Content(l, v0, f)
    ensures news == [] ==> Good(l, v)
  {
    GoodReadable(l, v0, f);
    ExtendOwnership(l, v0, v, f, news, upto);
    OtherFilesKept(l, v0, v, f);
    ExtendContent(l, v0, v, f, news, upto);
  }

  lemma GrownFits(l: Layout, len: nat, oldSize: nat, size: nat)
    requires l.Sound() && Fits(l.bpc, len, oldSize) && oldSize < size && size + l.bpc <= TWO32
    ensures Fits(l.bpc, len + Needed(l.bpc, len, size), size)
  {
    var k := Kept(l.bpc, size);
    CountFits(l.bpc, size, k);
    FitsMonotone(l.bpc, len, k, oldSize, size);
  }

  lemma GrowMatch(l: Layout, v0: View, v1: View, f: nat, news: seq<int>, size: U32)
    requires ExtendedView(l, v0, v1, f, news, size) && v0.files[f].size < size && size + l.bpc <= TWO32
    requires |news| == Needed(l.bpc, |v0.chains[f]|, size)
    ensures FilesMatch(l, v0.files[f := Entry(v0.files[f].first, size)], v1.chains)
    ensures size <= |v1.chains[f]| * l.bpc
  {
    GrownFits(l, |v0.chains[f]|, v0.files[f].size, size);
    FilesMatchStep(l, v0.files, v0.chains, f, v1.chains[f], size);
  }

  /** Recording the larger size makes the zeros part of the file. */
  lemma GrowStep(l: Layout, v0: View, v1: View, v: View, f: nat, news: seq<int>, size: U32)
    requires ExtendedView(l, v0, v1, f, news, size) && v0.files[f].size < size && size + l.bpc <= TWO32
    requires |news| == Needed(l.bpc, |v0.chains[f]|, size)
    requires v == v1.(files := v0.files[f := Entry(v0.files[f].first, size)])
    ensures Good(l, v) && OthersSame(l, v0, v, f)
    ensures Readable(l, v0, f) && Readable(l, v, f) && Content(l, v, f) == Resized(Content(l, v0, f), size)
  {
    hide ChainData, ClusterData, CopiesHold, Ownership, DataKept, ZeroExtended, Resized, Needed;
    GoodReadable(l, v0, f);
    ExtendOwnership(l, v0, v1, f, news, size);
    GrowMatch(l, v0, v1, f, news, size);
    OtherFilesKept(l, v0, v, f);
    ZeroExtendedIsResized(ChainData(l, v0.bytes, v0.chains[f]), ChainData(l, v.bytes, v.chains[f]), v0.files[f].size, size);
  }

  /** The writing half: bytes laid over the (possibly extended) chain, and the size raised to match. */
  ghost predicate WrittenView(l: Layout, v1: View, v: View, f: nat, offset: nat, data: seq<Byte>) {
    && Readable(l, v1, f) && OnVolume(l, v.bytes) && CopiesHold(l, v.bytes, v.table)
    && v.table == v1.table && v.chains == v1.chains && l.clusters <= |v.table|
    && DataKept(l, v1.bytes, v.bytes, v1.table, v1.chains[f])
    && offset + |data| <= |v1.chains[f]| * l.bpc && offset + |data| < TWO32
    && ChainData(l, v.bytes, v1.chains[f]) == Splice(ChainData(l, v1.bytes, v1.chains[f]), offset, data)
    && v.files == v1.files[f := Entry(v1.files[f].first, if offset + |data| > v1.files[f].size then offset + |data| else v1.files[f].size)]
  }

  /** Through extension and write, a cluster of another file keeps its bytes. */
  lemma DataKeptThrough(l: Layout, v0: View, v1: View, v: View, f: nat, news: seq<int>, upto: nat, g: nat)
    requires ExtendedView(l, v0, v1, f, news, upto) && OnVolume(l, v.bytes)
    requires Ownership(v1.table, l.clusters, v1.chains) && g in v0.chains && g != f
    requires DataKept(l, v1.bytes, v.bytes, v1.table, v1.chains[f])
    ensures Readable(l, v0, g) && ChainData(l, v.bytes, v0.chains[g]) == ChainData(l, v0.bytes, v0.chains[g])
  {
    hide Extended, LowestFree, ZeroExtended, CopiesHold, FilesMatch;
    GoodReadable(l, v0, g);
    var s := v0.chains[g];
    assert s == v1.chains[g] && EndMarked(v1.table, l.clusters, s);
    assert Apart(s, v0.chains[f]) && Apart(s, v1.chains[f]);
    forall i | 0 <= i < |s| ensures ClusterData(l, v.bytes, s[i]) == ClusterData(l, v0.bytes, s[i]) {
      assert s[i] in s;
      OnChainInUse(v0.table, l.clusters, s, s[i]);
      OnChainInUse(v1.table, l.clusters, s, s[i]);
    }
    ChainDataSame(l, v0.bytes, v.bytes, s);
  }

  lemma WriteOthers(l: Layout, v0: View, v1: View, v: View, f: nat, news: seq<int>, upto: nat, offset: nat, data: seq<Byte>)
    requires ExtendedView(l, v0, v1, f, news, upto) && WrittenView(l, v1, v, f, offset, data)
    requires Ownership(v1.table, l.clusters, v1.chains)
    ensures OthersSame(l, v0, v, f)
  {
    hide Good, ChainData, DataKept, ZeroExtended, CopiesHold, Ownership, Extended;
    forall g | g in v0.chains && g != f
      ensures Readable(l, v0, g) && Readable(l, v, g) && Content(l, v, g) == Content(l, v0, g)
    {
      DataKeptThrough(l, v0, v1, v, f, news, upto, g);
    }
  }

  lemma WriteMatch(l: Layout, v0: View, v1: View, v: View, f: nat, news: seq<int>, upto: nat, offset: nat, data: seq<Byte>)
    requires ExtendedView(l, v0, v1, f, news, upto) && WrittenView(l, v1, v, f, offset, data)
    requires news == [] || Fits(l.bpc, |v1.chains[f]|, v.files[f].size)
    ensures FilesMatch(l, v.files, v.chains)
  {
    var s := v1.chains[f];
    assert Fits(l.bpc, |v0.chains[f]|, v0.files[f].size);
    if news == [] {
      assert v0.chains[f] + news == v0.chains[f];
    }
    FilesMatchStep(l, v0.files, v0.chains, f, s, v.files[f].size);
  }

  /** Whatever the write leaves in a gap, the volume stays sound and the other files as they were. */
  lemma WriteKeeps(l: Layout, v0: View, v1: View, v: View, f: nat, news: seq<int>, upto: nat, offset: nat, data: seq<Byte>)
    requires ExtendedView(l, v0, v1, f, news, upto) && WrittenView(l, v1, v, f, offset, data)
    requires news == [] || Fits(l.bpc, |v1.chains[f]|, v.files[f].size)
    ensures Good(l, v) && OthersSame(l, v0, v, f) && Readable(l, v0, f)
  {
    GoodReadable(l, v0, f);
    ExtendOwnership(l, v0, v1, f, news, upto);
    WriteMatch(l, v0, v1, v, f, news, upto, offset, data);
    WriteOthers(l, v0, v1, v, f, news, upto, offset, data);
  }

  lemma WriteContent(l: Layout, v0: View, v1: View, v: View, f: nat, news: seq<int>, offset: nat, data: seq<Byte>)
    requires ExtendedView(l, v0, v1, f, news, offset) && WrittenView(l, v1, v, f, offset, data) && Readable(l, v0, f)
    ensures Readable(l, v, f) && Content(l, v, f) == Overwritten(Content(l, v0, f), offset, data)
  {
    WriteIsOverwrite(ChainData(l, v0.bytes, v0.chains[f]), ChainData(l, v1.bytes, v1.chains[f]), v0.files[f].size, offset, data);
  }

  lemma WriteStep(l: Layout, v0: View, v1: View, v: View, f: nat, news: seq<int>, offset: nat, data: seq<Byte>)
    requires ExtendedView(l, v0, v1, f, news, offset) && WrittenView(l, v1, v, f, offset, data)
    requires news == [] || Fits(l.bpc, |v1.chains[f]|, v.files[f].size)
    ensures Good(l, v) && OthersSame(l, v0, v, f)
    ensures Readable(l, v0, f) && Readable(l, v, f) && Content(l, v, f) == Overwritten(Content(l, v0, f), offset, data)
  {
    WriteKeeps(l, v0, v1, v, f, news, offset, offset, data);
    WriteContent(l, v0, v1, v, f, news, offset, data);
  }

  class Volume {
    const cache: Cache
    var files: Files
    ghost var chains: Chains

    constructor (c: Cache, fs: Files, ghost cs: Chains)
      requires c.Valid() && c.Synced() && Ownership(c.table[..], c.layout.clusters, cs) && FilesMatch(c.layout, fs, cs)
      ensures Inv() && cache == c && State() == View(c.dev.bytes, c.table[..], fs, cs)
    {
      cache, files, chains := c, fs, cs;
    }

    ghost function State(): View
      reads this, cache.dev, cache.table
    {
      View(cache.dev.bytes, cache.table[..], files, chains)
    }

    ghost predicate Inv()
      reads this, cache.dev, cache.table, cache.dirty
    {
      cache.Valid() && cache.Synced() && Good(cache.layout, State())
    }

    /** Rewrites the directory entry of `f`. */
    method UpdateInDir(f: nat, e: Entry) returns (ok: bool)
      modifies this`files, cache.dev`faults
      ensures ok ==> files == old(files)[f := e] && cache.dev.faults == old(cache.dev.faults)
      ensures !ok ==> cache.dev.faults == old(cache.dev.faults) + 1 && files == old(files)
    {
      ok := cache.dev.Acquire();
      if ok {
        files := files[f := e];
      }
    }

    // -------------------------------------------------------------- resizing

    /** `fat_resize_file`. The size is bounded by the volume, as `fs_truncate` checks before the call. */
    method Resize(f: nat, size: U32) returns (r: int)
      requires Inv() && size <= cache.layout.MaxFileSize()
      modifies this, cache.table, cache.dirty, cache.dev
      ensures cache.Valid() && old(cache.dev.faults) <= cache.dev.faults
      ensures f !in old(files) ==> r == -1 && State() == old(State())
      ensures f in old(files) && f !in old(chains) && cache.dev.faults == old(cache.dev.faults) ==>
                r == (if size == old(files)[f].size then 0 else -2) && files == old(files) && chains == old(chains)
      ensures cache.dev.faults == old(cache.dev.faults) ==> Inv() && OthersSame(cache.layout, old(State()), State(), f)
      ensures cache.dev.faults == old(cache.dev.faults) && f in old(chains) ==>
        var l, v0, v := cache.layout, old(State()), State();
        && Readable(l, v0, f) && Readable(l, v, f)
        && (r == 0 || r == -2)
        && (r == -2 <==>
              size > v0.files[f].size && Needed(l.bpc, |v0.chains[f]|, size) > |FreeSet(v0.table, l.clusters)|)
        && Content(l, v, f) == if r == 0 then Resized(Content(l, v0, f), size) else Content(l, v0, f)
    {
      ghost var v0 := State();
      AllReadable(cache.layout, v0);
      if f !in files {
        return -1;
      }
      if size < files[f].size {
        r := Shrink(f, size);
      } else if size > files[f].size {
        r := Grow(f, size);
      } else {
        return 0;
      }
    }

    method Shrink(f: nat, size: U32) returns (r: int)
      requires Inv() && f in files && size < files[f].size
      modifies this, cache.table, cache.dirty, cache.dev
      ensures cache.Valid() && old(cache.dev.faults) <= cache.dev.faults
      ensures cache.dev.faults == old(cache.dev.faults) ==> Inv() && OthersSame(cache.layout, old(State()), State(), f)
      ensures cache.dev.faults == old(cache.dev.faults) ==> r == (if f in old(chains) then 0 else -2)
      ensures f !in old(chains) && cache.dev.faults == old(cache.dev.faults) ==> files == old(files) && chains == old(chains)
      ensures cache.dev.faults == old(cache.dev.faults) && f in old(chains) ==>
        var l, v0, v := cache.layout, old(State()), State();
        Readable(l, v0, f) && Readable(l, v, f) && Content(l, v, f) == Content(l, v0, f)[..size]
    {
      var l, e := cache.layout, files[f];
      ghost var v0 := State();
      AllReadable(l, v0);
      ghost var s: seq<int> := if f in chains then chains[f] else [];
      if f in chains {
        GoodReadable(l, v0, f);
      }
      var freed := ShrinkChain(cache, e.first, e.size, size, s);
      if freed < 0 {
        if f !in chains {
          FlushedView(l, v0, State());
        }
        return -2;
      }
      var ok := UpdateInDir(f, Entry(e.first, size));
      if !ok {
        return -3;
      }
      r := 0;
      if cache.dev.faults == old(cache.dev.faults) {
        chains := chains[f := s[..Kept(l.bpc, size)]];
        ShrinkStep(l, v0, State(), f, size);
      }
    }

    method Grow(f: nat, size: U32) returns (r: int)
      requires Inv() && f in files && files[f].size < size <= cache.layout.MaxFileSize()
      modifies this, cache.table, cache.dirty, cache.dev
      ensures cache.Valid() && old(cache.dev.faults) <= cache.dev.faults
      ensures cache.dev.faults == old(cache.dev.faults) ==> Inv() && OthersSame(cache.layout, old(State()), State(), f)
      ensures cache.dev.faults == old(cache.dev.faults) && f !in old(chains) ==> r == -2 && files == old(files) && chains == old(chains)
      ensures cache.dev.faults == old(cache.dev.faults) && f in old(chains) ==>
        var l, v0, v := cache.layout, old(State()), State();
        && Readable(l, v0, f) && Readable(l, v, f)
        && (r == 0 || r == -2)
        && (r == -2 <==> Needed(l.bpc, |v0.chains[f]|, size) > |FreeSet(v0.table, l.clusters)|)
        && Content(l, v, f) == if r == 0 then Resized(Content(l, v0, f), size) else Content(l, v0, f)
    {
      hide ChainData, ClusterData, CopiesHold, Ownership, DataKept, ZeroExtended, Resized, Needed, FreeSet, ExtendedView;
      var e := files[f];
      ghost var v0 := State();
      AllReadable(cache.layout, v0);
      ghost var news;
      r, news := ExtendFile(f, size);
      if r < 0 {
        return -2;
      }
      ghost var v1 := State();
      var ok := UpdateInDir(f, Entry(e.first, size));
      if !ok {
        return -3;
      }
      r := 0;
      if cache.dev.faults == old(cache.dev.faults) {
        GrowStep(cache.layout, v0, v1, State(), f, news, size);
      }
    }

    /** Extends the chain of `f` for `newSize` bytes. Afterwards the chain may be longer than the
        recorded size needs; everything else is as between operations. */
    method ExtendFile(f: nat, newSize: U32) returns (r: int, ghost news: seq<int>)
      requires Inv() && f in files && newSize > files[f].size
      modifies this`chains, cache.table, cache.dirty, cache.dev
      ensures cache.Valid() && old(cache.dev.faults) <= cache.dev.faults
      ensures f !in old(chains) ==> r == -1 && Inv() && State() == old(State())
      ensures r >= 0 ==> cache.dev.faults == old(cache.dev.faults)
      ensures cache.dev.faults == old(cache.dev.faults) && f in old(chains) ==>
        var l, v0 := cache.layout, old(State());
        && cache.Synced() && ExtendedView(l, v0, State(), f, news, if r < 0 then v0.files[f].size else newSize)
        && (r < 0 <==> Needed(l.bpc, |v0.chains[f]|, newSize) > |FreeSet(v0.table, l.clusters)|)
        && (r < 0 ==>
              && news == [] && Good(l, State()) && OthersSame(l, v0, State(), f)
              && Readable(l, v0, f) && Readable(l, State(), f) && Content(l, State(), f) == Content(l, v0, f))
        && (r >= 0 ==> |news| == Needed(l.bpc, |v0.chains[f]|, newSize) && RestStays(l, v0, State(), f, newSize))
    {
      hide Ownership, Needed, ZeroExtended, RestKept, Extended, LowestFree, DataKept, OthersSame, Content, FreeSet;
      var l, e := cache.layout, files[f];
      ghost var v0 := State();
      ghost var s: seq<int> := if f in chains then chains[f] else [];
      if f in chains {
        GoodReadable(l, v0, f);
      }
      r, news := ExtendChain(cache, e.first, e.size, newSize, s);
      if cache.dev.faults == old(cache.dev.faults) && f in chains {
        chains := chains[f := s + news];
        ExtendStep(l, v0, State(), f, news, if r < 0 then e.size else newSize);
      }
    }

    // -------------------------------------------------------------- writing

    /** The writing half of `fat_write_file_at`: the chain is already as long as it will be. */
    method WriteExtended(f: nat, buf: seq<Byte>, offset: nat) returns (r: int)
      requires cache.Valid() && cache.Synced() && Ownership(cache.table[..], cache.layout.clusters, chains)
      requires Readable(cache.layout, State(), f) && chains[f] != [] && chains[f][0] == files[f].first
      modifies this`files, cache.dev
      ensures cache.Valid() && old(cache.dev.faults) <= cache.dev.faults
      ensures offset >= |chains[f]| * cache.layout.bpc ==> r == -3 && State() == old(State()) && cache.Synced()
      ensures offset < |chains[f]| * cache.layout.bpc && cache.dev.faults == old(cache.dev.faults) ==>
        && cache.Synced() && 0 <= r <= |buf| && (r == |buf| || offset + r == |chains[f]| * cache.layout.bpc)
        && WrittenView(cache.layout, old(State()), State(), f, offset, buf[..r])
    {
      hide DataKept, CopiesHold, Content, Wrote, WrittenView, Ownership, IsChain;
      var e := files[f];
      ghost var v1 := State();
      ReadableParts(cache.layout, v1, f);
      ghost var s, t := chains[f], cache.table[..];
      ChainFits(cache.layout, t, s);
      var ok, cur, within;
      ghost var idx;
      ok, cur, within, idx := SkipClusters(cache, e.first, offset, s);
      if !ok {
        return -3;
      }
      r := WriteClusters(cache, cur, within, buf, s, idx);
      if r < 0 {
        return;
      }
      if offset + r > e.size {
        var done := UpdateInDir(f, Entry(e.first, offset + r));
        if !done {
          return -3;
        }
      } else {
        assert files == files[f := Entry(e.first, e.size)];
      }
      if cache.dev.faults == old(cache.dev.faults) {
        WroteView(cache.layout, v1, State(), f, offset, buf, r);
      }
    }

    /** `fat_write_file_at`. An admissible write puts all its bytes in place, or finds the volume full
        and changes nothing; it falls short only where 32-bit sizes would wrap. An empty write past
        the end of file, at a cluster boundary, is not admissible: it lengthens the chain, then
        fails without recording a size. */
    method WriteAt(f: nat, buf: seq<Byte>, offset: U32) returns (r: int)
      requires Inv() && |buf| < TWO32
      modifies this, cache.table, cache.dirty, cache.dev
      ensures cache.Valid() && old(cache.dev.faults) <= cache.dev.faults
      ensures f !in old(chains) ==> r == -1 && Inv() && State() == old(State())
      ensures cache.dev.faults == old(cache.dev.faults) && f in old(chains) ==>
        WriteResult(cache.layout, old(State()), State(), f, offset, buf, r) && cache.Synced()
    {
      hide Good, WriteResult, Ownership, CopiesHold, ExtendedView, WrittenView, OthersSame, Content, Needed, FreeSet;
      GoodParts(cache.layout, State());
      if f !in files {
        return -1;
      }
      var e := files[f];
      if !ValidCluster(cache.layout.clusters, e.first) {
        return -1;
      }
      ghost var l, v0 := cache.layout, State();
      GoodReadable(l, v0, f);
      var newSize := (offset + |buf|) % TWO32;
      ghost var news: seq<int> := [];
      if newSize > e.size {
        var ext;
        ext, news := ExtendFile(f, newSize);
        if ext < 0 {
          if cache.dev.faults == old(cache.dev.faults) {
            WriteRefused(l, v0, State(), f, offset, buf);
          }
          return -2;
        }
        ExtendStep(l, v0, State(), f, news, newSize);
        ExtendedHead(l, v0, State(), f, news, newSize);
      }
      ghost var v1 := State();
      r := WriteExtended(f, buf, offset);
      if cache.dev.faults == old(cache.dev.faults) {
        WriteConcludes(l, v0, v1, State(), f, news, offset, buf, r);
      }
    }

    // -------------------------------------------------------------- reading

    /** The file branch of `fs_read`: clamps the request to the file, in 32-bit arithmetic, then reads along the chain.
        The result is 0 at the end of the file and -1 on failure. */
    method ReadAt(f: nat, offset: U32, count: U32) returns (r: int, data: seq<Byte>)
      requires Inv() && f in files
      modifies cache.dev`faults
      ensures cache.Valid() && old(cache.dev.faults) <= cache.dev.faults && State() == old(State())
      ensures f !in chains ==> r == (if offset >= files[f].size || count == 0 then 0 else -1) && data == []
      ensures cache.dev.faults == old(cache.dev.faults) ==> Inv()
      ensures cache.dev.faults == old(cache.dev.faults) && f in chains ==>
        && Readable(cache.layout, State(), f) && r == |data|
        && data == BytesRead(ChainData(cache.layout, cache.dev.bytes, chains[f]), files[f].size, offset, Asked(count, files[f].size))
    {
      hide Good, Content, ChainData, BytesRead, IsChain, Ownership, Fits, Readable, OnVolume, CopiesHold, Clusters;
      ghost var l, v := cache.layout, State();
      GoodParts(l, v);
      ghost var s: seq<int> := if f in chains then chains[f] else [];
      if f in chains {
        GoodReadable(l, v, f);
        ChainFits(l, v.table, s);
        ClampedRead(ChainData(l, v.bytes, s), files[f].size, offset, Asked(count, files[f].size));
      }
      r, data := 0, [];
      if offset < files[f].size {
        var size: nat := Asked(count, files[f].size);
        if (offset + size) % TWO32 > files[f].size {
          size := files[f].size - offset;
        }
        if size != 0 {
          r, data := ReadChain(cache, files[f].first, offset, size, s);
        }
      }
    }

    /** `fat_read_file`: refuses cyclic chains, then collects the chain cluster by cluster. Size 0 asks
        for the whole chain as stored on disk. */
    method ReadWhole(f: nat) returns (ok: bool, data: seq<Byte>)
      requires Inv() && f in files
      modifies cache.dev`faults
      ensures cache.Valid() && old(cache.dev.faults) <= cache.dev.faults && State() == old(State())
      ensures f !in chains ==> !ok
      ensures cache.dev.faults == old(cache.dev.faults) && f in chains ==>
        && ok && Readable(cache.layout, State(), f)
        && data == if files[f].size == 0 then ChainData(cache.layout, cache.dev.bytes, chains[f])
                   else Content(cache.layout, State(), f)
    {
      hide Good, CopiesHold, Ownership, Cyclic, Trail, IsChain, Fits, Distinct;
      var l, first, size := cache.layout, files[f].first, files[f].size;
      ghost var v := State();
      GoodParts(l, v);
      if !ValidCluster(l.clusters, first) {
        return false, [];
      }
      GoodReadable(l, v, f);
      ghost var s := chains[f];
      var count := CountClusters(cache, first);
      CountIsLength(cache.table[..], l.clusters, s, count);
      var allocate := if size == 0 then count * l.bpc else size;
      ok := cache.dev.Acquire();
      if !ok {
        return false, [];
      }
      ok, data := CollectChain(cache, first, allocate, s);
    }

    // -------------------------------------------------------------- creating and deleting

    /** The cluster side of `fat_new_file`: the new file owns the lowest free cluster. `slot` says whether
        the directory has room and no entry of that name. */
    method Create(f: nat, slot: bool) returns (ok: bool)
      requires Inv() && f !in files
      modifies this, cache.table, cache.dirty, cache.dev
      ensures cache.Valid() && old(cache.dev.faults) <= cache.dev.faults
      ensures cache.dev.faults == old(cache.dev.faults) ==> Inv() && OthersSame(cache.layout, old(State()), State(), f)
      ensures cache.dev.faults == old(cache.dev.faults) ==>
        (ok <==> slot && exists c | 2 <= c < cache.layout.clusters :: old(cache.table[c]) == 0)
      ensures cache.dev.faults == old(cache.dev.faults) && !ok ==> State() == old(State())
      ensures cache.dev.faults == old(cache.dev.faults) && ok ==>
        && Readable(cache.layout, State(), f) && Content(cache.layout, State(), f) == []
        && LowestFree(old(cache.table[..]), cache.layout.clusters, chains[f])
    {
      hide Good, OthersSame, Content, CopiesHold, Ownership;
      var l := cache.layout;
      ghost var v0 := State();
      GoodParts(l, v0);
      AllReadable(l, v0);
      var c := cache.FindFree(2);
      if c >= l.clusters {
        return false;
      }
      ok := cache.dev.Acquire();
      if !ok || !slot {
        return false;
      }
      ok := UpdateInDir(f, Entry(c, 0));
      if !ok {
        return;
      }
      ok := cache.UpdateCluster(c, END_OF_CHAIN);
      ghost var t1 := cache.table[..];
      ok := cache.FlushRange(c, c, v0.table);
      if ok {
        chains := chains[f := [c]];
        CreateStep(l, v0, State(), f, c);
      } else if cache.table[c] != 0 {
        var done := cache.UpdateCluster(c, 0);
        done := cache.FlushCache(c, c);
      }
    }

    /** The cluster side of `fat_delete_file` and `fat_delete_dir`. */
    method Delete(f: nat) returns (ok: bool)
      requires Inv()
      modifies this, cache.table, cache.dirty, cache.dev
      ensures cache.Valid() && old(cache.dev.faults) <= cache.dev.faults
      ensures f !in old(files) ==> !ok && State() == old(State()) && Inv()
      ensures cache.dev.faults == old(cache.dev.faults) ==> Inv() && OthersSame(cache.layout, old(State()), State(), f)
      ensures cache.dev.faults == old(cache.dev.faults) && f in old(files) ==>
        ok && files == old(files) - {f} && chains == old(chains) - {f}
      ensures cache.dev.faults == old(cache.dev.faults) && f in old(chains) ==>
        |FreeSet(cache.table[..], cache.layout.clusters)| == |FreeSet(old(cache.table[..]), cache.layout.clusters)| + |old(chains)[f]|
    {
      hide Good, OthersSame, Content, CopiesHold, Ownership, FreeSet;
      var l := cache.layout;
      ghost var v0 := State();
      GoodParts(l, v0);
      AllReadable(l, v0);
      if f !in files {
        return false;
      }
      var head := files[f].first;
      ok := cache.dev.Acquire();
      if !ok {
        return;
      }
      files := files - {f};
      var freed, min, max := cache.FreeChain(head, head, head, v0.table);
      if f in chains {
        GoodReadable(l, v0, f);
        FreeFromChain(v0.table, l.clusters, chains[f]);
        DeleteFreeCount(v0.table, cache.table[..], l.clusters, chains[f]);
      }
      if max < l.entries {
        ok := cache.FlushRange(min, max, v0.table);
      } else {
        ok := cache.FlushCache(min, max);
      }
      if ok {
        chains := chains - {f};
        DeleteStep(l, v0, State(), f);
      }
    }
  }

  lemma ReadableParts(l: Layout, v: View, f: nat)
    requires Readable(l, v, f) && Ownership(v.table, l.clusters, v.chains)
    ensures f in v.chains && f in v.files && OnVolume(l, v.bytes) && EndMarked(v.table, l.clusters, v.chains[f])
    ensures v.files[f].size <= |v.chains[f]| * l.bpc
  {
  }

  lemma WroteView(l: Layout, v1: View, v: View, f: nat, offset: nat, buf: seq<Byte>, r: nat)
    requires Readable(l, v1, f) && v.table == v1.table && v.chains == v1.chains && CopiesHold(l, v1.bytes, v1.table)
    requires Wrote(l, v1.bytes, v.bytes, v1.table, v1.chains[f], offset, buf, r) && offset + r < TWO32
    requires v.files == v1.files[f := Entry(v1.files[f].first, if offset + r > v1.files[f].size then offset + r else v1.files[f].size)]
    ensures WrittenView(l, v1, v, f, offset, buf[..r]) && CopiesHold(l, v.bytes, v.table)
  {
  }

  lemma CountIsLength(t: Table, n: nat, s: seq<int>, count: nat)
    requires IsChain(t, n, s) && 2 <= n
    requires count >= n <==> Cyclic(t, n, s[0])
    requires count < n ==> IsChain(t, n, Trail(t, n, s[0], count)) && Trail(t, n, s[0], count)[0] == s[0]
    ensures count == |s|
  {
    NotCyclic(t, n, s);
    ChainUnique(t, n, s, Trail(t, n, s[0], count));
  }

  /** `fs_read` takes a negative count for the whole file. */
  function Asked(count: U32, size: U32): (n: U32) {
    if count >= 0x8000_0000 then size else count
  }

  /** The end of the request wraps to a place inside the file, so the request is not cut at the end of the file. */
  predicate ReadWraps(size: nat, offset: nat, n: nat) {
    offset + n >= TWO32 && offset + n - TWO32 <= size
  }

  /** The part of a byte string that a read of `n` bytes at `offset` is to return. */
  function Slice(s: seq<Byte>, offset: nat, n: nat): (r: seq<Byte>) {
    if offset >= |s| then [] else s[offset..if offset + n > |s| then |s| else offset + n]
  }

  /** What it does return, out of a file of `size` bytes on a chain that holds `d`. */
  function BytesRead(d: seq<Byte>, size: nat, offset: nat, n: nat): (r: seq<Byte>)
    requires size <= |d|
  {
    if offset < size && ReadWraps(size, offset, n) then d[offset..] else Slice(d[..size], offset, n)
  }

  /** The clamp of `fs_read`, followed by a read along the chain. */
  lemma ClampedRead(d: seq<Byte>, size: nat, offset: nat, n: nat)
    requires size <= |d| <= TWO32 && offset < TWO32 && n < TWO32
    ensures offset >= size || n == 0 ==> BytesRead(d, size, offset, n) == []
    ensures offset < size && n > 0 ==>
      var k := if (offset + n) % TWO32 > size then size - offset else n;
      && k > 0 && BytesRead(d, size, offset, n) == d[offset..if offset + k > |d| then |d| else offset + k]
  {
  }

  /** A read returns exactly that part of the file if and only if its end does not wrap into the file, or no stale bytes
      follow the file in its last cluster. */
  lemma ReadExactIff(d: seq<Byte>, size: nat, offset: nat, n: nat)
    requires offset < size <= |d| <= TWO32
    ensures BytesRead(d, size, offset, n) == Slice(d[..size], offset, n)
       <==> offset + n < TWO32 || offset + n - TWO32 > size || size == |d|
  {
    if ReadWraps(size, offset, n) && size < |d| {
      assert |BytesRead(d, size, offset, n)| == |d| - offset;
    }
  }

  /** With clusters of 64 KB, reading 5000000 bytes at the last byte of a file of 4290000001 bytes returns that byte and
      the 52095 stale ones behind it. */
  lemma WrappedReadExample(d: seq<Byte>)
    requires |d| == 65461 * 0x1_0000
    ensures var size, offset, n := 4_290_000_001, 4_290_000_000, 5_000_000;
      && Fits(0x1_0000, 65461, size)
      && |BytesRead(d, size, offset, n)| == 52096 && |Slice(d[..size], offset, n)| == 1
  {
  }

  lemma NotCyclic(t: Table, n: nat, s: seq<int>)
    requires IsChain(t, n, s)
    ensures !Cyclic(t, n, s[0])
  {
    ChainWalk(t, n, s, |s|);
  }

  /** Flushing leaves the other files alone. */
  lemma FlushOthers(l: Layout, v0: View, v: View, f: nat)
    requires Good(l, v0) && OffTablesSame(l, v0.bytes, v.bytes)
    requires forall g | g != f :: (g in v.files <==> g in v0.files) && (g in v.files ==> v.files[g] == v0.files[g])
    requires forall g | g in v0.chains && g != f :: g in v.chains && v.chains[g] == v0.chains[g]
    ensures OthersSame(l, v0, v, f)
  {
    forall g | g in v0.chains && g != f
      ensures Readable(l, v0, g) && Readable(l, v, g) && Content(l, v, g) == Content(l, v0, g)
    {
      GoodReadable(l, v0, g);
      FlushKeepsData(l, v0.bytes, v.bytes, v0.table, v0.chains[g]);
    }
  }

  lemma CreateStep(l: Layout, v0: View, v: View, f: nat, c: int)
    requires Good(l, v0) && f !in v0.files && ValidCluster(l.clusters, c) && v0.table[c] == 0
    requires v.table == v0.table[c := END_OF_CHAIN] && v.chains == v0.chains[f := [c]] && v.files == v0.files[f := Entry(c, 0)]
    requires OffTablesSame(l, v0.bytes, v.bytes) && CopiesHold(l, v.bytes, v.table)
    ensures Good(l, v) && OthersSame(l, v0, v, f) && Readable(l, v, f) && Content(l, v, f) == []
  {
    hide OthersSame, CopiesHold, Ownership;
    CreateKeepsOwnership(v0.table, v.table, l.clusters, v0.chains, f, c);
    FlushOthers(l, v0, v, f);
  }

  lemma DeleteStep(l: Layout, v0: View, v: View, f: nat)
    requires Good(l, v0) && v.chains == v0.chains - {f} && v.files == v0.files - {f}
    requires if f in v0.chains then Zeroed(v0.table, v.table, v0.chains[f]) else v.table == v0.table
    requires OffTablesSame(l, v0.bytes, v.bytes) && CopiesHold(l, v.bytes, v.table)
    ensures Good(l, v) && OthersSame(l, v0, v, f)
  {
    hide OthersSame, CopiesHold, Ownership, Zeroed;
    if f in v0.chains {
      DeleteKeepsOwnership(v0.table, v.table, l.clusters, v0.chains, f);
    } else {
      assert v0.chains - {f} == v0.chains;
    }
    FlushOthers(l, v0, v, f);
  }

  /** Writes the driver handles: the end does not wrap (or the write starts inside the file), and an
      empty write does not start at the very end of the clusters it would allocate. */
  predicate Admissible(l: Layout, len: nat, size: nat, offset: nat, n: nat)
    requires 0 < l.bpc
  {
    && (offset + n < TWO32 || offset <= size)
    && (n > 0 || offset <= size || offset < (len + Needed(l.bpc, len, offset)) * l.bpc)
  }

  /** The clusters a write allocates before it looks for its offset. */
  function Extra(l: Layout, len: nat, size: nat, offset: nat, n: nat): (k: nat)
    requires 0 < l.bpc
  {
    var newSize := (offset + n) % TWO32;
    if newSize > size then Needed(l.bpc, len, newSize) else 0
  }

  /** Writes that start behind the file and behind every cluster that is allocated for them: empty ones, and those whose
      end wraps past 4 GB. */
  predicate Stray(l: Layout, len: nat, size: nat, offset: nat, n: nat)
    requires 0 < l.bpc
  {
    && offset < TWO32 && offset > size && (n == 0 || offset + n >= TWO32)
    && offset >= (len + Extra(l, len, size, offset, n)) * l.bpc
  }

  /** Writes whose end wraps past 4 GB and which start behind the file, but inside the clusters it has by then. */
  predicate Lapped(l: Layout, len: nat, size: nat, offset: nat, n: nat)
    requires 0 < l.bpc
  {
    size < offset < TWO32 && offset + n >= TWO32 && offset < (len + Extra(l, len, size, offset, n)) * l.bpc
  }

  /** 5000 bytes at the last offset there is, on a file of one cluster; and, with clusters of 64 KB, 5100000 bytes at
      4290000000 on a file that was cut to nothing meanwhile: clusters are added, and the write fails. */
  lemma StrayExamples(l: Layout)
    ensures l.bpc == 0x1000 ==> Stray(l, 1, 0, 0xFFFF_FFFF, 5000) && Extra(l, 1, 0, 0xFFFF_FFFF, 5000) == 1
    ensures l.bpc == 0x1_0000 ==>
      Stray(l, 1, 0, 4_290_000_000, 5_100_000) && Extra(l, 1, 0, 4_290_000_000, 5_100_000) == 2
  {
  }

  /** A lapped write over a stale byte is not an overwrite. */
  lemma LappedExample(l: Layout, d0: seq<Byte>)
    requires l.bpc == 0x1_0000 && |d0| == 65461 * 0x1_0000 && d0[4_290_000_001] != 0
    ensures Lapped(l, 65461, 4_290_000_001, 4_290_010_000, 5_000_000)
    ensures !GapClear(d0, 4_290_000_001, (4_290_010_000 + 5_000_000) % TWO32, 4_290_010_000)
  {
  }

  lemma EveryWriteIsOneOf(l: Layout, len: nat, size: nat, offset: nat, n: nat)
    requires 0 < l.bpc && offset < TWO32 && n < TWO32 && size < TWO32
    ensures Admissible(l, len, size, offset, n) || Stray(l, len, size, offset, n) || Lapped(l, len, size, offset, n)
    ensures !(Admissible(l, len, size, offset, n) && Stray(l, len, size, offset, n))
    ensures !(Admissible(l, len, size, offset, n) && Lapped(l, len, size, offset, n))
    ensures !(Stray(l, len, size, offset, n) && Lapped(l, len, size, offset, n))
  {
    hide Needed;
    if n == 0 {
      assert (offset + n) % TWO32 == offset;
    }
  }

  /** What `fat_write_file_at` returns: -2 without enough clusters, -3 when the chain does not reach the offset, else
      the bytes up to the end of the data or of the chain. */
  function WriteCode(l: Layout, len: nat, size: nat, offset: nat, n: nat, free: nat): (r: int)
    requires 0 < l.bpc
  {
    var k := Extra(l, len, size, offset, n);
    if k > free then -2
    else if offset >= (len + k) * l.bpc then -3
    else if offset + n <= (len + k) * l.bpc then n
    else (len + k) * l.bpc - offset
  }

  /** The stale bytes of the chain that a lapped write leaves in front of itself are zero. */
  ghost predicate GapClear(d0: seq<Byte>, size: nat, newSize: nat, offset: nat) {
    (size == 0 && newSize > 0) || forall k | size <= k < offset && newSize <= k < |d0| :: d0[k] == 0
  }

  /** What a fault-free write amounts to. A stray one fails, and keeps the volume sound exactly when it was refused or
      had nothing to allocate. A lapped one fills the chain to its end, and is the overwrite it should be exactly when
      the gap held zeros before. */
  ghost predicate WriteResult(l: Layout, v0: View, v: View, f: nat, offset: nat, buf: seq<Byte>, r: int)
    requires Good(l, v0) && f in v0.chains
  {
    var len, size, n := |v0.chains[f]|, v0.files[f].size, |buf|;
    && r == WriteCode(l, len, size, offset, n, |FreeSet(v0.table, l.clusters)|)
    && (Admissible(l, len, size, offset, n) ==>
          && Good(l, v) && OthersSame(l, v0, v, f) && Readable(l, v0, f) && Readable(l, v, f)
          && (r == -2 || r == -3 || 0 <= r <= n)
          && (r == -2 <==>
                size < offset + n < TWO32 && Needed(l.bpc, len, offset + n) > |FreeSet(v0.table, l.clusters)|)
          && Content(l, v, f) == (if r < 0 then Content(l, v0, f) else Overwritten(Content(l, v0, f), offset, buf[..r]))
          && (n > 0 && offset + n + l.bpc <= TWO32 ==> r == -2 || r == n))
    && (Stray(l, len, size, offset, n) ==>
          && r == (if Extra(l, len, size, offset, n) > |FreeSet(v0.table, l.clusters)| then -2 else -3)
          && v.files == v0.files && OthersSame(l, v0, v, f)
          && Readable(l, v0, f) && Readable(l, v, f) && Content(l, v, f) == Content(l, v0, f)
          && (Good(l, v) <==> r == -2 || Extra(l, len, size, offset, n) == 0))
    && (Lapped(l, len, size, offset, n) ==> LappedResult(l, v0, v, f, offset, buf, r))
  }

  ghost predicate LappedResult(l: Layout, v0: View, v: View, f: nat, offset: nat, buf: seq<Byte>, r: int) {
    && Good(l, v) && OthersSame(l, v0, v, f) && Readable(l, v0, f) && Readable(l, v, f) && r <= |buf|
    && (r < 0 ==> r == -2 && Content(l, v, f) == Content(l, v0, f))
    && (r >= 0 ==>
          && offset > v0.files[f].size
          && |Content(l, v, f)| == offset + r
          && Content(l, v, f)[..v0.files[f].size] == Content(l, v0, f) && Content(l, v, f)[offset..] == buf[..r]
          && (Content(l, v, f) == Overwritten(Content(l, v0, f), offset, buf[..r])
              <==> GapClear(ChainData(l, v0.bytes, v0.chains[f]), v0.files[f].size, (offset + |buf|) % TWO32, offset)))
  }

  lemma FitsUnique(bpc: nat, a: nat, b: nat, size: nat)
    requires 0 < bpc && Fits(bpc, a, size) && Fits(bpc, b, size)
    ensures a == b
  {
    if a < b {
      MulLe(a, b - 1, bpc);
    } else if b < a {
      MulLe(b, a - 1, bpc);
    }
  }

  /** What is known after the (optional) extension and the write. */
  ghost predicate WriteRan(l: Layout, v0: View, v1: View, v: View, f: nat, news: seq<int>, offset: nat, buf: seq<Byte>, r: int) {
    && Good(l, v0) && f in v0.chains && offset < TWO32 && |buf| < TWO32
    && (var newSize, size, len := (offset + |buf|) % TWO32, v0.files[f].size, |v0.chains[f]|;
        if newSize > size then
          && ExtendedView(l, v0, v1, f, news, newSize) && RestStays(l, v0, v1, f, newSize) && |news| == Needed(l.bpc, len, newSize)
          && Needed(l.bpc, len, newSize) <= |FreeSet(v0.table, l.clusters)|
        else v1 == v0 && news == [])
    && f in v1.chains
    && (if offset >= |v1.chains[f]| * l.bpc then r == -3 && v == v1
        else
          && 0 <= r <= |buf| && (r == |buf| || offset + r == |v1.chains[f]| * l.bpc)
          && WrittenView(l, v1, v, f, offset, buf[..r]))
  }

  /** The arithmetic of an extension: clusters are added only for an end of write that does not wrap,
      and then they reach it. */
  lemma ReachArithmetic(l: Layout, len: nat, size: nat, offset: nat, n: nat)
    requires l.Sound() && Fits(l.bpc, len, size) && offset < TWO32 && n < TWO32
    requires Admissible(l, len, size, offset, n) && (offset + n) % TWO32 > size
    ensures (offset + n) % TWO32 == offset + n
    ensures var k := Needed(l.bpc, len, offset + n);
            k > 0 || offset + n + l.bpc <= TWO32 ==>
              && offset + n <= (len + k) * l.bpc && Fits(l.bpc, len + k, offset + n)
              && offset < (len + k) * l.bpc
  {
    hide Needed, Fits;
    NoWrap(l, len, size, offset, n);
    ReachEnd(l, len, size, offset + n);
  }

  lemma ReachEnd(l: Layout, len: nat, size: nat, end: nat)
    requires l.Sound() && Fits(l.bpc, len, size) && size < end < TWO32
    ensures var k := Needed(l.bpc, len, end);
            k > 0 || end + l.bpc <= TWO32 ==> end <= (len + k) * l.bpc && Fits(l.bpc, len + k, end)
  {
    if end + l.bpc <= TWO32 {
      GrownFits(l, len, size, end);
    } else {
      CountWraps(l.bpc, end);
    }
  }

  lemma GoodParts(l: Layout, v: View)
    requires Good(l, v)
    ensures l.Sound() && Ownership(v.table, l.clusters, v.chains)
    ensures forall f :: f in v.chains <==> f in v.files && ValidCluster(l.clusters, v.files[f].first)
  {
  }

  lemma ExtendedHead(l: Layout, v0: View, v: View, f: nat, news: seq<int>, upto: nat)
    requires ExtendedView(l, v0, v, f, news, upto)
    ensures f in v.chains && f in v.files && v.files == v0.files && |v.chains[f]| == |v0.chains[f]| + |news|
    ensures v.chains[f] != [] && v.chains[f][0] == v.files[f].first
  {
    GoodReadable(l, v0, f);
  }

  lemma UptoLess(l: Layout, v0: View, v: View, f: nat, news: seq<int>, upto: nat, less: nat)
    requires ExtendedView(l, v0, v, f, news, upto) && less <= upto
    ensures ExtendedView(l, v0, v, f, news, less)
  {
  }

  lemma WriteReach(l: Layout, v0: View, v1: View, v: View, f: nat, news: seq<int>, offset: nat, buf: seq<Byte>, r: int)
    requires WriteRan(l, v0, v1, v, f, news, offset, buf, r)
    requires Admissible(l, |v0.chains[f]|, v0.files[f].size, offset, |buf|)
    ensures ExtendedView(l, v0, v1, f, news, offset) && |v1.chains[f]| == |v0.chains[f]| + |news|
    ensures news != [] || (buf != [] && offset + |buf| + l.bpc <= TWO32) ==>
              offset < |v1.chains[f]| * l.bpc && r == |buf|
    ensures news != [] ==> offset + |buf| > v0.files[f].size && Fits(l.bpc, |v1.chains[f]|, offset + |buf|)
  {
    hide Good, ExtendedView, WrittenView, Admissible, Needed, Fits, Readable, FreeSet;
    GoodParts(l, v0);
    GoodReadable(l, v0, f);
    var newSize, size, len := (offset + |buf|) % TWO32, v0.files[f].size, |v0.chains[f]|;
    if newSize > size {
      ReachArithmetic(l, len, size, offset, |buf|);
      ExtendedHead(l, v0, v1, f, news, newSize);
      UptoLess(l, v0, v1, f, news, newSize, offset);
    } else {
      StartsInside(l, len, size, offset, |buf|);
      NotExtended(l, v0, f, offset);
    }
  }

  lemma StartsInside(l: Layout, len: nat, size: nat, offset: nat, n: nat)
    requires 0 < l.bpc && offset < TWO32 && n < TWO32 && size < TWO32
    requires Admissible(l, len, size, offset, n) && (offset + n) % TWO32 <= size
    ensures offset <= size && (offset + n < TWO32 ==> offset + n <= size)
  {
  }

  lemma NotExtended(l: Layout, v: View, f: nat, offset: nat)
    requires Good(l, v) && f in v.chains && offset <= v.files[f].size
    ensures ExtendedView(l, v, v, f, [], offset)
  {
    GoodReadable(l, v, f);
    assert v.chains[f] + [] == v.chains[f] && v.chains[f := v.chains[f]] == v.chains;
    ZeroExtendedSelf(ChainData(l, v.bytes, v.chains[f]), v.files[f].size, offset);
  }

  lemma AdmissibleOutcome(l: Layout, v0: View, v1: View, v: View, f: nat, news: seq<int>, offset: nat, buf: seq<Byte>, r: int)
    requires WriteRan(l, v0, v1, v, f, news, offset, buf, r)
    requires Admissible(l, |v0.chains[f]|, v0.files[f].size, offset, |buf|)
    ensures Good(l, v) && OthersSame(l, v0, v, f) && Readable(l, v0, f) && Readable(l, v, f)
    ensures Content(l, v, f) == (if r < 0 then Content(l, v0, f) else Overwritten(Content(l, v0, f), offset, buf[..r]))
    ensures buf != [] && offset + |buf| + l.bpc <= TWO32 ==> r == |buf|
    ensures r == -3 || 0 <= r <= |buf|
    ensures v0.files[f].size < offset + |buf| < TWO32 ==>
              Needed(l.bpc, |v0.chains[f]|, offset + |buf|) <= |FreeSet(v0.table, l.clusters)|
  {
    hide Good, OthersSame, Content, ExtendedView, WrittenView, Admissible, Needed, Readable, WriteRan, Overwritten, FreeSet;
    WriteRanParts(l, v0, v1, v, f, news, offset, buf, r);
    WriteReach(l, v0, v1, v, f, news, offset, buf, r);
    ExtendedHead(l, v0, v1, f, news, offset);
    if r < 0 {
      ExtendStep(l, v0, v1, f, news, offset);
    } else {
      WrittenSize(l, v1, v, f, offset, buf[..r]);
      WriteStep(l, v0, v1, v, f, news, offset, buf[..r]);
    }
  }

  lemma WrittenSize(l: Layout, v1: View, v: View, f: nat, offset: nat, data: seq<Byte>)
    requires WrittenView(l, v1, v, f, offset, data)
    ensures f in v1.files && f in v.files
    ensures v.files[f].size == if offset + |data| > v1.files[f].size then offset + |data| else v1.files[f].size
  {
  }

  lemma StrayOutcome(l: Layout, v0: View, v1: View, v: View, f: nat, news: seq<int>, offset: nat, buf: seq<Byte>, r: int)
    requires WriteRan(l, v0, v1, v, f, news, offset, buf, r)
    requires Stray(l, |v0.chains[f]|, v0.files[f].size, offset, |buf|)
    ensures r == -3 && v.files == v0.files && |news| == Extra(l, |v0.chains[f]|, v0.files[f].size, offset, |buf|)
    ensures OthersSame(l, v0, v, f) && Readable(l, v0, f) && Readable(l, v, f) && Content(l, v, f) == Content(l, v0, f)
    ensures Good(l, v) <==> news == []
    ensures |news| <= |FreeSet(v0.table, l.clusters)|
  {
    hide Good, ExtendedView, WrittenView, Needed, OthersSame, RestStays, Readable, FreeSet;
    GoodParts(l, v0);
    AllReadable(l, v0);
    var size, len, newSize := v0.files[f].size, |v0.chains[f]|, (offset + |buf|) % TWO32;
    GoodReadable(l, v0, f);
    if newSize > size {
      ExtendedHead(l, v0, v1, f, news, newSize);
      ExtendStep(l, v0, v1, f, news, newSize);
      if news != [] && Good(l, v) {
        GoodReadable(l, v, f);
        FitsUnique(l.bpc, len, |v.chains[f]|, size);
      }
    }
  }

  lemma GapIff(d0: seq<Byte>, d1: seq<Byte>, size: nat, newSize: nat, offset: nat, data: seq<Byte>)
    requires size <= |d0| <= |d1| == offset + |data| && size < offset
    requires if newSize > size then ZeroExtended(d0, d1, size, newSize) && RestKept(d0, d1, size, newSize) else d1 == d0
    ensures var d := Splice(d1, offset, data);
      && d[..size] == d0[..size] && d[offset..] == data
      && (d == Overwritten(d0[..size], offset, data) <==> GapClear(d0, size, newSize, offset))
  {
    hide Overwritten, GapClear, RestKept, ZeroExtended;
    assert d1[..size] == d0[..size] by { GapPrefix(d0, d1, size, newSize); }
    GapLeft(d0, d1, size, newSize, offset);
    GapRead(d0[..size], d1, offset, data);
  }

  lemma GapPrefix(d0: seq<Byte>, d1: seq<Byte>, size: nat, newSize: nat)
    requires size <= |d0| <= |d1|
    requires if newSize > size then ZeroExtended(d0, d1, size, newSize) else d1 == d0
    ensures d1[..size] == d0[..size]
  {
  }

  lemma GapLeft(d0: seq<Byte>, d1: seq<Byte>, size: nat, newSize: nat, offset: nat)
    requires size <= |d0| <= |d1| && offset <= |d1|
    requires if newSize > size then ZeroExtended(d0, d1, size, newSize) && RestKept(d0, d1, size, newSize) else d1 == d0
    ensures (forall k | size <= k < offset :: d1[k] == 0) <==> GapClear(d0, size, newSize, offset)
  {
    if forall k | size <= k < offset :: d1[k] == 0 {
      forall k | size <= k < offset && newSize <= k < |d0| && !(size == 0 && newSize > 0) ensures d0[k] == 0 {
        assert d1[k] == 0;
      }
    }
  }

  /** A write over a prefix of the chain is an overwrite exactly when it leaves zeros in front of itself. */
  lemma GapRead(s: seq<Byte>, d1: seq<Byte>, offset: nat, data: seq<Byte>)
    requires |s| < offset && |d1| == offset + |data| && d1[..|s|] == s
    ensures var d := Splice(d1, offset, data);
      && d[..|s|] == s && d[offset..] == data
      && (d == Overwritten(s, offset, data) <==> forall k | |s| <= k < offset :: d1[k] == 0)
  {
    var d, o := Splice(d1, offset, data), Overwritten(s, offset, data);
    assert forall k | 0 <= k < |s| :: d[k] == d1[k] == s[k] == o[k] by {
      assert forall k | 0 <= k < |s| :: d1[k] == d1[..|s|][k];
    }
    assert forall k | |s| <= k < offset :: o[k] == 0 && d[k] == d1[k];
    assert forall k | offset <= k < |d| :: o[k] == d[k];
    if d == o {
      forall k | |s| <= k < offset ensures d1[k] == 0 {
        assert d[k] == o[k];
      }
    }
  }

  lemma LappedOutcome(l: Layout, v0: View, v1: View, v: View, f: nat, news: seq<int>, offset: nat, buf: seq<Byte>, r: int)
    requires WriteRan(l, v0, v1, v, f, news, offset, buf, r)
    requires Lapped(l, |v0.chains[f]|, v0.files[f].size, offset, |buf|)
    ensures r >= 0 && LappedResult(l, v0, v, f, offset, buf, r)
  {
    hide Good, OthersSame, Needed, Content, Readable, ChainData, WriteRan, ExtendedView, WrittenView, Extra, Fits, GapClear, Overwritten;
    WriteRanParts(l, v0, v1, v, f, news, offset, buf, r);
    GoodReadable(l, v0, f);
    LappedReach(l, v0, v1, v, f, news, offset, buf, r);
    LappedView(l, v0, v1, v, f, news, offset, buf, r);
    var size, newSize := v0.files[f].size, (offset + |buf|) % TWO32;
    WriteKeeps(l, v0, v1, v, f, news, if newSize > size then newSize else size, offset, buf[..r]);
    GapIff(ChainData(l, v0.bytes, v0.chains[f]), ChainData(l, v1.bytes, v1.chains[f]), size, newSize, offset, buf[..r]);
  }

  lemma LappedView(l: Layout, v0: View, v1: View, v: View, f: nat, news: seq<int>, offset: nat, buf: seq<Byte>, r: int)
    requires WriteRan(l, v0, v1, v, f, news, offset, buf, r) && Readable(l, v0, f) && l.Sound()
    requires Lapped(l, |v0.chains[f]|, v0.files[f].size, offset, |buf|)
    requires 0 <= r <= |buf| && WrittenView(l, v1, v, f, offset, buf[..r]) && offset + r == |v1.chains[f]| * l.bpc
    ensures f in v1.chains && Readable(l, v, f) && OnVolume(l, v1.bytes) && Clusters(l, v1.chains[f]) && Clusters(l, v0.chains[f])
    ensures var size, newSize := v0.files[f].size, (offset + |buf|) % TWO32;
            var d0, d1 := ChainData(l, v0.bytes, v0.chains[f]), ChainData(l, v1.bytes, v1.chains[f]);
      && ExtendedView(l, v0, v1, f, news, if newSize > size then newSize else size)
      && size <= |d0| <= |d1| == offset + r
      && (if newSize > size then ZeroExtended(d0, d1, size, newSize) && RestKept(d0, d1, size, newSize) else d1 == d0)
      && Content(l, v0, f) == d0[..size] && Content(l, v, f) == Splice(d1, offset, buf[..r])
  {
    hide Good, Needed, DataKept, Ownership, CopiesHold, ZeroExtended, Extended, LowestFree, ChainData;
    var size, newSize := v0.files[f].size, (offset + |buf|) % TWO32;
    if newSize <= size {
      NotExtended(l, v0, f, size);
    } else {
      assert RestKept(ChainData(l, v0.bytes, v0.chains[f]), ChainData(l, v1.bytes, v1.chains[f]), size, newSize);
    }
  }

  /** A lapped write stops at the end of the chain, which becomes the end of the file. */
  lemma LappedReach(l: Layout, v0: View, v1: View, v: View, f: nat, news: seq<int>, offset: nat, buf: seq<Byte>, r: int)
    requires WriteRan(l, v0, v1, v, f, news, offset, buf, r)
    requires Lapped(l, |v0.chains[f]|, v0.files[f].size, offset, |buf|)
    ensures 0 <= r <= |buf| && |v1.chains[f]| == |v0.chains[f]| + |news| && offset + r == |v1.chains[f]| * l.bpc
    ensures WrittenView(l, v1, v, f, offset, buf[..r]) && f in v.files && v.files[f].size == offset + r
    ensures Fits(l.bpc, |v1.chains[f]|, offset + r)
  {
    hide Good, Needed, DataKept, Ownership, CopiesHold, ZeroExtended, RestStays, Extended, LowestFree;
    GoodParts(l, v0);
    GoodReadable(l, v0, f);
  }

  /** An extension that finds too few free clusters leaves every file as it was. */
  lemma WriteRefused(l: Layout, v0: View, v: View, f: nat, offset: nat, buf: seq<Byte>)
    requires Good(l, v0) && f in v0.chains && offset < TWO32 && |buf| < TWO32
    requires var newSize := (offset + |buf|) % TWO32;
             newSize > v0.files[f].size && Needed(l.bpc, |v0.chains[f]|, newSize) > |FreeSet(v0.table, l.clusters)|
    requires Good(l, v) && OthersSame(l, v0, v, f) && v.files == v0.files
    requires Readable(l, v0, f) && Readable(l, v, f) && Content(l, v, f) == Content(l, v0, f)
    ensures WriteResult(l, v0, v, f, offset, buf, -2)
  {
    hide Good, OthersSame, Content, Needed, Admissible, Readable, FreeSet, Fits, Ownership, GapClear;
    GoodParts(l, v0);
    NoWrap(l, |v0.chains[f]|, v0.files[f].size, offset, |buf|);
  }

  /** An admissible write that ends behind the file does not wrap. */
  lemma NoWrap(l: Layout, len: nat, size: nat, offset: nat, n: nat)
    requires 0 < l.bpc && offset < TWO32 && n < TWO32 && (offset + n) % TWO32 > size
    ensures Admissible(l, len, size, offset, n) || n == 0 ==> (offset + n) % TWO32 == offset + n
  {
  }

  lemma WriteConcludes(l: Layout, v0: View, v1: View, v: View, f: nat, news: seq<int>, offset: nat, buf: seq<Byte>, r: int)
    requires WriteRan(l, v0, v1, v, f, news, offset, buf, r)
    ensures WriteResult(l, v0, v, f, offset, buf, r)
  {
    hide Good, OthersSame, Content, Needed, Admissible, Stray, Lapped, LappedResult, WriteCode, Extra, WriteRan, Overwritten, Readable, WrittenView, FreeSet;
    WriteRanParts(l, v0, v1, v, f, news, offset, buf, r);
    if Admissible(l, |v0.chains[f]|, v0.files[f].size, offset, |buf|) {
      AdmissibleOutcome(l, v0, v1, v, f, news, offset, buf, r);
    }
    if Stray(l, |v0.chains[f]|, v0.files[f].size, offset, |buf|) {
      StrayOutcome(l, v0, v1, v, f, news, offset, buf, r);
    }
    if Lapped(l, |v0.chains[f]|, v0.files[f].size, offset, |buf|) {
      LappedOutcome(l, v0, v1, v, f, news, offset, buf, r);
    }
    WriteReturns(l, v0, v1, v, f, news, offset, buf, r);
  }

  lemma WriteReturns(l: Layout, v0: View, v1: View, v: View, f: nat, news: seq<int>, offset: nat, buf: seq<Byte>, r: int)
    requires WriteRan(l, v0, v1, v, f, news, offset, buf, r) && 0 < l.bpc && f in v0.files
    ensures r == WriteCode(l, |v0.chains[f]|, v0.files[f].size, offset, |buf|, |FreeSet(v0.table, l.clusters)|)
  {
    hide Good, Needed, DataKept, Ownership, CopiesHold, ZeroExtended, RestStays, Extended, LowestFree, FreeSet, ChainData;
  }

  lemma WriteRanParts(l: Layout, v0: View, v1: View, v: View, f: nat, news: seq<int>, offset: nat, buf: seq<Byte>, r: int)
    requires WriteRan(l, v0, v1, v, f, news, offset, buf, r)
    ensures Good(l, v0) && l.Sound() && f in v0.chains && f in v0.files && |buf| < TWO32
    ensures if r < 0 then r == -3 && v == v1 else r <= |buf| && WrittenView(l, v1, v, f, offset, buf[..r])
    ensures v0.files[f].size < offset + |buf| < TWO32 ==>
              Needed(l.bpc, |v0.chains[f]|, offset + |buf|) <= |FreeSet(v0.table, l.clusters)|
  {
    hide ExtendedView, WrittenView, Needed, FreeSet, Good, Ownership, RestStays, CopiesHold, Readable;
    GoodParts(l, v0);
    if offset + |buf| < TWO32 {
      assert (offset + |buf|) % TWO32 == offset + |buf|;
    }
  }

  lemma AllReadable(l: Layout, v: View)
    requires Good(l, v)
    ensures forall g | g in v.chains :: Readable(l, v, g)
    ensures forall f :: OthersSame(l, v, v, f)
  {
  }

  /** After a pure table flush every file reads as before. */
  lemma FlushedView(l: Layout, v0: View, v: View)
    requires Good(l, v0) && OffTablesSame(l, v0.bytes, v.bytes) && CopiesHold(l, v.bytes, v.table)
    requires v.table == v0.table && v.files == v0.files && v.chains == v0.chains
    ensures Good(l, v) && forall f :: OthersSame(l, v0, v, f)
  {
    forall g | g in v.chains ensures Readable(l, v0, g) && Readable(l, v, g) && Content(l, v, g) == Content(l, v0, g) {
      GoodReadable(l, v0, g);
      FlushKeepsData(l, v0.bytes, v.bytes, v0.table, v.chains[g]);
    }
  }
}
