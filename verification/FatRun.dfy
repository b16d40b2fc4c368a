/**
 * Whole runs of file operations on a FAT volume, against files as plain byte strings.
 */
module FatRun {
  import opened Sequences
  import opened Machine
  import opened FatTable
  import opened FatLayout
  import opened FatData
  import opened FatCache
  import opened FatChainOps
  import opened FatVolume

  /** The volume as its users see it: a byte string for every file. */
  type Strings = map<nat, seq<Byte>>

  datatype Op =
    | Write(f: nat, data: seq<Byte>, offset: U32)
    | SetSize(f: nat, size: U32)
    | Make(f: nat, slot: bool)
    | Remove(f: nat)
    | Read(f: nat, offset: U32, count: U32)

  datatype Result = Result(code: int, data: seq<Byte>)

  /** The length of a buffer is a machine integer. */
  predicate Sized(op: Op) {
    op.Write? ==> |op.data| < TWO32
  }

  /** Everything but a stray write that would add clusters, which leaves a chain longer than its file. */
  predicate Proper(l: Layout, files: Files, op: Op)
    requires 0 < l.bpc
  {
    op.Write? && op.f in files ==>
      var size := files[op.f].size;
      var len := Kept(l.bpc, size);
      !(Stray(l, len, size, op.offset, |op.data|) && Extra(l, len, size, op.offset, |op.data|) > 0)
  }

  /** `fs_truncate` refuses sizes that are negative or larger than the volume. */
  predicate Oversized(l: Layout, size: U32) {
    size >= 0x8000_0000 || size > l.MaxFileSize()
  }

  ghost function ContentOf(l: Layout, v: View, f: nat): seq<Byte> {
    if Readable(l, v, f) then Content(l, v, f) else []
  }

  ghost function AllContents(l: Layout, v: View): Strings {
    map f | f in v.chains :: ContentOf(l, v, f)
  }

  /** The volume has fewer free clusters than a file that is to hold `size` bytes still needs. */
  ghost predicate Short(l: Layout, v: View, f: nat, size: nat)
    requires 0 < l.bpc
  {
    && f in v.chains && f in v.files && size > v.files[f].size && l.clusters <= |v.table|
    && Needed(l.bpc, |v.chains[f]|, size) > |FreeSet(v.table, l.clusters)|
  }

  /** A write that is not lapped overwrites; a lapped one does exactly when no stale bytes stand in its gap, and keeps
      the file in front of the gap and the data behind it in any case. */
  ghost predicate WriteDone(l: Layout, v: View, m: Strings, m': Strings, f: nat, data: seq<Byte>, offset: nat, code: int)
    requires 0 < l.bpc
  {
    && f in m && f in v.chains && f in v.files && 0 <= code <= |data| && OnVolume(l, v.bytes) && Clusters(l, v.chains[f])
    && var size, done := v.files[f].size, m[f := Overwritten(m[f], offset, data[..code])];
       if !Lapped(l, |v.chains[f]|, size, offset, |data|) then m' == done
       else
         && m' == m[f := if f in m' then m'[f] else []] && f in m' && size <= offset && |m[f]| == size && |m'[f]| == offset + code
         && m'[f][..size] == m[f] && m'[f][offset..] == data[..code]
         && (m' == done <==> GapClear(ChainData(l, v.bytes, v.chains[f]), size, (offset + |data|) % TWO32, offset))
  }

  /** Exactly what a read returns, and when that is the part of the byte string it should be. */
  ghost predicate Returned(l: Layout, v: View, m: Strings, f: nat, offset: nat, count: U32, data: seq<Byte>) {
    && f in m && f in v.chains && f in v.files && OnVolume(l, v.bytes) && Clusters(l, v.chains[f])
    && var size, d := v.files[f].size, ChainData(l, v.bytes, v.chains[f]);
       var n := if count < TWO31 then count else size;
       && size <= |d| && data == BytesRead(d, size, offset, n)
       && (offset >= size ==> data == [])
       && (offset < size ==> (data == Slice(m[f], offset, n) <==> offset + n < TWO32 || offset + n - TWO32 > size || size == |d|))
  }

  /** One operation, on byte strings.  Writing and growing fail only for want of clusters, or where 32-bit sums wrap; a
      file that is not there, or has no chain, refuses all that would need one. */
  ghost predicate Step(l: Layout, v: View, v': View, op: Op, r: Result)
    requires 0 < l.bpc
  {
    var m, m' := AllContents(l, v), AllContents(l, v');
    match op
    case Write(f, data, offset) =>
      if f in m then
        && f in v.chains && f in v.files && l.clusters <= |v.table|
        && r.code == WriteCode(l, |v.chains[f]|, v.files[f].size, offset, |data|, |FreeSet(v.table, l.clusters)|)
        && (0 < |data| && offset + |data| + l.bpc <= TWO32 ==> r.code == -2 || r.code == |data|)
        && if r.code < 0 then m' == m else WriteDone(l, v, m, m', f, data, offset, r.code)
      else r.code == -1 && m' == m
    case SetSize(f, size) =>
      if size >= TWO31 || size > l.MaxFileSize() then r.code == -1 && m' == m
      else if f in m then
        && (r.code == 0 || r.code == -2) && (r.code == -2 <==> Short(l, v, f, size))
        && m' == if r.code == 0 then m[f := Resized(m[f], size)] else m
      else r.code == (if f !in v.files then -1 else if size == v.files[f].size then 0 else -2) && m' == m
    case Make(f, slot) =>
      && (r.code == 0 <==> f !in v.files && slot && exists c | 2 <= c < l.clusters && c < |v.table| :: v.table[c] == 0)
      && m' == if r.code == 0 then m[f := []] else m
    case Remove(f) => (r.code == 0 <==> f in v.files) && m' == if r.code == 0 then m - {f} else m
    case Read(f, offset, count) =>
      && m' == m
      && if f in m then r.code == |r.data| && Returned(l, v, m, f, offset, count, r.data)
         else r == Result(if f in v.files && (offset >= v.files[f].size || count == 0) then 0 else -1, [])
  }

  lemma SameFile(l: Layout, v0: View, v: View, f: nat)
    requires Good(l, v0) && Good(l, v) && OthersSame(l, v0, v, f) && f in v0.chains && f in v.chains
    ensures Readable(l, v, f) && AllContents(l, v) == AllContents(l, v0)[f := Content(l, v, f)]
  {
    hide Good, Content, Ownership;
    GoodReadable(l, v, f);
    Others(l, v0, v, f);
  }

  lemma Others(l: Layout, v0: View, v: View, f: nat)
    requires Good(l, v0) && Good(l, v) && OthersSame(l, v0, v, f)
    ensures forall g | g != f :: (g in v.chains <==> g in v0.chains) && (g in v.chains ==> ContentOf(l, v, g) == ContentOf(l, v0, g))
  {
  }

  lemma GoneFile(l: Layout, v0: View, v: View, f: nat)
    requires Good(l, v0) && Good(l, v) && OthersSame(l, v0, v, f) && f !in v.chains
    ensures AllContents(l, v) == AllContents(l, v0) - {f}
  {
    hide Good, Content, Ownership;
    Others(l, v0, v, f);
  }

  lemma NewFile(l: Layout, v0: View, v: View, f: nat)
    requires Good(l, v0) && Good(l, v) && OthersSame(l, v0, v, f) && f !in v0.chains && f in v.chains
    ensures Readable(l, v, f) && AllContents(l, v) == AllContents(l, v0)[f := Content(l, v, f)]
  {
    hide Good, Content, Ownership;
    GoodReadable(l, v, f);
    Others(l, v0, v, f);
  }

  lemma KeptIsLength(l: Layout, v: View, f: nat)
    requires Good(l, v) && f in v.chains
    ensures f in v.files && 0 < l.bpc && Kept(l.bpc, v.files[f].size) == |v.chains[f]|
  {
    hide Good, Fits, Ownership;
    GoodParts(l, v);
    GoodReadable(l, v, f);
    ChainFits(l, v.table, v.chains[f]);
    FitsSize(l.bpc, |v.chains[f]|, v.files[f].size);
    CountFits(l.bpc, v.files[f].size, |v.chains[f]|);
  }

  lemma FitsSize(bpc: nat, len: nat, size: nat)
    requires Fits(bpc, len, size)
    ensures size <= len * bpc
  {
  }

  lemma WriteIsStep(l: Layout, v0: View, v: View, f: nat, data: seq<Byte>, offset: U32, r: int)
    requires Good(l, v0) && f in v0.chains && f in v0.files && 0 < l.bpc && WriteResult(l, v0, v, f, offset, data, r) && |data| < TWO32
    requires var len, size := |v0.chains[f]|, v0.files[f].size;
      !(Stray(l, len, size, offset, |data|) && Extra(l, len, size, offset, |data|) > 0)
    ensures Good(l, v) && Step(l, v0, v, Write(f, data, offset), Result(r, []))
  {
    hide Good, Content, Ownership, OthersSame, Needed, FreeSet, Overwritten, GapClear, WriteCode, Extra, Stray, Lapped, Admissible, LappedResult, WriteDone, ChainData;
    GoodReadable(l, v0, f);
    EveryWriteIsOneOf(l, |v0.chains[f]|, v0.files[f].size, offset, |data|);
    if Lapped(l, |v0.chains[f]|, v0.files[f].size, offset, |data|) {
      LappedIsStep(l, v0, v, f, data, offset, r);
    } else {
      SameFile(l, v0, v, f);
      if r >= 0 {
        PlainDone(l, v0, v, f, data, offset, r);
      }
    }
    FullLength(l, v0, v, f, offset, data, r);
    WriteFrame(l, v0, f);
  }

  lemma FullLength(l: Layout, v0: View, v: View, f: nat, offset: U32, data: seq<Byte>, r: int)
    requires Good(l, v0) && f in v0.chains && f in v0.files && 0 < l.bpc && WriteResult(l, v0, v, f, offset, data, r) && |data| < TWO32
    ensures 0 < |data| && offset + |data| + l.bpc <= TWO32 ==> r == -2 || r == |data|
  {
    hide Good, Content, OthersSame, Needed, FreeSet, Overwritten, WriteCode, Extra, LappedResult, Readable;
    EveryWriteIsOneOf(l, |v0.chains[f]|, v0.files[f].size, offset, |data|);
  }

  lemma PlainDone(l: Layout, v0: View, v: View, f: nat, data: seq<Byte>, offset: U32, r: int)
    requires Readable(l, v0, f) && Readable(l, v, f) && 0 < l.bpc && 0 <= r <= |data|
    requires !Lapped(l, |v0.chains[f]|, v0.files[f].size, offset, |data|)
    requires AllContents(l, v) == AllContents(l, v0)[f := Content(l, v, f)]
    requires Content(l, v, f) == Overwritten(Content(l, v0, f), offset, data[..r])
    ensures WriteDone(l, v0, AllContents(l, v0), AllContents(l, v), f, data, offset, r)
  {
    hide Overwritten, GapClear, Content;
  }

  lemma LappedIsStep(l: Layout, v0: View, v: View, f: nat, data: seq<Byte>, offset: U32, r: int)
    requires Good(l, v0) && f in v0.chains && f in v0.files && 0 < l.bpc && LappedResult(l, v0, v, f, offset, data, r)
    requires Lapped(l, |v0.chains[f]|, v0.files[f].size, offset, |data|)
    ensures Good(l, v)
    ensures if r < 0 then AllContents(l, v) == AllContents(l, v0)
            else WriteDone(l, v0, AllContents(l, v0), AllContents(l, v), f, data, offset, r)
  {
    hide Good, Overwritten, GapClear, Content, Lapped, OthersSame, Ownership;
    SameFile(l, v0, v, f);
    var m, m' := AllContents(l, v0), AllContents(l, v);
    if r >= 0 {
      var done := m[f := Overwritten(m[f], offset, data[..r])];
      assert m' == done <==> m'[f] == done[f];
    }
  }

  lemma WriteFrame(l: Layout, v: View, f: nat)
    requires Good(l, v) && f in v.chains
    ensures f in AllContents(l, v) && f in v.files && l.clusters <= |v.table|
  {
  }
  lemma ResizeIsStep(l: Layout, v0: View, v: View, f: nat, size: U32, r: int)
    requires Good(l, v0) && Good(l, v) && OthersSame(l, v0, v, f) && f in v0.chains && 0 < l.bpc && !Oversized(l, size)
    requires Readable(l, v0, f) && Readable(l, v, f) && (r == 0 || r == -2) && (r == -2 <==> Short(l, v0, f, size))
    requires Content(l, v, f) == if r == 0 then Resized(Content(l, v0, f), size) else Content(l, v0, f)
    ensures Step(l, v0, v, SetSize(f, size), Result(r, []))
  {
    hide Good, Content, Ownership, OthersSame, Needed, FreeSet, Resized;
    SameFile(l, v0, v, f);
  }

  lemma Unchanged(l: Layout, v0: View, v: View, f: nat)
    requires Good(l, v0) && Good(l, v) && OthersSame(l, v0, v, f) && f !in v0.chains && f !in v.chains
    ensures AllContents(l, v) == AllContents(l, v0)
  {
    hide Good, Content, Ownership;
    Others(l, v0, v, f);
  }

  method DoWrite(vol: Volume, op: Op) returns (r: Result)
    requires vol.Inv() && 0 < vol.cache.layout.bpc && Sized(op) && Proper(vol.cache.layout, vol.files, op) && op.Write?
    modifies vol, vol.cache.table, vol.cache.dirty, vol.cache.dev
    ensures vol.cache.Valid() && old(vol.cache.dev.faults) <= vol.cache.dev.faults
    ensures vol.cache.dev.faults == old(vol.cache.dev.faults) ==>
              vol.Inv() && Step(vol.cache.layout, old(vol.State()), vol.State(), op, r)
  {
    hide Good, Content, Ownership, OthersSame, Needed, FreeSet, WriteResult, CopiesHold, Readable, Overwritten, Stray, Extra, WriteDone;
    ghost var l, v0 := vol.cache.layout, vol.State();
    if op.f in v0.chains {
      KeptIsLength(l, v0, op.f);
    }
    var n := vol.WriteAt(op.f, op.data, op.offset);
    r := Result(n, []);
    if vol.cache.dev.faults == old(vol.cache.dev.faults) && op.f in v0.chains {
      WriteIsStep(l, v0, vol.State(), op.f, op.data, op.offset, n);
    }
  }

  /** `fs_truncate` */
  method DoResize(vol: Volume, op: Op) returns (r: Result)
    requires vol.Inv() && 0 < vol.cache.layout.bpc && op.SetSize?
    modifies vol, vol.cache.table, vol.cache.dirty, vol.cache.dev
    ensures vol.cache.Valid() && old(vol.cache.dev.faults) <= vol.cache.dev.faults
    ensures vol.cache.dev.faults == old(vol.cache.dev.faults) ==>
              vol.Inv() && Step(vol.cache.layout, old(vol.State()), vol.State(), op, r)
  {
    hide Good, Content, Ownership, OthersSame, Needed, FreeSet, Resized, CopiesHold, Readable;
    ghost var l, v0 := vol.cache.layout, vol.State();
    GoodParts(l, v0);
    if Oversized(vol.cache.layout, op.size) {
      return Result(-1, []);
    }
    var n := vol.Resize(op.f, op.size);
    r := Result(n, []);
    if vol.cache.dev.faults == old(vol.cache.dev.faults) {
      if op.f in v0.chains {
        ResizeIsStep(l, v0, vol.State(), op.f, op.size, n);
      } else {
        Unchanged(l, v0, vol.State(), op.f);
      }
    }
  }

  method DoMake(vol: Volume, op: Op) returns (r: Result)
    requires vol.Inv() && 0 < vol.cache.layout.bpc && op.Make?
    modifies vol, vol.cache.table, vol.cache.dirty, vol.cache.dev
    ensures vol.cache.Valid() && old(vol.cache.dev.faults) <= vol.cache.dev.faults
    ensures vol.cache.dev.faults == old(vol.cache.dev.faults) ==>
              vol.Inv() && Step(vol.cache.layout, old(vol.State()), vol.State(), op, r)
  {
    hide Good, Content, Ownership, OthersSame, CopiesHold;
    ghost var l, v0 := vol.cache.layout, vol.State();
    GoodParts(l, v0);
    r := Result(-1, []);
    if op.f !in vol.files {
      var ok := vol.Create(op.f, op.slot);
      r := Result(if ok then 0 else -1, []);
      if vol.cache.dev.faults == old(vol.cache.dev.faults) && ok {
        NewFile(l, v0, vol.State(), op.f);
      }
    }
  }

  method DoRemove(vol: Volume, op: Op) returns (r: Result)
    requires vol.Inv() && 0 < vol.cache.layout.bpc && op.Remove?
    modifies vol, vol.cache.table, vol.cache.dirty, vol.cache.dev
    ensures vol.cache.Valid() && old(vol.cache.dev.faults) <= vol.cache.dev.faults
    ensures vol.cache.dev.faults == old(vol.cache.dev.faults) ==>
              vol.Inv() && Step(vol.cache.layout, old(vol.State()), vol.State(), op, r)
  {
    hide Good, Content, Ownership, OthersSame, CopiesHold, FreeSet;
    ghost var l, v0 := vol.cache.layout, vol.State();
    var ok := vol.Delete(op.f);
    r := Result(if ok then 0 else -1, []);
    if vol.cache.dev.faults == old(vol.cache.dev.faults) && ok {
      GoneFile(l, v0, vol.State(), op.f);
    }
  }

  method DoRead(vol: Volume, op: Op) returns (r: Result)
    requires vol.Inv() && 0 < vol.cache.layout.bpc && op.Read?
    modifies vol, vol.cache.table, vol.cache.dirty, vol.cache.dev
    ensures vol.cache.Valid() && old(vol.cache.dev.faults) <= vol.cache.dev.faults
    ensures vol.cache.dev.faults == old(vol.cache.dev.faults) ==>
              vol.Inv() && Step(vol.cache.layout, old(vol.State()), vol.State(), op, r)
  {
    hide Good, Content, Ownership, CopiesHold, Readable, Returned;
    ghost var l, v := vol.cache.layout, vol.State();
    r := Result(-1, []);
    GoodParts(l, v);
    if op.f in vol.files {
      var n, data := vol.ReadAt(op.f, op.offset, op.count);
      r := Result(n, data);
      if vol.cache.dev.faults == old(vol.cache.dev.faults) && op.f in v.chains {
        ReadIsStep(l, v, op.f, op.offset, op.count, data);
      }
    }
  }

  lemma ReadIsStep(l: Layout, v: View, f: nat, offset: U32, count: U32, data: seq<Byte>)
    requires Good(l, v) && f in v.chains && Readable(l, v, f)
    requires data == BytesRead(ChainData(l, v.bytes, v.chains[f]), v.files[f].size, offset, Asked(count, v.files[f].size))
    ensures Returned(l, v, AllContents(l, v), f, offset, count, data)
  {
    AskedIs(count, v.files[f].size);
    hide Good, BytesRead, Slice, ChainData, Asked;
    assert BytesRead(ChainData(l, v.bytes, v.chains[f]), v.files[f].size, offset, Asked(count, v.files[f].size)) == data;
    ReadBehindEnd(ChainData(l, v.bytes, v.chains[f]), v.files[f].size, offset, Asked(count, v.files[f].size));
    GoodReadable(l, v, f);
    ChainBelow4GB(l, v, f);
    if offset < v.files[f].size {
      ReadExactIff(ChainData(l, v.bytes, v.chains[f]), v.files[f].size, offset, Asked(count, v.files[f].size));
    }
  }

  lemma AskedIs(count: U32, size: U32)
    ensures Asked(count, size) == if count < TWO31 then count else size
  {
  }

  lemma ReadBehindEnd(d: seq<Byte>, size: nat, offset: nat, n: nat)
    requires size <= |d|
    ensures offset >= size ==> BytesRead(d, size, offset, n) == []
  {
  }

  lemma ChainBelow4GB(l: Layout, v: View, f: nat)
    requires Good(l, v) && f in v.chains && Readable(l, v, f)
    ensures |ChainData(l, v.bytes, v.chains[f])| <= TWO32
  {
    hide Fits, ChainData;
    GoodReadable(l, v, f);
    ChainFits(l, v.table, v.chains[f]);
  }

  /** One operation of a run. */
  method Perform(vol: Volume, op: Op) returns (r: Result)
    requires vol.Inv() && 0 < vol.cache.layout.bpc && Sized(op) && Proper(vol.cache.layout, vol.files, op)
    modifies vol, vol.cache.table, vol.cache.dirty, vol.cache.dev
    ensures vol.cache.Valid() && old(vol.cache.dev.faults) <= vol.cache.dev.faults
    ensures vol.cache.dev.faults == old(vol.cache.dev.faults) ==>
              vol.Inv() && Step(vol.cache.layout, old(vol.State()), vol.State(), op, r)
  {
    hide Good, Step, CopiesHold, Proper;
    match op
    case Write(_, _, _) => r := DoWrite(vol, op);
    case SetSize(_, _) => r := DoResize(vol, op);
    case Make(_, _) => r := DoMake(vol, op);
    case Remove(_) => r := DoRemove(vol, op);
    case Read(_, _, _) => r := DoRead(vol, op);
  }

  /** A run of operations, up to the first I/O error or improper write, is a run on byte strings. */
  method Run(vol: Volume, ops: seq<Op>) returns (results: seq<Result>, ghost views: seq<View>)
    requires vol.Inv() && forall k | 0 <= k < |ops| :: Sized(ops[k])
    modifies vol, vol.cache.table, vol.cache.dirty, vol.cache.dev
    ensures old(vol.cache.dev.faults) <= vol.cache.dev.faults && |results| <= |ops| && |views| == |results| + 1
    ensures views[0] == old(vol.State()) && 0 < vol.cache.layout.bpc
    ensures forall k | 0 <= k < |results| :: Step(vol.cache.layout, views[k], views[k + 1], ops[k], results[k])
    ensures vol.cache.dev.faults == old(vol.cache.dev.faults) ==>
      && vol.Inv() && views[|results|] == vol.State()
      && (|results| < |ops| ==> !Proper(vol.cache.layout, vol.files, ops[|results|]))
  {
    hide Step, Good, CopiesHold, Proper;
    GoodParts(vol.cache.layout, vol.State());
    var before := vol.cache.dev.faults;
    results, views := [], [vol.State()];
    while |results| < |ops| && Proper(vol.cache.layout, vol.files, ops[|results|])
      invariant |results| <= |ops| && |views| == |results| + 1 && views[0] == old(vol.State())
      invariant vol.Inv() && vol.cache.dev.faults == before && views[|results|] == vol.State()
      invariant forall k | 0 <= k < |results| :: Step(vol.cache.layout, views[k], views[k + 1], ops[k], results[k])
      decreases |ops| - |results|
    {
      var r := Perform(vol, ops[|results|]);
      if vol.cache.dev.faults != before {
        break;
      }
      results, views := results + [r], views + [vol.State()];
    }
  }
}
