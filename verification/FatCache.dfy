/** The write-back cache of the file allocation table: in-memory entries with dirty marks, flushed to
    every FAT copy in runs of consecutive dirty sectors. */
module FatCache {
  import opened Sequences
  import opened Machine
  import opened FatLayout
  import opened FatTable

  const PER_SECTOR: nat := 256

  /** Byte `o` of the table as it is stored, little endian. */
  function TableByte(t: Table, o: nat): (b: Byte)
    requires o < 2 * |t|
  {
    if o % 2 == 0 then t[o / 2] % 0x100 else t[o / 2] / 0x100
  }

  function TableBytes(t: Table, from: nat, count: nat): (r: seq<Byte>)
    requires from + count <= 2 * |t|
    ensures |r| == count && forall k | 0 <= k < count :: r[k] == TableByte(t, from + k)
  {
    if count == 0 then [] else TableBytes(t, from, count - 1) + [TableByte(t, from + count - 1)]
  }

  predicate InTables(l: Layout, a: int) {
    exists i | 0 <= i < |l.fatAddr| :: l.fatAddr[i] <= a < l.fatAddr[i] + 2 * l.entries
  }

  ghost predicate OffTablesSame(l: Layout, b0: seq<Byte>, b: seq<Byte>) {
    && |b| == |b0|
    && (forall a | 0 <= a < |b| && !InTables(l, a) :: b[a] == b0[a])
  }

  /** Byte `o` of FAT copy `i` on the device. */
  function CopyByte(l: Layout, b: seq<Byte>, i: int, o: int): (r: Byte)
    requires l.size <= |b| && 0 <= i < |l.fatAddr| && 0 <= o < 2 * l.entries
    requires l.fatAddr[i] + 2 * l.entries <= l.size
  {
    b[l.fatAddr[i] + o]
  }

  /** Every FAT copy on the device holds the table `t`. */
  ghost predicate CopiesHold(l: Layout, b: seq<Byte>, t: Table) {
    && l.TablesPlaced() && l.size <= |b| && |t| == l.entries
    && (forall i, o | 0 <= i < |l.fatAddr| && 0 <= o < 2 * l.entries ::
          CopyByte(l, b, i, o) == TableByte(t, o))
  }

  /** Mounting such a device reads the same table back from any copy. */
  lemma StoredEntry(l: Layout, b: seq<Byte>, t: Table, i: nat, c: nat)
    requires CopiesHold(l, b, t) && i < |l.fatAddr| && c < l.entries
    ensures CopyByte(l, b, i, 2 * c) as int + 0x100 * CopyByte(l, b, i, 2 * c + 1) as int == t[c]
  {
  }

  ghost predicate SectorDirty(d: seq<bool>, s: int) {
    exists c | s * PER_SECTOR <= c < (s + 1) * PER_SECTOR && 0 <= c < |d| :: d[c]
  }

  ghost function DirtySectors(d: seq<bool>, lo: nat, hi: nat): (r: set<int>) {
    set s | lo <= s < hi && SectorDirty(d, s)
  }

  lemma NextSector(d0: seq<bool>, d: seq<bool>, lo: nat, s: nat)
    requires |d| == |d0| && lo <= s
    requires forall c | 0 <= c < |d| :: d[c] == (d0[c] && !(lo <= c / PER_SECTOR < s))
    ensures (SectorDirty(d, s) <==> SectorDirty(d0, s)) && s !in DirtySectors(d0, lo, s)
    ensures DirtySectors(d0, lo, s + 1) == DirtySectors(d0, lo, s) + if SectorDirty(d0, s) then {s} else {}
  {
  }

  /** In copies below `k`, exactly the sectors in `marks` have been brought up to date with `t`; the
      rest of the device is as it was. */
  ghost predicate FlushedCopies(l: Layout, b0: seq<Byte>, b: seq<Byte>, t: Table, marks: set<int>, k: nat)
    requires l.TablesPlaced() && l.size <= |b0| && |t| == l.entries
  {
    && OffTablesSame(l, b0, b)
    && (forall i, o | 0 <= i < |l.fatAddr| && 0 <= o < 2 * l.entries ::
          CopyByte(l, b, i, o) ==
          if i < k && o / SECTOR in marks then TableByte(t, o) else CopyByte(l, b0, i, o))
  }

  ghost predicate Flushed(l: Layout, b0: seq<Byte>, b: seq<Byte>, t: Table, marks: set<int>)
    requires l.TablesPlaced() && l.size <= |b0| && |t| == l.entries
  {
    FlushedCopies(l, b0, b, t, marks, |l.fatAddr|)
  }

  /** Writing out the pending sectors completes the flush of `all`. */
  lemma PendingWritten(l: Layout, b0: seq<Byte>, b1: seq<Byte>, b2: seq<Byte>, t: Table, all: set<int>, pending: set<int>)
    requires l.TablesPlaced() && l.size <= |b0| && |t| == l.entries && pending <= all
    requires Flushed(l, b0, b1, t, all - pending) && Flushed(l, b1, b2, t, pending)
    ensures Flushed(l, b0, b2, t, all)
  {
  }

  ghost function Run(first: nat, count: nat): (r: set<int>) {
    set s | first <= s < first + count && IsSector(s)
  }

  predicate IsSector(s: int) { 0 <= s }

  lemma RunEmpty(first: nat)
    ensures Run(first, 0) == {}
  {
  }

  lemma NothingFlushed(l: Layout, b: seq<Byte>, t: Table, d: seq<bool>, lo: nat)
    requires l.TablesPlaced() && l.size <= |b| && |t| == l.entries
    ensures OffTablesSame(l, b, b) && Flushed(l, b, b, t, {}) && DirtySectors(d, lo, lo) == {}
  {
  }

  lemma NoSectors(d: seq<bool>, lo: nat, hi: nat)
    requires hi <= lo
    ensures DirtySectors(d, lo, hi) == {}
  {
  }

  lemma NothingCopied(l: Layout, b: seq<Byte>, t: Table, marks: set<int>)
    requires l.TablesPlaced() && l.size <= |b| && |t| == l.entries
    ensures FlushedCopies(l, b, b, t, marks, 0)
  {
  }

  lemma OffTablesTrans(l: Layout, b0: seq<Byte>, b1: seq<Byte>, b2: seq<Byte>)
    requires OffTablesSame(l, b0, b1) && OffTablesSame(l, b1, b2)
    ensures OffTablesSame(l, b0, b2)
  {
  }

  /** A dirty sector right behind the run joins it; with no run pending it starts one. */
  lemma ExtendRun(all: set<int>, sector: nat, runStart: nat, runLen: nat)
    requires Run(runStart, runLen) <= all && sector !in all && (runLen > 0 ==> runStart + runLen == sector)
    ensures var start := if runLen == 0 then sector else runStart;
            && Run(start, runLen + 1) <= all + {sector}
            && all + {sector} - Run(start, runLen + 1) == all - Run(runStart, runLen)
  {
  }

  lemma InRun(o: nat, first: nat, count: nat)
    ensures o / SECTOR in Run(first, count) <==> first * SECTOR <= o < first * SECTOR + count * SECTOR
  {
  }

  /** Laying a run over copy `k` changes that copy, there only. */
  lemma OverlaidByte(l: Layout, b: seq<Byte>, t: Table, first: nat, count: nat, k: nat, i: nat, o: nat)
    requires l.TablesPlaced() && l.size <= |b| && |t| == l.entries && k < |l.fatAddr| && i < |l.fatAddr|
    requires (first + count) * SECTOR <= 2 * l.entries && o < 2 * l.entries
    ensures var at := l.fatAddr[k] + first * SECTOR;
            && at + count * SECTOR <= |b|
            && CopyByte(l, Splice(b, at, TableBytes(t, first * SECTOR, count * SECTOR)), i, o) ==
               if i == k && o / SECTOR in Run(first, count) then TableByte(t, o) else CopyByte(l, b, i, o)
  {
    hide Run, TableByte, Splice, TableBytes;
    var at := l.fatAddr[k] + first * SECTOR;
    var data := TableBytes(t, first * SECTOR, count * SECTOR);
    var a := l.fatAddr[i] + o;
    InRun(o, first, count);
    if i == k {
      assert at <= a < at + count * SECTOR ==> data[a - at] == TableByte(t, o);
    } else if i < k {
      assert a < l.fatAddr[k];
    } else {
      assert l.fatAddr[k] + 2 * l.entries <= a;
    }
  }

  /** Overlaying copy `k` with one run of sectors. */
  lemma OneCopy(l: Layout, b0: seq<Byte>, b: seq<Byte>, t: Table, first: nat, count: nat, k: nat)
    requires l.TablesPlaced() && l.size <= |b0| && |t| == l.entries && k < |l.fatAddr|
    requires (first + count) * SECTOR <= 2 * l.entries
    requires FlushedCopies(l, b0, b, t, Run(first, count), k)
    ensures var at := l.fatAddr[k] + first * SECTOR;
            at + count * SECTOR <= |b| &&
            FlushedCopies(l, b0, Splice(b, at, TableBytes(t, first * SECTOR, count * SECTOR)), t, Run(first, count), k + 1)
  {
    var at := l.fatAddr[k] + first * SECTOR;
    var data := TableBytes(t, first * SECTOR, count * SECTOR);
    var b' := Splice(b, at, data);
    forall i, o | 0 <= i < |l.fatAddr| && 0 <= o < 2 * l.entries
      ensures CopyByte(l, b', i, o) ==
              if i < k + 1 && o / SECTOR in Run(first, count) then TableByte(t, o) else CopyByte(l, b0, i, o)
    {
      assert CopyByte(l, b, i, o) == if i < k && o / SECTOR in Run(first, count) then TableByte(t, o) else CopyByte(l, b0, i, o);
      OverlaidByte(l, b, t, first, count, k, i, o);
    }
    forall a | 0 <= a < |b| && !InTables(l, a) ensures b'[a] == b0[a] {
      assert !(l.fatAddr[k] <= a < l.fatAddr[k] + 2 * l.entries);
    }
  }

  /** Relative to a clean table `t0`, every changed entry is marked dirty and every mark lies in
      `[lo, hi]`. */
  ghost predicate Dirtied(t0: Table, t: Table, d: seq<bool>, lo: int, hi: int) {
    && |t| == |t0| == |d|
    && (forall c | 0 <= c < |t| :: (t[c] != t0[c] ==> d[c]) && (d[c] ==> lo <= c <= hi))
  }

  /** If an operation's range covers every entry it touched, flushing that range makes every FAT copy
      equal to the cached table. */
  lemma FlushSyncs(l: Layout, b0: seq<Byte>, b: seq<Byte>, t0: Table, t: Table, d: seq<bool>, lo: nat, hi: nat)
    requires CopiesHold(l, b0, t0) && Dirtied(t0, t, d, lo, hi)
    requires Flushed(l, b0, b, t, DirtySectors(d, lo / PER_SECTOR, hi / PER_SECTOR + 1))
    ensures CopiesHold(l, b, t)
  {
  }

  function FreeSteps(t: Table, n: nat, c: int): (r: nat)
    requires n <= |t|
    decreases Used(t, n), ValidCluster(n, c)
  {
    if !ValidCluster(n, c) then 0
    else
      FreeStep(t, n, c);
      1 + FreeSteps(t[c := 0], n, t[c])
  }

  lemma {:induction false} FreeStepsChain(t: Table, n: nat, s: seq<int>)
    requires IsChain(t, n, s)
    ensures FreeSteps(t, n, s[0]) == |s|
    decreases |s|
  {
    FreeStep(t, n, s[0]);
    if |s| > 1 {
      var t1, rest := t[s[0] := 0], s[1..];
      ChainDistinct(t, n, s);
      ChainTail(t, n, s, 1);
      LinkedFrame(t, t1, n, rest);
      FreeStepsChain(t1, n, rest);
      assert t[s[0]] == rest[0];
    }
  }

  class Cache {
    const layout: Layout
    const table: array<U16>
    const dirty: array<bool>
    const dev: Device

    ghost predicate Valid()
      reads dev
    {
      && layout.Sound()
      && table.Length == dirty.Length == layout.entries
      && |dev.bytes| == layout.size
    }

    /** No entry is dirty and every FAT copy equals the cached table. */
    ghost predicate Synced()
      reads dev, table, dirty
    {
      && CopiesHold(layout, dev.bytes, table[..])
      && (forall c | 0 <= c < dirty.Length :: !dirty[c])
    }

    constructor (l: Layout, t: array<U16>, d: array<bool>, device: Device)
      requires l.Sound() && t.Length == d.Length == l.entries && |device.bytes| == l.size
      ensures Valid() && layout == l && table == t && dirty == d && dev == device
    {
      layout, table, dirty, dev := l, t, d, device;
    }

    method UpdateCluster(c: nat, value: U16) returns (ok: bool)
      requires Valid()
      modifies table, dirty
      ensures ok <==> c < layout.clusters
      ensures ok ==> table[..] == old(table[..])[c := value] && dirty[..] == old(dirty[..])[c := true]
      ensures !ok ==> table[..] == old(table[..]) && dirty[..] == old(dirty[..])
    {
      if c >= layout.clusters || c >= layout.entries {
        return false;
      }
      dirty[c] := true;
      table[c] := value;
      return true;
    }

    method FlushWrite(first: nat, count: nat) returns (ok: bool)
      requires Valid() && (first + count) * SECTOR <= 2 * layout.entries
      modifies dev
      ensures Valid() && OffTablesSame(layout, old(dev.bytes), dev.bytes)
      ensures old(dev.faults) <= dev.faults && (ok <==> dev.faults == old(dev.faults))
      ensures ok ==> Flushed(layout, old(dev.bytes), dev.bytes, table[..], Run(first, count))
    {
      hide FlushedCopies, TableBytes, Run;
      NothingCopied(layout, dev.bytes, table[..], Run(first, count));
      var data := TableBytes(table[..], first * SECTOR, count * SECTOR);
      ok := true;
      ghost var b0 := dev.bytes;
      var i := 0;
      while i < |layout.fatAddr|
        invariant 0 <= i <= |layout.fatAddr| && Valid()
        invariant OffTablesSame(layout, b0, dev.bytes)
        invariant old(dev.faults) <= dev.faults && (ok <==> dev.faults == old(dev.faults))
        invariant ok ==> FlushedCopies(layout, b0, dev.bytes, table[..], Run(first, count), i)
      {
        var at := layout.fatAddr[i] + first * SECTOR;
        assert layout.fatAddr[i] + 2 * layout.entries <= layout.size;
        if ok {
          OneCopy(layout, b0, dev.bytes, table[..], first, count, i);
        }
        ghost var b1 := dev.bytes;
        var written := dev.Write(at, data);
        assert forall a | at <= a < at + |data| :: InTables(layout, a);
        if !written {
          ok := false;
        }
        i := i + 1;
      }
    }

    /** Clears the marks of one sector and reports whether there were any. */
    method ClearSector(sector: nat) returns (wasDirty: bool)
      requires Valid() && (sector + 1) * PER_SECTOR <= layout.entries
      modifies dirty
      ensures wasDirty <==> SectorDirty(old(dirty[..]), sector)
      ensures forall c | 0 <= c < dirty.Length ::
                dirty[c] == (old(dirty[c]) && c / PER_SECTOR != sector)
    {
      wasDirty := false;
      var c, to := sector * PER_SECTOR, (sector + 1) * PER_SECTOR;
      if to > layout.entries {
        to := layout.entries;
      }
      while c < to
        invariant sector * PER_SECTOR <= c <= to
        invariant wasDirty <==> exists x | sector * PER_SECTOR <= x < c :: old(dirty[..])[x]
        invariant forall x | 0 <= x < dirty.Length ::
                    dirty[x] == (old(dirty[x]) && !(sector * PER_SECTOR <= x < c))
      {
        if dirty[c] {
          wasDirty := true;
          dirty[c] := false;
        }
        c := c + 1;
      }
    }

    /** Flushes the dirty sectors that hold the entries `first..last`, coalescing consecutive ones.
        Without I/O errors this is the same as writing each dirty sector on its own to every copy. */
    method FlushCache(first: nat, last: nat) returns (ok: bool)
      requires Valid()
      modifies dev, dirty
      ensures Valid() && OffTablesSame(layout, old(dev.bytes), dev.bytes)
      ensures old(dev.faults) <= dev.faults && (ok <==> dev.faults == old(dev.faults))
      ensures forall c | 0 <= c < dirty.Length ::
                dirty[c] == (old(dirty[c]) && !(first / PER_SECTOR <= c / PER_SECTOR <= last / PER_SECTOR))
      ensures first >= layout.entries ==> ok && dev.bytes == old(dev.bytes)
      ensures ok && first < layout.entries ==>
        var end := if last >= layout.entries then layout.entries - 1 else last;
        Flushed(layout, old(dev.bytes), dev.bytes, table[..],
                DirtySectors(old(dirty[..]), first / PER_SECTOR, end / PER_SECTOR + 1))
    {
      hide Flushed, Run, DirtySectors, OffTablesSame;
      NothingFlushed(layout, dev.bytes, table[..], dirty[..], 0);
      if first >= layout.entries {
        return true;
      }
      var end := if last >= layout.entries then layout.entries - 1 else last;
      ghost var b0, d0, lo := dev.bytes, dirty[..], first / PER_SECTOR;
      var runStart: nat, runLen: nat := 0, 0;
      ok := true;
      var sector := first / PER_SECTOR;
      ghost var all := DirtySectors(d0, lo, sector);
      RunEmpty(0);
      NothingFlushed(layout, b0, table[..], d0, lo);
      assert all - Run(0, 0) == {};
      while sector <= end / PER_SECTOR
        invariant lo <= sector && (sector <= end / PER_SECTOR + 1 || sector == lo)
        invariant Valid() && OffTablesSame(layout, b0, dev.bytes)
        invariant old(dev.faults) <= dev.faults && (ok <==> dev.faults == old(dev.faults))
        invariant forall c | 0 <= c < dirty.Length :: dirty[c] == (d0[c] && !(lo <= c / PER_SECTOR < sector))
        invariant all == DirtySectors(d0, lo, sector) && Run(runStart, runLen) <= all
        invariant runLen > 0 ==> runStart + runLen == sector
        invariant ok ==> Flushed(layout, b0, dev.bytes, table[..], all - Run(runStart, runLen))
      {
        NextSector(d0, dirty[..], lo, sector);
        var sectorDirty := ClearSector(sector);
        if sectorDirty {
          ExtendRun(all, sector, runStart, runLen);
          if runLen == 0 {
            runStart := sector;
          }
          runLen := runLen + 1;
          all := all + {sector};
        } else if runLen > 0 {
          ghost var b1 := dev.bytes;
          var written := FlushWrite(runStart, runLen);
          OffTablesTrans(layout, b0, b1, dev.bytes);
          if ok && written {
            PendingWritten(layout, b0, b1, dev.bytes, table[..], all, Run(runStart, runLen));
          }
          ok := ok && written;
          runLen := 0;
          RunEmpty(runStart);
          assert all - {} == all;
        }
        sector := sector + 1;
      }
      if sector == lo {
        NoSectors(d0, lo, sector);
        NoSectors(d0, lo, if end / PER_SECTOR + 1 <= lo then end / PER_SECTOR + 1 else lo);
      }
      if runLen > 0 {
        ghost var b1 := dev.bytes;
        var written := FlushWrite(runStart, runLen);
        OffTablesTrans(layout, b0, b1, dev.bytes);
        if ok && written {
          PendingWritten(layout, b0, b1, dev.bytes, table[..], all, Run(runStart, runLen));
        }
        ok := ok && written;
      } else {
        RunEmpty(runStart);
        assert all - {} == all;
      }
    }

    /** Flushing a range that covers every touched entry restores full agreement with the disk. */
    method FlushRange(first: nat, last: nat, ghost t0: Table) returns (ok: bool)
      requires Valid() && first <= last < layout.entries
      requires CopiesHold(layout, dev.bytes, t0) && Dirtied(t0, table[..], dirty[..], first, last)
      modifies dev, dirty
      ensures Valid() && OffTablesSame(layout, old(dev.bytes), dev.bytes)
      ensures old(dev.faults) <= dev.faults && (ok <==> dev.faults == old(dev.faults))
      ensures ok ==> Synced()
      ensures forall c | 0 <= c < dirty.Length :: !dirty[c]
    {
      ghost var b0, d0 := dev.bytes, dirty[..];
      ok := FlushCache(first, last);
      if ok {
        FlushSyncs(layout, b0, dev.bytes, t0, table[..], d0, first, last);
      }
    }

    /** Number of unallocated clusters. */
    method FreeClusters() returns (count: nat)
      requires Valid()
      ensures count == |FreeSet(table[..], layout.clusters)|
    {
      count := 0;
      var i := 2;
      assert FreeSet(table[..], 2) == {};
      while i < layout.clusters
        invariant 2 <= i <= layout.clusters
        invariant count == |FreeSet(table[..], i)|
      {
        if table[i] == 0 {
          count := count + 1;
          assert FreeSet(table[..], i + 1) == FreeSet(table[..], i) + {i};
        } else {
          assert FreeSet(table[..], i + 1) == FreeSet(table[..], i);
        }
        i := i + 1;
      }
    }

    /** First free cluster at or after `from`; `layout.clusters` if there is none. */
    method FindFree(from: nat) returns (c: nat)
      requires Valid() && 2 <= from <= layout.clusters
      ensures from <= c <= layout.clusters
      ensures c < layout.clusters ==> table[c] == 0
      ensures forall x | from <= x < c :: table[x] != 0
    {
      c := from;
      while c < layout.clusters && table[c] != 0
        invariant from <= c <= layout.clusters
        invariant forall x | from <= x < c :: table[x] != 0
      {
        c := c + 1;
      }
    }

    /** Frees every cluster from `start` on, widening `[lo, hi]` to what it touched. */
    method FreeChain(start: U16, lo: nat, hi: nat, ghost t0: Table) returns (freed: nat, min: nat, max: nat)
      requires Valid() && lo <= hi
      modifies table, dirty
      ensures table[..] == FreeFrom(old(table[..]), layout.clusters, start)
      ensures freed == FreeSteps(old(table[..]), layout.clusters, start)
      ensures min <= lo && hi <= max && (hi < layout.clusters ==> max < layout.clusters)
      ensures !ValidCluster(layout.clusters, start) ==> min == lo && max == hi && dirty[..] == old(dirty[..])
      ensures old(Dirtied(t0, table[..], dirty[..], lo, hi)) ==> Dirtied(t0, table[..], dirty[..], min, max)
    {
      var cur := start;
      freed, min, max := 0, lo, hi;
      while ValidCluster(layout.clusters, cur)
        invariant FreeFrom(table[..], layout.clusters, cur) == FreeFrom(old(table[..]), layout.clusters, start)
        invariant freed + FreeSteps(table[..], layout.clusters, cur) == FreeSteps(old(table[..]), layout.clusters, start)
        invariant min <= lo && hi <= max && (hi < layout.clusters ==> max < layout.clusters)
        invariant !ValidCluster(layout.clusters, start) ==> cur == start && min == lo && max == hi && dirty[..] == old(dirty[..])
        invariant old(Dirtied(t0, table[..], dirty[..], lo, hi)) ==> Dirtied(t0, table[..], dirty[..], min, max)
        decreases Used(table[..], layout.clusters), ValidCluster(layout.clusters, cur)
      {
        var next := table[cur];
        FreeStep(table[..], layout.clusters, cur);
        ghost var t1 := table[..];
        var ok := UpdateCluster(cur, 0);
        assert table[..] == t1[cur := 0];
        if cur < min {
          min := cur;
        }
        if cur > max {
          max := cur;
        }
        cur := next;
        freed := freed + 1;
      }
    }

    /** Undoes a partial chain extension. */
    method UnwindChain(last: nat, origTail: U16)
      requires Valid()
      modifies table, dirty
      ensures table[..] == Unwind(old(table[..]), layout.clusters, last, origTail)
    {
      if !ValidCluster(layout.clusters, last) {
        return;
      }
      var cur := table[last];
      if cur == origTail {
        return;
      }
      ghost var t1 := table[..];
      var ok := UpdateCluster(last, origTail);
      assert table[..] == t1[last := origTail];
      var freed, min, max := FreeChain(cur, last, last, t1);
    }
  }
}
