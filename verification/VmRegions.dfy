/**
 * The regions of a process' address space above its heap (`tasks.c`): a list in address order, first fit between
 * `VM_START` and `VM_END`, in 32-bit arithmetic.
 */
module VmRegions {
  import opened Machine
  import opened Sequences

  const PAGE: nat := 0x1000
  const VM_START: nat := 0xA000_0000
  const VM_END: nat := 0xC000_0000

  datatype Region = Region(vaddr: nat, size: nat)

  function End(r: Region): (e: nat) { r.vaddr + r.size }

  /** `page_align_up`, which wraps to 0 above the last page. */
  function AlignUp(size: nat): (r: nat)
    requires size < TWO32
    ensures r % PAGE == 0 && r < TWO32
    ensures if size <= TWO32 - PAGE then size <= r < size + PAGE else r == 0
  {
    ((size + (PAGE - 1)) % TWO32) / PAGE * PAGE
  }

  ghost predicate Placed(r: Region) {
    r.size > 0 && r.vaddr % PAGE == 0 && r.size % PAGE == 0 && VM_START <= r.vaddr && End(r) <= VM_END
  }

  ghost predicate Ordered(rs: seq<Region>) {
    && (forall i | 0 <= i < |rs| :: Placed(rs[i]))
    && (forall i, j | 0 <= i < j < |rs| :: End(rs[i]) <= rs[j].vaddr)
  }

  /** `size` bytes at `v` are inside the window and clear of every region. */
  ghost predicate FreeAt(rs: seq<Region>, v: nat, size: nat) {
    && VM_START <= v && v + size <= VM_END
    && (forall i | 0 <= i < |rs| :: v + size <= rs[i].vaddr || End(rs[i]) <= v)
  }

  ghost predicate LowestGap(rs: seq<Region>, v: nat, size: nat) {
    FreeAt(rs, v, size) && forall u: nat | u < v :: !FreeAt(rs, u, size)
  }

  ghost predicate NoGap(rs: seq<Region>, size: nat) {
    forall u: nat :: !FreeAt(rs, u, size)
  }

  function Top(rs: seq<Region>): (t: nat) {
    if rs == [] then VM_START else End(rs[|rs| - 1])
  }

  /** The requests that the 32-bit arithmetic lets through by mistake. */
  predicate Wraps(rs: seq<Region>, size: nat)
    requires size < TWO32
  {
    size > 0 && (AlignUp(size) == 0 || AlignUp(size) + Top(rs) - VM_START >= TWO32)
  }

  /** No request that fits the window is mistaken. */
  lemma WindowSizesNeverWrap(rs: seq<Region>, size: nat)
    requires Ordered(rs) && size <= VM_END - VM_START
    ensures !Wraps(rs, size)
  {
  }

  /** Where the scan of the list stops: before region `i`, with everything below `v` taken. */
  ghost predicate Scanned(rs: seq<Region>, i: nat, v: nat, n: nat) {
    && i <= |rs| && v == Top(rs[..i]) && (forall k | i <= k < |rs| :: v <= rs[k].vaddr)
    && (forall u: nat | u < v :: !FreeAt(rs, u, n))
  }

  lemma ScanStart(rs: seq<Region>, n: nat)
    requires Ordered(rs)
    ensures Scanned(rs, 0, VM_START, n)
  {
  }

  lemma ScanStep(rs: seq<Region>, i: nat, v: nat, n: nat)
    requires Ordered(rs) && Scanned(rs, i, v, n) && i < |rs| && rs[i].vaddr - v < n
    ensures Scanned(rs, i + 1, End(rs[i]), n)
  {
  }

  lemma ScanAhead(rs: seq<Region>, i: nat, v: nat, n: nat)
    requires Scanned(rs, i, v, n) && i < |rs|
    ensures v <= rs[i].vaddr
  {
  }

  lemma ScanFirst(rs: seq<Region>, v: nat, n: nat)
    requires Scanned(rs, 0, v, n)
    ensures v == VM_START
  {
  }

  /** The first gap that is wide enough is the lowest place. */
  lemma ScanFits(rs: seq<Region>, i: nat, v: nat, n: nat)
    requires Ordered(rs) && Scanned(rs, i, v, n) && n > 0 && n % PAGE == 0 && v + n <= VM_END
    requires i < |rs| ==> rs[i].vaddr - v >= n
    ensures LowestGap(rs, v, n) && Ordered(rs[..i] + [Region(v, n)] + rs[i..])
  {
    ScanPlaced(rs, i, v, n);
    assert i > 0 ==> rs[..i][i - 1] == rs[i - 1];
    InsertOrdered(rs, i, Region(v, n));
  }

  lemma ScanPlaced(rs: seq<Region>, i: nat, v: nat, n: nat)
    requires Ordered(rs) && Scanned(rs, i, v, n) && n > 0 && n % PAGE == 0 && v + n <= VM_END
    ensures Placed(Region(v, n))
  {
  }

  lemma InsertOrdered(rs: seq<Region>, i: nat, x: Region)
    requires Ordered(rs) && i <= |rs| && Placed(x)
    requires i > 0 ==> End(rs[i - 1]) <= x.vaddr
    requires i < |rs| ==> End(x) <= rs[i].vaddr
    ensures Ordered(rs[..i] + [x] + rs[i..])
  {
    hide Placed;
    assert [x][0] == x;
    Spread(rs, i);
    OrderedJoin(rs[..i], [x], x.vaddr);
    OrderedJoin(rs[..i] + [x], rs[i..], End(x));
  }

  lemma OrderedJoin(a: seq<Region>, b: seq<Region>, m: nat)
    requires Ordered(a) && Ordered(b)
    requires (forall i | 0 <= i < |a| :: End(a[i]) <= m) && forall j | 0 <= j < |b| :: m <= b[j].vaddr
    ensures Ordered(a + b)
  {
  }

  lemma Spread(rs: seq<Region>, i: nat)
    requires Ordered(rs) && i <= |rs|
    ensures Ordered(rs[..i]) && Ordered(rs[i..])
    ensures forall k | 0 <= k < i :: End(rs[k]) <= End(rs[i - 1])
    ensures forall k | i <= k < |rs| :: rs[i].vaddr <= rs[k].vaddr
  {
  }

  /** A request too wide for the window is never in a gap between regions, so only the end decides. */
  lemma ScanEnds(rs: seq<Region>, i: nat, v: nat, n: nat)
    requires Ordered(rs) && Scanned(rs, i, v, n) && (i < |rs| ==> rs[i].vaddr - v >= n)
    ensures VM_START <= v <= VM_END && (v + n > VM_END ==> i == |rs| && v == Top(rs) && NoGap(rs, n))
  {
  }

  /** A region let through by mistake is not a region of the window. */
  lemma WrappedNotOrdered(rs: seq<Region>, i: nat, v: nat, n: nat)
    requires i <= |rs| && !Placed(Region(v, n))
    ensures !Ordered(rs[..i] + [Region(v, n)] + rs[i..])
  {
    assert (rs[..i] + [Region(v, n)] + rs[i..])[i] == Region(v, n);
  }

  // ---------------------------------------------------------------- pages

  function Range(a: int, b: int): (r: set<int>)
    ensures forall p :: p in r <==> a <= p < b
    ensures |r| == if a <= b then b - a else 0
    decreases b - a
  {
    if a >= b then {} else Range(a, b - 1) + {b - 1}
  }

  function Pages(r: Region): set<int> { Range(r.vaddr / PAGE, End(r) / PAGE) }

  ghost function AllPages(rs: seq<Region>): set<int> {
    if rs == [] then {} else AllPages(rs[..|rs| - 1]) + Pages(rs[|rs| - 1])
  }

  lemma {:induction false} AllPagesConcat(a: seq<Region>, b: seq<Region>)
    ensures AllPages(a + b) == AllPages(a) + AllPages(b)
  {
    if b == [] {
      assert a + b == a;
    } else {
      assert (a + b)[..|a + b| - 1] == a + b[..|b| - 1];
      AllPagesConcat(a, b[..|b| - 1]);
    }
  }

  lemma AllPagesInsert(rs: seq<Region>, i: nat, r: Region)
    requires i <= |rs|
    ensures AllPages(rs[..i] + [r] + rs[i..]) == AllPages(rs) + Pages(r)
  {
    hide Range;
    AllPagesConcat(rs[..i] + [r], rs[i..]);
    AllPagesConcat(rs[..i], [r]);
    AllPagesConcat(rs[..i], rs[i..]);
    assert rs == rs[..i] + rs[i..];
    assert AllPages([r]) == AllPages([]) + Pages(r);
  }

  ghost predicate Apart(a: Region, b: Region) {
    End(a) <= b.vaddr || End(b) <= a.vaddr
  }

  lemma DivMono(x: nat, y: nat)
    requires x <= y
    ensures x / PAGE <= y / PAGE
  {
  }

  lemma {:induction false} PagesApart(rs: seq<Region>, r: Region)
    requires forall k | 0 <= k < |rs| :: Apart(rs[k], r)
    ensures AllPages(rs) !! Pages(r)
  {
    if rs != [] {
      var x := rs[|rs| - 1];
      PagesApart(rs[..|rs| - 1], r);
      if End(x) <= r.vaddr {
        DivMono(End(x), r.vaddr);
      } else {
        DivMono(End(r), x.vaddr);
      }
    }
  }

  function TotalPages(rs: seq<Region>): (n: nat) {
    if rs == [] then 0 else TotalPages(rs[..|rs| - 1]) + rs[|rs| - 1].size / PAGE
  }

  /** The mapped pages are as many as the region sizes add up to. */
  lemma {:induction false} PagesAddUp(rs: seq<Region>)
    requires Ordered(rs)
    ensures |AllPages(rs)| == TotalPages(rs)
  {
    if rs != [] {
      var k := |rs| - 1;
      Spread(rs, k);
      PagesAddUp(rs[..k]);
      PagesApart(rs[..k], rs[k]);
      PlacedSize(rs[k]);
    }
  }

  predicate Holds(r: Region, vaddr: nat) {
    r.vaddr <= vaddr < End(r)
  }

  /** In a list with a region put in, that region is apart from all others and the only one to hold its first byte. */
  lemma Inserted(rs: seq<Region>, i: nat, r: Region)
    requires i <= |rs| && Ordered(rs[..i] + [r] + rs[i..])
    ensures forall k | 0 <= k < |rs| :: Apart(rs[k], r)
    ensures var all := rs[..i] + [r] + rs[i..];
      Placed(r) && Without(all, i) == rs && forall k | 0 <= k < |all| :: Holds(all[k], r.vaddr) <==> k == i
  {
    hide Placed;
    var all := rs[..i] + [r] + rs[i..];
    assert all[i] == r && Placed(r);
    assert forall k | 0 <= k < i :: all[k] == rs[k];
    assert forall k | i <= k < |rs| :: all[k + 1] == rs[k];
    assert r.size > 0 by { assert Placed(r); PlacedSize(r); }
    forall k | 0 <= k < |rs| ensures Apart(rs[k], r) {
      assert rs[k] == all[if k < i then k else k + 1];
    }
  }

  lemma PlacedSize(r: Region)
    requires Placed(r)
    ensures r.size > 0 && (End(r) / PAGE) == r.vaddr / PAGE + r.size / PAGE && r.vaddr > 0
  {
  }

  class AddressSpace {
    var regions: seq<Region>
    var mapped: set<int> // pages of the window present in the page directory
    var noAllocated: int

    /** The regions are sound, exactly their pages are mapped, and they are counted. */
    ghost predicate Valid()
      reads this
    {
      Ordered(regions) && mapped == AllPages(regions) && noAllocated == |mapped|
    }

    function View(): State
      reads this
    {
      State(regions, mapped, noAllocated)
    }

    /** A new process has no regions. */
    constructor ()
      ensures Valid() && View() == State([], {}, 0)
    {
      regions, mapped, noAllocated := [], {}, 0;
    }

    /** `process_alloc_vm`; `memory` is whether the list node could be allocated. */
    method Alloc(size: nat, memory: bool) returns (i: int)
      requires Ordered(regions) && size < TWO32
      modifies this`regions
      ensures Ordered(regions) <==> !(memory && Wraps(old(regions), size))
      ensures i == -1 ==> regions == old(regions)
      ensures i != -1 ==> 0 <= i < |regions| && i <= |old(regions)| && regions[i].size == AlignUp(size) && size > 0 && memory
                          && regions == old(regions)[..i] + [regions[i]] + old(regions)[i..]
      ensures i != -1 && !Wraps(old(regions), size) ==> LowestGap(old(regions), regions[i].vaddr, AlignUp(size))
      ensures i != -1 && Wraps(old(regions), size) && AlignUp(size) > 0 ==>
                i == |old(regions)| && regions[i].vaddr == Top(old(regions)) && NoGap(old(regions), AlignUp(size))
      ensures i != -1 && AlignUp(size) == 0 ==> i == 0 && regions[0] == Region(VM_START, 0)
      ensures i == -1 && size > 0 && memory ==> NoGap(old(regions), AlignUp(size))
    {
      hide NoGap, FreeAt, Scanned;
      if size == 0 {
        return -1;
      }
      var n := AlignUp(size);
      var rs := regions;
      var vmem: nat := VM_START;
      var k: nat := 0;
      ScanStart(rs, n);
      while k < |rs| && rs[k].vaddr - vmem < n
        invariant k <= |rs| && Scanned(rs, k, vmem, n) && regions == rs && (n == 0 ==> k == 0)
        decreases |rs| - k
      {
        ScanAhead(rs, k, vmem, n);
        ScanStep(rs, k, vmem, n);
        vmem := End(rs[k]);
        k := k + 1;
      }
      ScanEnds(rs, k, vmem, n);
      var end := (vmem + n) % TWO32;
      if end < VM_START || end > VM_END || !memory {
        return -1;
      }
      if n > 0 && vmem + n <= VM_END {
        ScanFits(rs, k, vmem, n);
      } else {
        WrappedNotOrdered(rs, k, vmem, n);
      }
      if n == 0 {
        ScanFirst(rs, vmem, n);
      }
      regions := rs[..k] + [Region(vmem, n)] + rs[k..];
      i := k;
    }

    /** `process_find_vm`: the region that holds `vaddr`, if there is one. */
    method Find(vaddr: nat) returns (i: int)
      ensures i == -1 ==> forall k | 0 <= k < |regions| :: !Holds(regions[k], vaddr)
      ensures i != -1 ==> 0 <= i < |regions| && Holds(regions[i], vaddr)
    {
      var k: nat := 0;
      while k < |regions|
        invariant k <= |regions| && forall j | 0 <= j < k :: !Holds(regions[j], vaddr)
      {
        if vaddr >= regions[k].vaddr && vaddr - regions[k].vaddr < regions[k].size {
          return k;
        }
        k := k + 1;
      }
      i := -1;
    }

    /** `process_unmap_vm`: whatever part of the region was mapped is unmapped and no longer counted. */
    method Unmap(vaddr: nat) returns (ok: bool, ghost at: int)
      requires noAllocated == |mapped|
      modifies this
      ensures noAllocated == |mapped|
      ensures !ok ==> regions == old(regions) && mapped == old(mapped) && forall k | 0 <= k < |regions| :: !Holds(regions[k], vaddr)
      ensures ok ==> 0 <= at < |old(regions)| && Holds(old(regions)[at], vaddr)
      ensures ok ==> regions == Without(old(regions), at) && mapped == old(mapped) - PagesUnmapped(old(regions)[at])
    {
      var i := Find(vaddr);
      ok, at := i != -1, i;
      if ok {
        var gone := PagesUnmapped(regions[i]);
        var present := mapped * gone;
        assert mapped == (mapped - gone) + present;
        noAllocated := noAllocated - |present|;
        mapped := mapped - gone;
        regions := Without(regions, i);
      }
    }

    /** `process_map_kobj` for an object of `bytes` bytes that starts `offset` bytes into a page: `count` is how many
        pages the page directory could take. */
    method Map(bytes: U32, offset: nat, memory: bool, count: nat) returns (addr: nat)
      requires Valid() && offset < PAGE && count <= Total(bytes, offset) / PAGE
      modifies this
      ensures noAllocated == |mapped|
      ensures Valid() <==> !(memory && Wraps(old(regions), Total(bytes, offset)) && count > 0)
      ensures addr == 0 ==> regions == old(regions)
      ensures addr == 0 && !(memory && Wraps(regions, Total(bytes, offset))) ==> mapped == old(mapped)
      ensures addr == 0 && memory && Wraps(regions, Total(bytes, offset)) ==>
                mapped == old(mapped) + Range(Top(regions) / PAGE, Top(regions) / PAGE + count)
      ensures addr != 0 ==>
        var size := Total(bytes, offset);
        && addr >= offset && LowestGap(old(regions), addr - offset, size) && noAllocated == old(noAllocated) + size / PAGE
        && multiset(regions) == multiset(old(regions)) + multiset{Region(addr - offset, size)}
      ensures addr == 0 <==>
        var size := Total(bytes, offset);
        size == 0 || !memory || NoGap(old(regions), size) || count < size / PAGE
    {
      hide AllPages, Range, LowestGap, NoGap, Ordered, Placed, AlignUp, Wraps, Without, Pages, Holds, Top, PagesUnmapped, PutIn;
      var size := Total(bytes, offset);
      AlignedSize(size);
      ghost var rs := regions;
      var i := Alloc(size, memory);
      addr := 0;
      if i != -1 {
        ghost var r := regions[i];
        if Wraps(rs, size) {
          WrappedPages(rs, r, count);
        } else {
          NewPages(rs, i, r, count);
          PutInBag(rs, i, r);
          GapExists(rs, r.vaddr, size);
        }
        addr := MapRegion(i, offset, size, count, rs);
      }
    }

    /** The second half of `process_map_kobj`: map what can be mapped, and give the region up unless that is all. */
    method MapRegion(i: nat, offset: nat, size: nat, count: nat, ghost rs: seq<Region>) returns (addr: nat)
      requires i < |regions| && i <= |rs| && regions == rs[..i] + [regions[i]] + rs[i..] && PutIn(rs, i, regions[i], count)
      requires mapped == AllPages(rs) && noAllocated == |mapped|
      modifies this
      ensures noAllocated == |mapped|
      ensures var r := old(regions)[i]; var new' := Range(r.vaddr / PAGE, r.vaddr / PAGE + count);
        if Signed(size) >= 0 && count == size / PAGE then
          && addr == r.vaddr + offset && addr > 0 && regions == old(regions) && mapped == old(mapped) + new'
          && noAllocated == old(noAllocated) + count
        else
          addr == 0 && regions == rs && mapped == old(mapped) + new' - PagesUnmapped(r)
    {
      hide AllPages, Range, Without, Holds, PagesUnmapped;
      var v := regions[i].vaddr;
      addr := v + offset;
      ghost var all := regions;
      mapped := mapped + Range(v / PAGE, v / PAGE + count);
      noAllocated := noAllocated + count;
      if Signed(size) < 0 || count != size / PAGE {
        var ok, at := Unmap(v);
        assert Holds(all[i], v) && at == i;
        addr := 0;
      }
    }

    /** One operation of a run. */
    method Perform(op: Op) returns (a: nat)
      requires Valid() && Proper(op) && !Breaks(View(), op)
      modifies this
      ensures Valid() && Does(old(View()), op, View(), a)
    {
      hide AllPages, Range, Ordered, Wraps, Without, PagesUnmapped, Holds, LowestGap, NoGap;
      match op
      case Map(bytes, offset, memory, count) => a := Map(bytes, offset, memory, count);
      case Unmap(vaddr) =>
        ghost var s := View();
        var ok, at := Unmap(vaddr);
        a := if ok then 1 else 0;
        if ok {
          UnmapKeeps(s.regions, at);
        }
    }

    /** Any sequence of mappings and unmappings, up to a request that passes the window check by wrapping: `trace` are the
        states passed through. */
    method Run(ops: seq<Op>) returns (answers: seq<nat>, ghost trace: seq<State>)
      requires Valid() && forall k | 0 <= k < |ops| :: Proper(ops[k])
      modifies this
      ensures |answers| <= |ops| && Valid() && IsRun(trace, ops[..|answers|], answers)
      ensures trace[0] == old(View()) && trace[|answers|] == View()
      ensures |answers| < |ops| ==> Breaks(View(), ops[|answers|])
    {
      hide Ordered, AllPages, Does, Breaks, Proper;
      answers, trace := [], [View()];
      while |answers| < |ops| && !Breaks(View(), ops[|answers|])
        invariant |answers| <= |ops| && Valid() && IsRun(trace, ops[..|answers|], answers)
        invariant trace[0] == old(View()) && trace[|answers|] == View()
        decreases |ops| - |answers|
      {
        var a := Perform(ops[|answers|]);
        assert ops[..|answers| + 1] == ops[..|answers|] + [ops[|answers|]];
        answers, trace := answers + [a], trace + [View()];
      }
    }
  }

  datatype State = State(regions: seq<Region>, mapped: set<int>, noAllocated: int)

  ghost predicate Sound(s: State) { Ordered(s.regions) && s.mapped == AllPages(s.regions) && s.noAllocated == |s.mapped| }

  // ---------------------------------------------------------------- runs

  datatype Op = Map(bytes: U32, offset: nat, memory: bool, count: nat) | Unmap(vaddr: nat)

  predicate Proper(op: Op) { op.Map? ==> op.offset < PAGE && op.count <= Total(op.bytes, op.offset) / PAGE }

  predicate Breaks(s: State, op: Op) { op.Map? && op.memory && op.count > 0 && Wraps(s.regions, Total(op.bytes, op.offset)) }

  /** A mapping takes the lowest gap, or leaves no trace; an unmapping takes out the region that holds the address. */
  ghost predicate Does(a: State, op: Op, b: State, r: nat) {
    && Sound(a) && Sound(b) && Proper(op) && !Breaks(a, op)
    && match op
       case Map(bytes, offset, memory, count) =>
         var size := Total(bytes, offset);
         && (r == 0 <==> size == 0 || !memory || NoGap(a.regions, size) || count < size / PAGE)
         && if r == 0 then b.regions == a.regions
            else r >= offset && LowestGap(a.regions, r - offset, size) && multiset(b.regions) == multiset(a.regions) + multiset{Region(r - offset, size)}
       case Unmap(vaddr) =>
         if forall k | 0 <= k < |a.regions| :: !Holds(a.regions[k], vaddr) then r == 0 && b == a
         else r == 1 && exists k | 0 <= k < |a.regions| :: Holds(a.regions[k], vaddr) && b.regions == Without(a.regions, k)
  }

  ghost predicate IsRun(trace: seq<State>, ops: seq<Op>, answers: seq<nat>) {
    && |trace| == |ops| + 1 && |answers| == |ops| && Sound(trace[0])
    && forall k | 0 <= k < |ops| :: Does(trace[k], ops[k], trace[k + 1], answers[k])
  }

  /** In every state of every run the regions are aligned, ordered and disjoint, exactly their pages are mapped, and these
      are as many as are counted. */
  lemma {:induction false} RunCountsPages(trace: seq<State>, ops: seq<Op>, answers: seq<nat>, k: nat)
    requires IsRun(trace, ops, answers) && k <= |ops|
    ensures Sound(trace[k]) && trace[k].noAllocated == TotalPages(trace[k].regions)
  {
    hide Sound;
    if k > 0 {
      assert Does(trace[k - 1], ops[k - 1], trace[k - 1 + 1], answers[k - 1]);
    }
    SoundCount(trace[k]);
  }

  lemma SoundCount(s: State)
    requires Sound(s)
    ensures s.noAllocated == TotalPages(s.regions)
  {
    hide AllPages, Ordered;
    PagesAddUp(s.regions);
  }

  /** A region stays where it is until one of its addresses is unmapped. */
  lemma {:induction false} RegionStays(trace: seq<State>, ops: seq<Op>, answers: seq<nat>, i: nat, j: nat, r: Region)
    requires IsRun(trace, ops, answers) && i <= j <= |ops| && r in trace[i].regions
    requires forall k | i <= k < j :: !(ops[k].Unmap? && Holds(r, ops[k].vaddr))
    ensures r in trace[j].regions
    decreases j
  {
    hide Does, Sound, Holds;
    if i < j {
      RegionStays(trace, ops, answers, i, j - 1, r);
      assert Does(trace[j - 1], ops[j - 1], trace[j - 1 + 1], answers[j - 1]);
      OneStays(trace[j - 1], ops[j - 1], trace[j], answers[j - 1], r);
    }
  }

  lemma OneStays(s: State, op: Op, t: State, a: nat, r: Region)
    requires Does(s, op, t, a) && r in s.regions && !(op.Unmap? && Holds(r, op.vaddr))
    ensures r in t.regions
  {
    hide Sound, LowestGap, NoGap, Wraps, Total, Holds, Without;
    if op.Map? {
      assert r in multiset(s.regions);
      assert t.regions != s.regions ==> r in multiset(t.regions);
    } else if t != s {
      var k :| 0 <= k < |s.regions| && Holds(s.regions[k], op.vaddr) && t.regions == Without(s.regions, k);
      StaysWithout(s.regions, k, r);
    }
  }

  lemma WithoutAt(rs: seq<Region>, k: nat, i: nat)
    requires k < |rs| && i < |rs| && i != k
    ensures Without(rs, k)[if i < k then i else i - 1] == rs[i]
  {
  }

  lemma StaysWithout(rs: seq<Region>, k: nat, r: Region)
    requires k < |rs| && r in rs && r != rs[k]
    ensures r in Without(rs, k)
  {
    hide Without;
    var i :| 0 <= i < |rs| && rs[i] == r;
    WithoutAt(rs, k, i);
  }

  /** What is unmapped is gone: no region holds the address any more. */
  lemma UnmappedIsGone(s: State, vaddr: nat, t: State, a: nat)
    requires Does(s, Op.Unmap(vaddr), t, a)
    ensures forall k | 0 <= k < |t.regions| :: !Holds(t.regions[k], vaddr)
  {
    hide Without, AllPages, Holds;
    if t != s {
      var k :| 0 <= k < |s.regions| && Holds(s.regions[k], vaddr) && t.regions == Without(s.regions, k);
      ClearWithout(s.regions, k, vaddr);
    }
  }

  lemma ClearWithout(rs: seq<Region>, k: nat, vaddr: nat)
    requires Ordered(rs) && k < |rs| && Holds(rs[k], vaddr)
    ensures forall i | 0 <= i < |rs| - 1 :: !Holds(Without(rs, k)[i], vaddr)
  {
    hide Without, Placed;
    forall i | 0 <= i < |rs| - 1 ensures !Holds(Without(rs, k)[i], vaddr) {
      WithoutAt(rs, k, if i < k then i else i + 1);
    }
  }

  lemma OrderedWithout(rs: seq<Region>, k: nat)
    requires Ordered(rs) && k < |rs|
    ensures Ordered(Without(rs, k)) && rs == Without(rs, k)[..k] + [rs[k]] + Without(rs, k)[k..]
  {
    hide Placed;
    Spread(rs, k);
    Spread(rs, k + 1);
    OrderedJoin(rs[..k], rs[k + 1..], rs[k].vaddr);
  }

  /** A region out of a sound list, and its pages with it. */
  lemma UnmapKeeps(rs: seq<Region>, i: nat)
    requires Ordered(rs) && i < |rs|
    ensures Ordered(Without(rs, i)) && AllPages(rs) - PagesUnmapped(rs[i]) == AllPages(Without(rs, i))
  {
    hide AllPages, Range, PagesUnmapped, Placed, Without, Ordered, Pages, Holds, Apart;
    OrderedWithout(rs, i);
    var left := Without(rs, i);
    Inserted(left, i, rs[i]);
    PagesApart(left, rs[i]);
    AllPagesInsert(left, i, rs[i]);
    PlacedUnmaps(rs[i]);
  }

  /** The size of the region for an object, in whole pages. */
  function Total(bytes: U32, offset: nat): (size: nat)
    ensures size < TWO32 && size % PAGE == 0
  {
    AlignUp((bytes + offset) % TWO32)
  }

  /** It covers the object and less than a page more, unless the sum wraps: then it is one page or none. */
  lemma TotalCovers(bytes: U32, offset: nat)
    requires offset < PAGE
    ensures var n, size := bytes + offset, Total(bytes, offset);
      if n <= TWO32 - PAGE then n <= size < n + PAGE else size == if n <= TWO32 then 0 else PAGE
  {
    var n := bytes + offset;
    assert n % TWO32 == if n < TWO32 then n else n - TWO32;
  }

  /** `unmap_size`, whose end wraps. */
  function PagesUnmapped(r: Region): set<int> { Range(r.vaddr / PAGE, (End(r) % TWO32) / PAGE) }

  lemma AlignedSize(size: nat)
    requires size < TWO32 && size % PAGE == 0
    ensures AlignUp(size) == size
  {
  }

  lemma GapExists(rs: seq<Region>, v: nat, size: nat)
    requires LowestGap(rs, v, size)
    ensures !NoGap(rs, size)
  {
  }

  lemma PlacedUnmaps(r: Region)
    requires Placed(r)
    ensures PagesUnmapped(r) == Pages(r) && Signed(r.size) >= 0
  {
    hide Range, Signed;
    Small(End(r));
    Small(r.size);
  }

  lemma Small(x: nat)
    requires x < TWO32
    ensures x % TWO32 == x && (Signed(x) >= 0 <==> x < TWO31)
  {
  }

  lemma Wrapped(x: nat)
    requires TWO32 <= x < 2 * TWO32
    ensures x % TWO32 == x - TWO32
  {
  }

  lemma PagesOn(v: nat, count: nat)
    ensures (v + count * PAGE) / PAGE == v / PAGE + count
  {
  }

  /** What a region put in at `i` adds: its pages are new, and unmapping it takes away no others. */
  ghost predicate PutIn(rs: seq<Region>, i: nat, r: Region, count: nat)
    requires i <= |rs|
  {
    var all, new' := rs[..i] + [r] + rs[i..], Range(r.vaddr / PAGE, r.vaddr / PAGE + count);
    && new' !! AllPages(rs) && |new'| == count && |AllPages(rs) + new'| == |AllPages(rs)| + count && r.vaddr > 0
    && Without(all, i) == rs && (forall k | 0 <= k < |all| :: Holds(all[k], r.vaddr) <==> k == i)
  }

  lemma PutInBag(rs: seq<Region>, i: nat, r: Region)
    requires i <= |rs|
    ensures multiset(rs[..i] + [r] + rs[i..]) == multiset(rs) + multiset{r}
  {
    assert rs == rs[..i] + rs[i..];
  }

  lemma NewPages(rs: seq<Region>, i: nat, r: Region, count: nat)
    requires i <= |rs| && Ordered(rs[..i] + [r] + rs[i..]) && count <= r.size / PAGE
    ensures var all := rs[..i] + [r] + rs[i..]; var new' := Range(r.vaddr / PAGE, r.vaddr / PAGE + count);
      && PutIn(rs, i, r, count) && AllPages(rs) + new' - PagesUnmapped(r) == AllPages(rs) && Signed(r.size) >= 0
      && (count == r.size / PAGE ==> AllPages(all) == AllPages(rs) + new')
  {
    hide Ordered, Placed, AllPages, PagesUnmapped, Signed, Apart, Range, Without, Holds;
    var all := rs[..i] + [r] + rs[i..];
    Inserted(rs, i, r);
    PlacedSize(r);
    PlacedUnmaps(r);
    PagesApart(rs, r);
    AllPagesInsert(rs, i, r);
    RangeWithin(r.vaddr / PAGE, r.vaddr / PAGE + count, End(r) / PAGE);
    Beside(AllPages(rs), Range(r.vaddr / PAGE, r.vaddr / PAGE + count), Pages(r));
    assert all[i] == r;
    assert rs == rs[..i] + rs[i..];
  }

  lemma RangeWithin(a: int, b: int, c: int)
    requires a <= b <= c
    ensures Range(a, b) <= Range(a, c) && |Range(a, b)| == b - a
  {
  }

  lemma Beside(a: set<int>, n: set<int>, p: set<int>)
    requires n <= p && a !! p
    ensures a !! n && a + n - p == a && |a + n| == |a| + |n|
  {
  }

  /** A wrapped region stands behind all others, reaches past 4 GB, and unmapping it unmaps nothing. */
  lemma WrappedPages(rs: seq<Region>, r: Region, count: nat)
    requires Ordered(rs) && r.vaddr == Top(rs) && r.size < TWO32 && r.size % PAGE == 0 && r.size > 0 && Wraps(rs, r.size)
    requires count <= r.size / PAGE
    ensures PutIn(rs, |rs|, r, count) && PagesUnmapped(r) == {} && Signed(r.size) < 0
    ensures count > 0 ==> AllPages(rs) + Range(r.vaddr / PAGE, r.vaddr / PAGE + count) != AllPages(rs)
  {
    hide AllPages, Range, Signed, AlignUp, Placed, Ordered;
    AlignedSize(r.size);
    BehindAll(rs, r);
    Small(r.size);
    Wrapped(End(r));
    DivMono(End(r) - TWO32, r.vaddr);
    assert PagesUnmapped(r) == {};
    var x := Region(r.vaddr, count * PAGE);
    PagesOn(r.vaddr, count);
    PagesApart(rs, x);
    assert rs[..|rs|] + [r] + rs[|rs|..] == rs + [r];
    assert count > 0 ==> r.vaddr / PAGE in Pages(x);
  }

  lemma BehindAll(rs: seq<Region>, r: Region)
    requires Ordered(rs) && r.vaddr == Top(rs)
    ensures VM_START <= r.vaddr <= VM_END && r.vaddr % PAGE == 0
    ensures forall k | 0 <= k < |rs| :: End(rs[k]) <= r.vaddr
  {
    if rs != [] {
      var k := |rs| - 1;
      assert Placed(rs[k]);
      PlacedSize(rs[k]);
    }
  }

  /** With one page mapped, a request for all but the last page of 4 GB is let through. */
  lemma WrappedRequestExample()
    ensures var rs := [Region(VM_START, PAGE)];
      Ordered(rs) && Wraps(rs, 0xFFFF_F000) && (End(rs[0]) + 0xFFFF_F000) % TWO32 == VM_START && NoGap(rs, 0xFFFF_F000)
  {
    var rs := [Region(VM_START, PAGE)];
    assert forall u: nat :: !FreeAt(rs, u, 0xFFFF_F000);
  }
}
