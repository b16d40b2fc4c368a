/** The file allocation table as a mathematical object: chains, ownership of clusters, and what the
    chain edits of the driver do to them. */
module FatTable {
  import opened Sequences
  import opened Machine

  type Table = seq<U16>

  const END_OF_CHAIN: U16 := 0xFFFF
  const BAD_CLUSTER: U16 := 0xFFF7
  const FIRST_END_MARK: U16 := 0xFFF8

  /** End marks, the bad-cluster mark and numbers off the volume are not clusters. */
  predicate ValidCluster(n: nat, c: int) {
    !(c >= FIRST_END_MARK || c == BAD_CLUSTER || c < 2 || c >= n)
  }

  // ---------------------------------------------------------------- chains

  ghost predicate Linked(t: Table, n: nat, s: seq<int>) {
    && n <= |t|
    && (forall i | 0 <= i < |s| :: ValidCluster(n, s[i]))
    && (forall i {:trigger t[s[i]]} | 0 <= i < |s| - 1 :: t[s[i]] == s[i + 1])
  }

  /** `s` is the whole chain that starts at `s[0]`: it stops where the table stops naming clusters. */
  ghost predicate IsChain(t: Table, n: nat, s: seq<int>) {
    && Linked(t, n, s)
    && 0 < |s|
    && !ValidCluster(n, t[s[|s| - 1]])
  }

  lemma {:induction false} NoRepeatAt(t: Table, n: nat, s: seq<int>, i: nat, j: nat)
    requires IsChain(t, n, s) && i < j < |s|
    ensures s[i] != s[j]
    decreases |s| - j
  {
    assert t[s[i]] == s[i + 1];
    if s[i] == s[j] && j < |s| - 1 {
      NoRepeatAt(t, n, s, i + 1, j + 1);
    }
  }

  /** A chain that ends visits no cluster twice. */
  lemma ChainDistinct(t: Table, n: nat, s: seq<int>)
    requires IsChain(t, n, s)
    ensures Distinct(s)
  {
    forall i, j | 0 <= i < j < |s| ensures s[i] != s[j] {
      NoRepeatAt(t, n, s, i, j);
    }
  }

  lemma {:induction false} ChainPrefixUnique(t: Table, n: nat, s: seq<int>, u: seq<int>, k: nat)
    requires IsChain(t, n, s) && IsChain(t, n, u) && s[0] == u[0]
    requires k < |s|
    ensures k < |u| && s[k] == u[k]
  {
    if k > 0 {
      ChainPrefixUnique(t, n, s, u, k - 1);
      assert t[s[k - 1]] == s[k];
    }
  }

  /** The table and the first cluster determine the chain. */
  lemma ChainUnique(t: Table, n: nat, s: seq<int>, u: seq<int>)
    requires IsChain(t, n, s) && IsChain(t, n, u) && s[0] == u[0]
    ensures s == u
  {
    ChainPrefixUnique(t, n, s, u, |s| - 1);
    ChainPrefixUnique(t, n, u, s, |u| - 1);
    forall k | 0 <= k < |s| ensures s[k] == u[k] {
      ChainPrefixUnique(t, n, s, u, k);
    }
  }

  function Elements(s: seq<int>): (r: set<int>) {
    set x | x in s
  }

  lemma {:induction false} DistinctCard(s: seq<int>)
    requires Distinct(s)
    ensures |Elements(s)| == |s|
  {
    if |s| > 0 {
      var k := |s| - 1;
      var front := s[..k];
      assert s == front + [s[k]];
      DistinctCard(front);
      assert Elements(s) == Elements(front) + {s[k]};
    }
  }

  predicate IsData(n: nat, c: int) { 2 <= c < n }

  function ClusterRange(n: nat): (r: set<int>) {
    set c: int | 2 <= c < n && IsData(n, c)
  }

  lemma {:induction false} RangeCard(n: nat)
    ensures |ClusterRange(n)| == if n < 2 then 0 else n - 2
  {
    if n > 2 {
      RangeCard(n - 1);
      assert ClusterRange(n) == ClusterRange(n - 1) + {n - 1};
    } else {
      assert ClusterRange(n) == {};
    }
  }

  /** Pigeonhole: distinct clusters never outnumber the data clusters of the volume. */
  lemma DistinctBound(n: nat, s: seq<int>)
    requires Distinct(s) && 2 <= n && forall i | 0 <= i < |s| :: ValidCluster(n, s[i])
    ensures |s| <= n - 2
  {
    DistinctCard(s);
    RangeCard(n);
    SubsetCard(Elements(s), ClusterRange(n));
  }

  // ---------------------------------------------------------------- following the table

  /** The entry reached after `k` steps; a walk that has left the clusters stays where it is. */
  function Walk(t: Table, n: nat, c: int, k: nat): (r: int)
    requires n <= |t|
  {
    if k == 0 then c
    else
      var p := Walk(t, n, c, k - 1);
      if ValidCluster(n, p) then t[p] else p
  }

  /** The walk from `c` never ends. */
  ghost predicate Cyclic(t: Table, n: nat, c: int)
    requires n <= |t|
  {
    forall k: nat :: ValidCluster(n, Walk(t, n, c, k))
  }

  /** The first `k` clusters of the walk. */
  function Trail(t: Table, n: nat, c: int, k: nat): (s: seq<int>)
    requires n <= |t|
    ensures |s| == k && forall i | 0 <= i < k :: s[i] == Walk(t, n, c, i)
  {
    if k == 0 then [] else Trail(t, n, c, k - 1) + [Walk(t, n, c, k - 1)]
  }

  lemma {:induction false} WalkStuck(t: Table, n: nat, c: int, i: nat, k: nat)
    requires n <= |t| && i <= k && !ValidCluster(n, Walk(t, n, c, i))
    ensures !ValidCluster(n, Walk(t, n, c, k))
  {
    if i < k {
      WalkStuck(t, n, c, i, k - 1);
    }
  }

  lemma {:induction false} WalkPeriodic(t: Table, n: nat, c: int, i: nat, j: nat, d: nat)
    requires n <= |t| && Walk(t, n, c, i) == Walk(t, n, c, j)
    ensures Walk(t, n, c, i + d) == Walk(t, n, c, j + d)
  {
    if d > 0 {
      WalkPeriodic(t, n, c, i, j, d - 1);
    }
  }

  /** If the walk comes back to a cluster it has visited, it goes round for ever. */
  lemma RepeatIsCyclic(t: Table, n: nat, c: int, i: nat, j: nat)
    requires n <= |t| && i < j
    requires Walk(t, n, c, i) == Walk(t, n, c, j) && ValidCluster(n, Walk(t, n, c, j))
    ensures Cyclic(t, n, c)
  {
    forall k: nat ensures ValidCluster(n, Walk(t, n, c, k)) {
      AllLater(t, n, c, i, j, k);
    }
  }

  lemma {:induction false} AllLater(t: Table, n: nat, c: int, i: nat, j: nat, k: nat)
    requires n <= |t| && i < j
    requires Walk(t, n, c, i) == Walk(t, n, c, j) && ValidCluster(n, Walk(t, n, c, j))
    ensures ValidCluster(n, Walk(t, n, c, k))
    decreases k
  {
    if k > j {
      AllLater(t, n, c, i, j, k - (j - i));
      WalkPeriodic(t, n, c, i, j, k - j);
    } else if !ValidCluster(n, Walk(t, n, c, k)) {
      WalkStuck(t, n, c, k, j);
    }
  }

  /** A walk of `n - 1` clusters has repeated one, so it is cyclic. */
  lemma LongWalkIsCyclic(t: Table, n: nat, c: int)
    requires 2 <= n <= |t| && ValidCluster(n, Walk(t, n, c, n - 2))
    ensures Cyclic(t, n, c)
  {
    var s := Trail(t, n, c, n - 1);
    forall i | 0 <= i < n - 1 ensures ValidCluster(n, s[i]) {
      if !ValidCluster(n, s[i]) {
        WalkStuck(t, n, c, i, n - 2);
      }
    }
    if Distinct(s) {
      DistinctBound(n, s);
      assert false;
    }
    var i, j :| 0 <= i < j < |s| && s[i] == s[j];
    RepeatIsCyclic(t, n, c, i, j);
  }

  /** The walk of a chain is the chain, and then it stops. */
  lemma {:induction false} ChainWalk(t: Table, n: nat, s: seq<int>, k: nat)
    requires IsChain(t, n, s) && k <= |s|
    ensures k < |s| ==> Walk(t, n, s[0], k) == s[k]
    ensures k == |s| ==> !ValidCluster(n, Walk(t, n, s[0], k))
  {
    if k > 0 {
      ChainWalk(t, n, s, k - 1);
      assert k < |s| ==> t[s[k - 1]] == s[k];
    }
  }

  /** Conversely a walk that stops is a chain. */
  lemma TrailIsChain(t: Table, n: nat, c: int, k: nat)
    requires n <= |t| && 0 < k
    requires ValidCluster(n, Walk(t, n, c, k - 1)) && !ValidCluster(n, Walk(t, n, c, k))
    ensures IsChain(t, n, Trail(t, n, c, k)) && Trail(t, n, c, k)[0] == c
  {
    var s := Trail(t, n, c, k);
    forall i | 0 <= i < k ensures ValidCluster(n, s[i]) {
      if !ValidCluster(n, s[i]) {
        WalkStuck(t, n, c, i, k - 1);
      }
    }
    forall i | 0 <= i < k - 1 ensures t[s[i]] == s[i + 1] {
      assert Walk(t, n, c, i + 1) == t[Walk(t, n, c, i)];
    }
    assert Walk(t, n, c, k) == t[s[k - 1]];
  }

  // ---------------------------------------------------------------- free clusters

  function FreeSet(t: Table, n: nat): (r: set<int>)
    requires n <= |t|
  {
    set c | 2 <= c < n && t[c] == 0
  }

  /** `news` are the lowest free clusters of `t`, in ascending order. */
  ghost predicate LowestFree(t: Table, n: nat, news: seq<int>) {
    && n <= |t|
    && (forall i | 0 <= i < |news| :: 2 <= news[i] < n && t[news[i]] == 0)
    && (forall i, j | 0 <= i < j < |news| :: news[i] < news[j])
    && (forall c, i | 2 <= c < n && t[c] == 0 && 0 <= i < |news| && c < news[i] :: c in news)
  }

  /** While fewer clusters have been picked than are free, another free one lies further on. */
  lemma SearchCannotFail(t: Table, n: nat, news: seq<int>, from: int)
    requires n <= |t| && |news| < |FreeSet(t, n)|
    requires forall c | 2 <= c < from && c < n && t[c] == 0 :: c in news
    ensures exists c :: from <= c < n && 2 <= c && t[c] == 0
  {
    if forall c | 2 <= c < n && t[c] == 0 :: c < from {
      assert FreeSet(t, n) <= Elements(news);
      SubsetCard(FreeSet(t, n), Elements(news));
      ElementsCard(news);
    }
  }

  lemma {:induction false} ElementsCard(s: seq<int>)
    ensures |Elements(s)| <= |s|
  {
    if |s| > 0 {
      var k := |s| - 1;
      assert s == s[..k] + [s[k]];
      ElementsCard(s[..k]);
      assert Elements(s) == Elements(s[..k]) + {s[k]};
    }
  }

  // ---------------------------------------------------------------- chain edits

  /** `t` is `t0` with the clusters `news` hung on after `last`. */
  ghost predicate Extended(t0: Table, t: Table, last: int, news: seq<int>) {
    && |t| == |t0|
    && 0 <= last < |t| && (forall i | 0 <= i < |news| :: 0 <= news[i] < |t|)
    && (news == [] ==> t == t0)
    && (news != [] ==> t[last] == news[0])
    && (forall i {:trigger t[news[i]]} | 0 <= i < |news| :: t[news[i]] == if i + 1 < |news| then news[i + 1] else END_OF_CHAIN)
    && (forall c | 0 <= c < |t| && c != last && c !in news :: t[c] == t0[c])
  }

  /** One round of the allocation loop: mark `c` as the end and point the previous cluster at it. */
  lemma ExtendOne(t0: Table, t: Table, last: int, news: seq<int>, prev: int, c: int)
    requires Extended(t0, t, last, news) && 0 <= c < |t| && c < 0x1_0000 && c != last && c !in news
    requires prev == if news == [] then last else news[|news| - 1]
    requires Distinct(news) && last !in news
    ensures Extended(t0, t[c := END_OF_CHAIN][prev := c], last, news + [c])
  {
  }

  lemma LowestFreeNext(t: Table, n: nat, news: seq<int>, from: int, c: int)
    requires LowestFree(t, n, news) && from <= c < n && 2 <= c && t[c] == 0
    requires forall i | 0 <= i < |news| :: news[i] < from
    requires forall x | 2 <= x < from && x < n && t[x] == 0 :: x in news
    requires forall x | from <= x < c && 2 <= x :: t[x] != 0
    ensures LowestFree(t, n, news + [c])
    ensures forall x | 2 <= x < c + 1 && x < n && t[x] == 0 :: x in news + [c]
  {
  }

  /** `t` is `t0` with the clusters of `s` marked free. */
  ghost predicate Zeroed(t0: Table, t: Table, s: seq<int>) {
    && |t| == |t0|
    && (forall c | 0 <= c < |t| :: t[c] == if c in s then 0 else t0[c])
  }

  function Used(t: Table, n: nat): (r: set<int>)
    requires n <= |t|
  {
    set c | 2 <= c < n && t[c] != 0
  }

  /** The chain-freeing loop: free `c`, go on with what its entry named. Terminates on any table,
      because every entry it meets again is already zero. */
  function FreeFrom(t: Table, n: nat, c: int): (r: Table)
    requires n <= |t|
    ensures |r| == |t|
    decreases Used(t, n), ValidCluster(n, c)
  {
    if !ValidCluster(n, c) then t
    else
      FreeStep(t, n, c);
      FreeFrom(t[c := 0], n, t[c])
  }

  lemma FreeStep(t: Table, n: nat, c: int)
    requires n <= |t| && ValidCluster(n, c)
    ensures t[c] == 0 ==> Used(t[c := 0], n) == Used(t, n) && !ValidCluster(n, t[c])
    ensures t[c] != 0 ==> Used(t[c := 0], n) < Used(t, n)
  {
    if t[c] == 0 {
      assert t[c := 0] == t;
    } else {
      assert c in Used(t, n) && c !in Used(t[c := 0], n);
    }
  }

  lemma LinkedFrame(t0: Table, t: Table, n: nat, s: seq<int>)
    requires |t| == |t0| && Linked(t0, n, s) && forall i | 0 <= i < |s| :: t[s[i]] == t0[s[i]]
    ensures Linked(t, n, s)
    ensures IsChain(t0, n, s) ==> IsChain(t, n, s)
  {
  }

  lemma ChainTail(t: Table, n: nat, s: seq<int>, k: nat)
    requires IsChain(t, n, s) && k < |s|
    ensures IsChain(t, n, s[k..])
  {
  }

  /** On a chain the freeing loop clears exactly that chain. */
  lemma {:induction false} FreeFromChain(t: Table, n: nat, s: seq<int>)
    requires IsChain(t, n, s)
    ensures Zeroed(t, FreeFrom(t, n, s[0]), s)
    decreases |s|
  {
    var t1 := t[s[0] := 0];
    FreeStep(t, n, s[0]);
    if |s| == 1 {
      assert FreeFrom(t, n, s[0]) == FreeFrom(t1, n, t[s[0]]) == t1;
    } else {
      hide FreeFrom, Zeroed;
      RestOfChain(t, n, s);
      FreeFromChain(t1, n, s[1..]);
      FreeFromHead(t, n, s);
    }
  }

  lemma RestOfChain(t: Table, n: nat, s: seq<int>)
    requires IsChain(t, n, s) && |s| > 1
    ensures IsChain(t[s[0] := 0], n, s[1..]) && s[0] !in s[1..]
  {
    ChainDistinct(t, n, s);
    var rest := s[1..];
    assert forall i | 0 <= i < |rest| :: rest[i] == s[i + 1] && s[i + 1] != s[0];
    ChainTail(t, n, s, 1);
    LinkedFrame(t, t[s[0] := 0], n, rest);
  }

  lemma FreeFromHead(t: Table, n: nat, s: seq<int>)
    requires IsChain(t, n, s) && |s| > 1 && ValidCluster(n, s[1])
    requires Zeroed(t[s[0] := 0], FreeFrom(t[s[0] := 0], n, s[1]), s[1..])
    ensures Zeroed(t, FreeFrom(t, n, s[0]), s)
  {
  }

  /** The latest step, up to `k`, at which the walk from `c` is at `c`. */
  ghost function LatestVisit(t: Table, n: nat, c: int, k: nat): (x: nat)
    requires n <= |t|
    ensures x <= k && Walk(t, n, c, x) == c
    ensures forall y | x < y <= k :: Walk(t, n, c, y) != c
  {
    if k == 0 || Walk(t, n, c, k) == c then k else LatestVisit(t, n, c, k - 1)
  }

  /** Freeing clears every cluster the walk visits, whether or not the table is cyclic. */
  lemma {:induction false} FreeFromReach(t: Table, n: nat, c: int, k: nat)
    requires n <= |t| && ValidCluster(n, Walk(t, n, c, k))
    ensures FreeFrom(t, n, c)[Walk(t, n, c, k)] == 0
    decreases k
  {
    if !ValidCluster(n, c) {
      WalkStuck(t, n, c, 0, k);
    }
    var t1 := t[c := 0];
    FreeStep(t, n, c);
    var x := LatestVisit(t, n, c, k);
    if x == k {
      FreeKeepsZero(t1, n, t[c], c);
    } else {
      WalkPeriodic(t, n, c, x, 0, k - x);
      forall d | 0 < d <= k - x ensures Walk(t, n, c, d) != c {
        WalkPeriodic(t, n, c, x, 0, d);
      }
      WalkAround(t, n, c, k - x - 1);
      FreeFromReach(t1, n, t[c], k - x - 1);
    }
  }

  /** As long as the walk does not come back to `c`, clearing `c` does not change it. */
  lemma {:induction false} WalkAround(t: Table, n: nat, c: int, k: nat)
    requires n <= |t| && ValidCluster(n, c)
    requires forall d | 0 < d <= k + 1 :: Walk(t, n, c, d) != c
    ensures Walk(t[c := 0], n, t[c], k) == Walk(t, n, c, k + 1)
  {
    if k > 0 {
      WalkAround(t, n, c, k - 1);
      assert Walk(t, n, c, k) != c;
    } else {
      assert Walk(t, n, c, 0 + 1) == t[Walk(t, n, c, 0)];
    }
  }

  lemma {:induction false} FreeKeepsZero(t: Table, n: nat, c: int, x: int)
    requires n <= |t| && 0 <= x < |t| && t[x] == 0
    ensures FreeFrom(t, n, c)[x] == 0
    decreases Used(t, n), ValidCluster(n, c)
  {
    if ValidCluster(n, c) {
      FreeStep(t, n, c);
      FreeKeepsZero(t[c := 0], n, t[c], x);
    }
  }

  // ---------------------------------------------------------------- undoing an extension

  /** What `fat_unwind_chain` computes. */
  function Unwind(t: Table, n: nat, last: int, origTail: U16): (r: Table)
    requires n <= |t|
    ensures |r| == |t|
  {
    if !ValidCluster(n, last) then t
    else if t[last] == origTail then t
    else FreeFrom(t[last := origTail], n, t[last])
  }

  /** With the new clusters linked behind `last`, which is none of them, unwinding restores the table exactly when
      nothing was linked yet or the old tail did not already name the first new cluster. */
  lemma UnwindLinked(t0: Table, t: Table, n: nat, last: int, news: seq<int>)
    requires n <= |t0| && ValidCluster(n, last) && last !in news && Distinct(news)
    requires forall i | 0 <= i < |news| :: ValidCluster(n, news[i]) && t0[news[i]] == 0
    requires Extended(t0, t, last, news)
    ensures Unwind(t, n, last, t0[last]) == t0 <==> (news == [] || news[0] != t0[last])
  {
    if news == [] {
    } else if news[0] == t0[last] {
      assert t[news[0]] != 0;
    } else {
      var t1 := t[last := t0[last]];
      assert IsChain(t1, n, news);
      FreeFromChain(t1, n, news);
      var r := FreeFrom(t1, n, news[0]);
      forall c | 0 <= c < |t0| ensures r[c] == t0[c] {
        if c in news {
          assert t0[c] == 0;
        }
      }
      assert r == t0;
    }
  }

  /** Entries of the table that fit 16 bits. */
  ghost predicate InTable(t: Table, s: seq<int>) {
    forall i | 0 <= i < |s| :: 0 <= s[i] < |t| && s[i] < 0x1_0000
  }

  /** The table after the allocation loop has linked `news` behind `last`, one after the other. */
  ghost function LinkedOn(t0: Table, last: int, news: seq<int>): (t: Table)
    requires 0 <= last < |t0| && InTable(t0, news)
    ensures |t| == |t0|
  {
    if news == [] then t0
    else
      var k := |news| - 1;
      var prev := if k == 0 then last else news[k - 1];
      LinkedOn(t0, last, news[..k])[news[k] := END_OF_CHAIN][prev := news[k]]
  }

  /** As long as the last cluster is not itself handed out, the loop leaves an extended chain. */
  lemma {:induction false} LinkedIsExtended(t0: Table, last: int, news: seq<int>)
    requires 0 <= last < |t0| && InTable(t0, news)
    requires last !in news && Distinct(news)
    ensures Extended(t0, LinkedOn(t0, last, news), last, news)
  {
    if news != [] {
      var k := |news| - 1;
      assert news == news[..k] + [news[k]];
      LinkedIsExtended(t0, last, news[..k]);
      ExtendOne(t0, LinkedOn(t0, last, news[..k]), last, news[..k], if k == 0 then last else news[k - 1], news[k]);
    }
  }

  /** A free last cluster that is handed out first only links to itself, and the rest hangs behind it. */
  lemma {:induction false} LinkedToItself(t0: Table, last: int, news: seq<int>)
    requires 0 <= last < |t0| && InTable(t0, news)
    requires |news| >= 2 && news[0] == last && Distinct(news)
    ensures Extended(t0, LinkedOn(t0, last, news), last, news[1..])
  {
    var k := |news| - 1;
    var before: Table := LinkedOn(t0, last, news[..k]);
    if k == 1 {
      assert news[..1] == [last];
      LinkedOne(t0, last, last);
    } else {
      LinkedToItself(t0, last, news[..k]);
      assert news[..k][1..] == news[1..k] && news[1..] == news[1..k] + [news[k]];
      ExtendOne(t0, before, last, news[1..k], news[k - 1], news[k]);
    }
  }

  lemma LinkedOne(t0: Table, last: int, c: int)
    requires 0 <= last < |t0| && InTable(t0, [c])
    ensures var t := LinkedOn(t0, last, [c]);
      t[last] == c && (c != last ==> t[c] == END_OF_CHAIN) && forall x | 0 <= x < |t0| && x != last && x != c :: t[x] == t0[x]
  {
    assert [c][..0] == [] && LinkedOn(t0, last, []) == t0;
  }

  /** `t` links the first `k` clusters one to the next. */
  ghost predicate Chained(t: Table, news: seq<int>, k: nat)
    requires k <= |news| && InTable(t, news)
  {
    forall i {:trigger t[news[i]]} | 0 <= i < k :: t[news[i]] == if i + 1 < k then news[i + 1] else END_OF_CHAIN
  }

  lemma ChainedStep(t: Table, t': Table, news: seq<int>, k: nat)
    requires 0 < k < |news| && Distinct(news) && InTable(t, news) && Chained(t, news, k) && |t'| == |t|
    requires forall c | 0 <= c < |t| :: t'[c] == if c == news[k - 1] then news[k] else if c == news[k] then END_OF_CHAIN else t[c]
    ensures Chained(t', news, k + 1)
  {
    forall i {:trigger t'[news[i]]} | 0 <= i < k + 1 ensures t'[news[i]] == if i + 1 < k + 1 then news[i + 1] else END_OF_CHAIN {
      assert i < k ==> t[news[i]] == if i + 1 < k then news[i + 1] else END_OF_CHAIN;
    }
  }

  /** One handed out later becomes a middle link, and nothing points to the clusters before it any more. */
  lemma {:induction false} LinkedThrough(t0: Table, last: int, news: seq<int>, j: nat)
    requires 0 <= last < |t0| && InTable(t0, news)
    requires 0 < j < |news| && news[j] == last && Distinct(news)
    ensures Chained(LinkedOn(t0, last, news), news, |news|)
  {
    var k := |news| - 1;
    var before: Table := LinkedOn(t0, last, news[..k]);
    if j < k {
      LinkedThrough(t0, last, news[..k], j);
    } else {
      LinkedIsExtended(t0, last, news[..k]);
    }
    assert Chained(before, news, k) by {
      forall i {:trigger before[news[i]]} | 0 <= i < k ensures before[news[i]] == if i + 1 < k then news[i + 1] else END_OF_CHAIN {
        assert news[..k][i] == news[i] && before[news[..k][i]] == before[news[i]];
        assert i + 1 < k ==> news[..k][i + 1] == news[i + 1];
      }
    }
    ChainedStep(before, LinkedOn(t0, last, news), news, k);
  }

  /** Taking back what the loop has linked so far restores the table if and only if nothing was linked yet; or the
      last cluster was in use and its entry did not name the first new cluster; or it was marked free, and was not
      handed out after another cluster.  Only a damaged table fails. */
  lemma UnwindRestoresIff(t0: Table, n: nat, last: int, news: seq<int>)
    requires n <= |t0| && ValidCluster(n, last) && LowestFree(t0, n, news) && InTable(t0, news)
    requires forall i | 0 <= i < |news| :: ValidCluster(n, news[i])
    ensures Unwind(LinkedOn(t0, last, news), n, last, t0[last]) == t0
       <==> news == [] || (if t0[last] == 0 then last !in news[1..] else news[0] != t0[last])
  {
    hide LinkedOn, Unwind;
    if last !in news {
      LinkedIsExtended(t0, last, news);
      UnwindLinked(t0, LinkedOn(t0, last, news), n, last, news);
    } else if news[0] == last {
      UnwindSelf(t0, n, last, news);
    } else {
      UnwindLeaks(t0, n, last, news);
    }
  }

  lemma UnwindSelf(t0: Table, n: nat, last: int, news: seq<int>)
    requires n <= |t0| && ValidCluster(n, last) && LowestFree(t0, n, news) && InTable(t0, news) && news != [] && news[0] == last
    requires forall i | 0 <= i < |news| :: ValidCluster(n, news[i])
    ensures Unwind(LinkedOn(t0, last, news), n, last, t0[last]) == t0 && last !in news[1..] && t0[last] == 0
  {
    if |news| == 1 {
      UnwindOne(t0, n, last, news);
    } else {
      hide LinkedOn, Unwind;
      LinkedToItself(t0, last, news);
      assert forall i | 0 <= i < |news[1..]| :: news[1..][i] == news[i + 1];
      UnwindLinked(t0, LinkedOn(t0, last, news), n, last, news[1..]);
    }
  }

  lemma UnwindOne(t0: Table, n: nat, last: int, news: seq<int>)
    requires n <= |t0| && ValidCluster(n, last) && t0[last] == 0 && InTable(t0, news) && news == [last]
    ensures Unwind(LinkedOn(t0, last, news), n, last, t0[last]) == t0
  {
    var t := LinkedOn(t0, last, news);
    assert news[..0] == [] && LinkedOn(t0, last, []) == t0;
    assert t[last] == last && t[last := 0] == t0;
    FreeStep(t0, n, last);
    FreeStop(t0, n, last);
  }

  lemma FreeStop(t: Table, n: nat, c: int)
    requires n <= |t| && ValidCluster(n, c) && t[c] == 0
    ensures FreeFrom(t, n, c) == t
  {
  }

  lemma UnwindLeaks(t0: Table, n: nat, last: int, news: seq<int>)
    requires n <= |t0| && ValidCluster(n, last) && LowestFree(t0, n, news) && InTable(t0, news) && last in news && news[0] != last
    requires forall i | 0 <= i < |news| :: ValidCluster(n, news[i])
    ensures Unwind(LinkedOn(t0, last, news), n, last, t0[last]) != t0 && last in news[1..] && t0[last] == 0
  {
    hide LinkedOn, FreeFrom;
    var j :| 0 < j < |news| && news[j] == last;
    var t := LinkedOn(t0, last, news);
    LinkedThrough(t0, last, news, j);
    assert news[1..][j - 1] == last && t0[news[0]] == 0;
    assert t[news[0]] == news[1] && t[last] == if j + 1 < |news| then news[j + 1] else END_OF_CHAIN by {
      assert t[news[j]] == if j + 1 < |news| then news[j + 1] else END_OF_CHAIN;
    }
    if j + 1 < |news| {
      SuffixChain(t, n, last, news, j);
      FreeFromChain(t[last := 0], n, news[j + 1..]);
    } else {
      FreeNothing(t[last := 0], n, t[last]);
    }
    assert Unwind(t, n, last, t0[last])[news[0]] == news[1];
  }

  lemma FreeNothing(t: Table, n: nat, c: int)
    requires n <= |t| && !ValidCluster(n, c)
    ensures FreeFrom(t, n, c) == t
  {
  }

  lemma SuffixChain(t: Table, n: nat, last: int, news: seq<int>, j: nat)
    requires n <= |t| && j + 1 < |news| && news[j] == last && ValidCluster(n, last) && Distinct(news)
    requires forall i | 0 <= i < |news| :: ValidCluster(n, news[i])
    requires InTable(t, news) && Chained(t, news, |news|)
    ensures var rest := news[j + 1..]; IsChain(t[last := 0], n, rest) && rest[0] == news[j + 1] && (j > 0 ==> news[0] !in rest)
  {
    var rest := news[j + 1..];
    assert forall i | 0 <= i < |rest| :: rest[i] == news[j + 1 + i] && rest[i] != last && (j > 0 ==> rest[i] != news[0]);
  }
  /** The damaged case does occur: cluster 2 names the free cluster 3. */
  lemma UnwindLeaksOnDamagedTable()
    ensures var t0: Table := [0xFFF8, 0xFFFF, 3, 0];
            var t: Table := [0xFFF8, 0xFFFF, 3, 0xFFFF];
            && LowestFree(t0, 4, [3]) && Extended(t0, t, 2, [3])
            && Unwind(t, 4, 2, t0[2]) != t0
  {
  }

  // ---------------------------------------------------------------- ownership

  type Chains = map<nat, seq<int>>

  ghost predicate Owned(chains: Chains, c: int) {
    exists f :: f in chains && c in chains[f]
  }

  ghost predicate EndMarked(t: Table, n: nat, s: seq<int>) {
    IsChain(t, n, s) && t[s[|s| - 1]] >= FIRST_END_MARK
  }

  ghost predicate Apart(s: seq<int>, u: seq<int>) {
    forall c | c in s :: c !in u
  }

  ghost predicate SameOn(t0: Table, t: Table, s: seq<int>) {
    forall i | 0 <= i < |s| :: 0 <= s[i] < |t0| && s[i] < |t| && t[s[i]] == t0[s[i]]
  }

  predicate InUse(t: Table, c: int)
    requires 0 <= c < |t|
  {
    t[c] != 0 && t[c] != BAD_CLUSTER
  }

  /** Every file has an end-marked chain, no two chains share a cluster, and every entry that is
      neither free nor marked bad belongs to some chain. */
  ghost predicate Ownership(t: Table, n: nat, chains: Chains) {
    && 2 <= n <= |t|
    && (forall f | f in chains :: EndMarked(t, n, chains[f]))
    && (forall f, g | f in chains && g in chains && f != g :: Apart(chains[f], chains[g]))
    && (forall c | 2 <= c < n && InUse(t, c) :: Owned(chains, c))
  }

  /** Clusters on a chain are neither free nor bad. */
  lemma OnChainInUse(t: Table, n: nat, s: seq<int>, c: int)
    requires EndMarked(t, n, s) && c in s
    ensures 2 <= c < n && InUse(t, c)
  {
  }

  /** One chain changes, the others keep their entries, and what is in use stays owned. */
  lemma OwnershipStep(t0: Table, t: Table, n: nat, chains: Chains, chains': Chains, f: nat)
    requires Ownership(t0, n, chains) && |t| == |t0|
    requires forall g | g != f :: (g in chains' <==> g in chains) && (g in chains ==> chains'[g] == chains[g])
    requires forall g | g in chains && g != f :: SameOn(t0, t, chains[g])
    requires f in chains' ==> EndMarked(t, n, chains'[f])
    requires f in chains' ==> forall g | g in chains && g != f :: Apart(chains[g], chains'[f])
    requires forall c | 2 <= c < n && InUse(t, c) ::
               (f in chains' && c in chains'[f]) || (InUse(t0, c) && !(f in chains && c in chains[f]))
    ensures Ownership(t, n, chains')
  {
    forall g | g in chains' ensures EndMarked(t, n, chains'[g]) {
      if g != f {
        assert EndMarked(t0, n, chains[g]) && SameOn(t0, t, chains[g]);
        LinkedFrame(t0, t, n, chains[g]);
      }
    }
    forall g, h | g in chains' && h in chains' && g != h ensures Apart(chains'[g], chains'[h]) {
      if g == f {
        assert Apart(chains[h], chains'[f]);
      } else if h != f {
        assert Apart(chains[g], chains[h]);
      }
    }
    forall c | 2 <= c < n && InUse(t, c) ensures Owned(chains', c) {
      if !(f in chains' && c in chains'[f]) {
        assert Owned(chains, c);
        var g :| g in chains && c in chains[g];
        assert g in chains' && c in chains'[g];
      }
    }
  }

  lemma ExtendChainShape(t0: Table, t: Table, n: nat, s: seq<int>, news: seq<int>)
    requires IsChain(t0, n, s) && (forall i | 0 <= i < |s| :: t0[s[i]] != 0)
    requires (forall i | 0 <= i < |news| :: ValidCluster(n, news[i])) && LowestFree(t0, n, news)
    requires n < FIRST_END_MARK && news != []
    requires Extended(t0, t, s[|s| - 1], news)
    ensures IsChain(t, n, s + news) && t[(s + news)[|s + news| - 1]] == END_OF_CHAIN
  {
  }

  /** Free clusters are on no chain. */
  lemma FreeApart(t: Table, n: nat, s: seq<int>, news: seq<int>)
    requires EndMarked(t, n, s)
    requires forall i | 0 <= i < |news| :: 0 <= news[i] < |t| && t[news[i]] == 0
    ensures Apart(s, news) && forall i | 0 <= i < |s| :: t[s[i]] != 0
  {
  }

  lemma ExtendedSameOn(t0: Table, t: Table, n: nat, s: seq<int>, last: int, news: seq<int>)
    requires Extended(t0, t, last, news) && IsChain(t0, n, s) && last !in s && Apart(s, news)
    ensures SameOn(t0, t, s)
  {
  }

  /** Extending one file's chain by free clusters keeps ownership. */
  lemma ExtendKeepsOwnership(t0: Table, t: Table, n: nat, chains: Chains, f: nat, news: seq<int>)
    requires Ownership(t0, n, chains) && f in chains && n < FIRST_END_MARK
    requires (forall i | 0 <= i < |news| :: ValidCluster(n, news[i])) && LowestFree(t0, n, news)
    requires Extended(t0, t, chains[f][|chains[f]| - 1], news)
    ensures Ownership(t, n, chains[f := chains[f] + news])
  {
    var s := chains[f];
    var last, u := s[|s| - 1], s + news;
    assert last in s;
    if news == [] {
      assert u == s;
      assert chains[f := u] == chains;
    } else {
      FreeApart(t0, n, s, news);
      ExtendChainShape(t0, t, n, s, news);
      assert forall c :: c in u <==> c in s || c in news;
      forall g | g in chains && g != f
        ensures Apart(chains[g], u) && SameOn(t0, t, chains[g])
      {
        assert Apart(chains[g], s) && Apart(s, chains[g]);
        FreeApart(t0, n, chains[g], news);
        ExtendedSameOn(t0, t, n, chains[g], last, news);
      }
      OwnershipStep(t0, t, n, chains, chains[f := u], f);
    }
  }

  /** `t` is `t0` with the chain `s` cut after its first `k` clusters. */
  ghost predicate Cut(t0: Table, t: Table, s: seq<int>, k: nat)
    requires 1 <= k <= |s|
  {
    && |t| == |t0|
    && (forall c | 0 <= c < |t| :: t[c] == if c == s[k - 1] then END_OF_CHAIN else if c in s[k..] then 0 else t0[c])
  }

  lemma CutChainShape(t0: Table, t: Table, n: nat, s: seq<int>, k: nat)
    requires IsChain(t0, n, s) && 1 <= k <= |s| && n < FIRST_END_MARK && Cut(t0, t, s, k)
    ensures EndMarked(t, n, s[..k])
    ensures forall c | c in s :: 0 <= c < |t| && (c in s[..k] || t[c] == 0)
  {
    ChainDistinct(t0, n, s);
    var u := s[..k];
    forall i {:trigger t[u[i]]} | 0 <= i < k - 1 ensures t[u[i]] == u[i + 1] {
      assert u[i] !in s[k..];
      assert t0[s[i]] == s[i + 1];
    }
    forall c | c in s ensures 0 <= c < |t| && (c in u || t[c] == 0) {
      var i :| 0 <= i < |s| && s[i] == c;
      assert ValidCluster(n, s[i]);
      if i < k {
        assert u[i] == c;
      } else {
        assert s[k..][i - k] == c && s[k - 1] != c;
      }
    }
  }

  lemma CutSameOn(t0: Table, t: Table, n: nat, s: seq<int>, k: nat, u: seq<int>)
    requires IsChain(t0, n, u) && 1 <= k <= |s| && Cut(t0, t, s, k) && Apart(s, u)
    ensures SameOn(t0, t, u)
  {
    forall i | 0 <= i < |u| ensures 0 <= u[i] < |t0| && t[u[i]] == t0[u[i]] {
      assert ValidCluster(n, u[i]) && u[i] in u && u[i] !in s;
      assert s[k - 1] in s;
    }
  }

  lemma CutKeepsOwnership(t0: Table, t: Table, n: nat, chains: Chains, f: nat, k: nat)
    requires Ownership(t0, n, chains) && f in chains && 1 <= k <= |chains[f]| && n < FIRST_END_MARK
    requires Cut(t0, t, chains[f], k)
    ensures Ownership(t, n, chains[f := chains[f][..k]])
  {
    var s := chains[f];
    var u := s[..k];
    CutChainShape(t0, t, n, s, k);
    forall g | g in chains && g != f ensures SameOn(t0, t, chains[g]) && Apart(chains[g], u) {
      assert Apart(s, chains[g]);
      CutSameOn(t0, t, n, s, k, chains[g]);
    }
    forall c | 2 <= c < n && InUse(t, c) ensures c in u || (InUse(t0, c) && c !in s) {
      assert c in s[k..] ==> c in s;
      assert s[k - 1] in s;
    }
    OwnershipStep(t0, t, n, chains, chains[f := u], f);
  }

  lemma ZeroedSameOn(t0: Table, t: Table, n: nat, s: seq<int>, u: seq<int>)
    requires IsChain(t0, n, u) && Zeroed(t0, t, s) && Apart(s, u)
    ensures SameOn(t0, t, u)
  {
  }

  lemma DeleteKeepsOwnership(t0: Table, t: Table, n: nat, chains: Chains, f: nat)
    requires Ownership(t0, n, chains) && f in chains && Zeroed(t0, t, chains[f])
    ensures Ownership(t, n, chains - {f})
  {
    forall g | g in chains && g != f ensures SameOn(t0, t, chains[g]) {
      assert Apart(chains[f], chains[g]);
      ZeroedSameOn(t0, t, n, chains[f], chains[g]);
    }
    OwnershipStep(t0, t, n, chains, chains - {f}, f);
  }

  lemma CreateKeepsOwnership(t0: Table, t: Table, n: nat, chains: Chains, f: nat, c: int)
    requires Ownership(t0, n, chains) && f !in chains && n < FIRST_END_MARK
    requires ValidCluster(n, c) && t0[c] == 0 && t == t0[c := END_OF_CHAIN]
    ensures Ownership(t, n, chains[f := [c]])
  {
    forall g | g in chains && g != f ensures SameOn(t0, t, chains[g]) && Apart(chains[g], [c]) {
      FreeApart(t0, n, chains[g], [c]);
      assert forall i | 0 <= i < |chains[g]| :: chains[g][i] in chains[g] && ValidCluster(n, chains[g][i]);
    }
    OwnershipStep(t0, t, n, chains, chains[f := [c]], f);
  }

  // ---------------------------------------------------------------- conservation

  function BadSet(t: Table, n: nat): (r: set<int>)
    requires n <= |t|
  {
    set c | 2 <= c < n && t[c] == BAD_CLUSTER
  }

  ghost function OwnedSet(n: nat, chains: Chains): (r: set<int>) {
    set c | 2 <= c < n && Owned(chains, c)
  }

  /** Free, owned and bad clusters partition the data area: none is ever lost or counted twice. */
  lemma ClustersConserved(t: Table, n: nat, chains: Chains)
    requires Ownership(t, n, chains)
    ensures FreeSet(t, n) !! OwnedSet(n, chains) !! BadSet(t, n)
    ensures |FreeSet(t, n)| + |OwnedSet(n, chains)| + |BadSet(t, n)| == n - 2
  {
    var free, owned, bad := FreeSet(t, n), OwnedSet(n, chains), BadSet(t, n);
    forall c | c in owned ensures InUse(t, c) {
      var f :| f in chains && c in chains[f];
      OnChainInUse(t, n, chains[f], c);
    }
    forall c | c in ClusterRange(n) ensures c in free + owned + bad {
      assert InUse(t, c) ==> Owned(chains, c);
    }
    assert free + owned + bad == ClusterRange(n);
    RangeCard(n);
  }

  /** Chain edits move clusters between a file and the free pool one for one. */
  lemma ExtendFreeCount(t0: Table, t: Table, n: nat, last: int, news: seq<int>)
    requires n <= |t0| && LowestFree(t0, n, news) && Extended(t0, t, last, news)
    requires 2 <= last < n && t0[last] != 0 && forall i | 0 <= i < |news| :: news[i] != 0
    ensures |FreeSet(t, n)| == |FreeSet(t0, n)| - |news|
  {
    assert last !in news;
    assert FreeSet(t, n) == FreeSet(t0, n) - Elements(news);
    assert Elements(news) <= FreeSet(t0, n);
    DistinctCard(news);
  }

  lemma CutFreeCount(t0: Table, t: Table, n: nat, s: seq<int>, k: nat)
    requires EndMarked(t0, n, s) && 1 <= k <= |s| && Cut(t0, t, s, k)
    ensures |FreeSet(t, n)| == |FreeSet(t0, n)| + (|s| - k)
  {
    ChainDistinct(t0, n, s);
    var gone := s[k..];
    assert Distinct(gone);
    DistinctCard(gone);
    forall c | c in s ensures 2 <= c < n && t0[c] != 0 {
      OnChainInUse(t0, n, s, c);
    }
    assert s[k - 1] in s && s[k - 1] !in gone;
    assert Elements(gone) !! FreeSet(t0, n);
    assert FreeSet(t, n) == FreeSet(t0, n) + Elements(gone);
  }

  lemma DeleteFreeCount(t0: Table, t: Table, n: nat, s: seq<int>)
    requires EndMarked(t0, n, s) && Zeroed(t0, t, s)
    ensures |FreeSet(t, n)| == |FreeSet(t0, n)| + |s|
  {
    ChainDistinct(t0, n, s);
    DistinctCard(s);
    forall c | c in s ensures 2 <= c < n && t0[c] != 0 {
      OnChainInUse(t0, n, s, c);
    }
    assert Elements(s) !! FreeSet(t0, n);
    assert FreeSet(t, n) == FreeSet(t0, n) + Elements(s);
  }
}
