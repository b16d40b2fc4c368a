/** The kernel mutex: an intrusive first-in first-out list of waiting tasks, direct hand-off of ownership
    on release, and the clean-up of a task that ends.

    Tasks and mutexes are numbered; each pointer field of the two structs is a map from the number of
    the object to the number it points to, with `NULL` for the null pointer. */
module Ksync {
  import opened Sequences

  const NULL: int := -1

  // ---------------------------------------------------------------- intrusive lists

  function First(s: seq<int>): (r: int) { if s == [] then NULL else s[0] }

  function Last(s: seq<int>): (r: int) { if s == [] then NULL else s[|s| - 1] }

  /** Starting at `head`, the links `next` visit exactly the elements of `s`, in order. */
  ghost predicate Spells(next: map<int, int>, head: int, s: seq<int>) {
    && Distinct(s) && head == First(s)
    && (s != [] ==> 0 <= s[0]) && (forall x | x in s :: 0 <= x && x in next)
    && (forall i {:trigger next[s[i]]} | 0 <= i < |s| ::
          next[s[i]] == if i + 1 < |s| then s[i + 1] else NULL)
  }

  lemma SpellsHead(next: map<int, int>, head: int, s: seq<int>)
    requires Spells(next, head, s)
    ensures head == First(s) && Distinct(s)
  {
  }

  lemma SpellsFrame(next: map<int, int>, next': map<int, int>, head: int, s: seq<int>)
    requires Spells(next, head, s)
    requires forall x | x in s :: x in next' && next'[x] == next[x]
    ensures Spells(next', head, s)
  {
  }

  lemma SpellsPush(next: map<int, int>, head: int, s: seq<int>, x: int)
    requires Spells(next, head, s) && x !in s && 0 <= x
    ensures Spells(next[x := head], x, [x] + s)
  {
  }

  lemma SpellsPop(next: map<int, int>, head: int, s: seq<int>)
    requires Spells(next, head, s) && s != []
    ensures head == s[0] && next[head] == First(s[1..]) && Spells(next, next[head], s[1..])
  {
    var u := s[1..];
    assert next[s[0]] == if 1 < |s| then s[1] else NULL;
    assert forall x | x in u :: x in s;
    assert u != [] ==> u[0] in u;
    forall i {:trigger next[u[i]]} | 0 <= i < |u|
      ensures next[u[i]] == if i + 1 < |u| then u[i + 1] else NULL
    {
      assert u[i] == s[i + 1];
      assert next[s[i + 1]] == if i + 2 < |s| then s[i + 2] else NULL;
    }
  }

  lemma SpellsAppend(next: map<int, int>, next': map<int, int>, head: int, s: seq<int>, x: int)
    requires Spells(next, head, s) && x !in s && 0 <= x
    requires next' == if s == [] then next[x := NULL] else next[x := NULL][Last(s) := x]
    ensures Spells(next', First(s + [x]), s + [x])
  {
  }

  /** Unlinking element `i`: its predecessor, or the head, takes over its link. */
  lemma SpellsUnlink(next: map<int, int>, next': map<int, int>, head: int, head': int, s: seq<int>, i: nat)
    requires Spells(next, head, s) && i < |s|
    requires if i == 0 then next' == next && head' == next[s[0]] else next' == next[s[i - 1] := next[s[i]]] && head' == head
    ensures Spells(next', head', Without(s, i))
    ensures forall x :: x in Without(s, i) <==> x in s && x != s[i]
  {
    var u := Without(s, i);
    forall x ensures x in u <==> x in s && x != s[i] {
      if x in s && x != s[i] {
        var j :| 0 <= j < |s| && s[j] == x;
        assert u[if j < i then j else j - 1] == x;
      }
    }
    assert u != [] ==> u[0] in u;
    assert next[s[i]] == if i + 1 < |s| then s[i + 1] else NULL;
    forall j {:trigger next'[u[j]]} | 0 <= j < |u|
      ensures next'[u[j]] == if j + 1 < |u| then u[j + 1] else NULL
    {
      var k := if j < i then j else j + 1;
      assert u[j] == s[k];
      assert next[s[k]] == if k + 1 < |s| then s[k + 1] else NULL;
    }
  }

  // ---------------------------------------------------------------- state

  datatype State = State(
    // per mutex
    owner: map<int, int>, waiters: map<int, int>, tail: map<int, int>, ownedNext: map<int, int>,
    // per task
    mutex: map<int, int>, nextWaiter: map<int, int>, ownedHead: map<int, int>, paused: map<int, bool>,
    // the lists the links spell out
    queue: map<int, seq<int>>, held: map<int, seq<int>>)

  ghost predicate Typed(s: State) {
    && s.owner.Keys == s.waiters.Keys == s.tail.Keys == s.ownedNext.Keys == s.queue.Keys
    && s.mutex.Keys == s.nextWaiter.Keys == s.ownedHead.Keys == s.paused.Keys == s.held.Keys
    && (forall m | m in s.owner :: 0 <= m) && (forall t | t in s.mutex :: 0 <= t)
  }

  /** The waiter links of `m` spell out its queue, and those tasks are paused on `m`. */
  ghost predicate QueueOk(s: State, m: int)
    requires Typed(s) && m in s.owner
  {
    && Spells(s.nextWaiter, s.waiters[m], s.queue[m]) && s.tail[m] == Last(s.queue[m])
    && (forall t | t in s.queue[m] :: t in s.mutex && s.mutex[t] == m && s.paused[t])
  }

  /** The owned links of `t` spell out the mutexes it holds. */
  ghost predicate HeldOk(s: State, t: int)
    requires Typed(s) && t in s.mutex
  {
    && Spells(s.ownedNext, s.ownedHead[t], s.held[t])
    && (forall m | m in s.held[t] :: m in s.owner && s.owner[m] == t)
  }

  /** Waiters exist only behind an owner, who is not one of them. */
  ghost predicate Led(s: State, m: int)
    requires Typed(s) && m in s.owner
  {
    && (s.queue[m] != [] ==> s.owner[m] != NULL)
    && s.owner[m] !in s.queue[m]
  }

  ghost predicate OwnerOk(s: State, m: int)
    requires Typed(s) && m in s.owner
  {
    s.owner[m] != NULL ==> s.owner[m] in s.mutex && m in s.held[s.owner[m]]
  }

  ghost predicate WaitOk(s: State, t: int)
    requires Typed(s) && t in s.mutex
  {
    s.mutex[t] != NULL ==> s.mutex[t] in s.owner && t in s.queue[s.mutex[t]]
  }

  /** The invariant, with the rule that waiters have an owner suspended for mutex `x`. */
  ghost predicate InvBut(s: State, x: int) {
    && Typed(s)
    && (forall m | m in s.owner :: QueueOk(s, m) && OwnerOk(s, m) && (m != x ==> Led(s, m)))
    && (forall t | t in s.mutex :: HeldOk(s, t) && WaitOk(s, t))
  }

  ghost predicate Inv(s: State) { InvBut(s, NULL) }

  /** A task waits on at most one mutex, stands in its queue once, is paused, and never owns it. */
  lemma OnePlace(s: State, t: int, m: int, k: int)
    requires Inv(s) && m in s.owner && k in s.owner && t in s.queue[m]
    ensures t in s.queue[k] ==> k == m
    ensures t in s.mutex && s.paused[t] && s.owner[m] != NULL && s.owner[m] != t && m !in s.held[t]
    ensures multiset(s.queue[m])[t] == 1
  {
    assert QueueOk(s, m) && QueueOk(s, k) && HeldOk(s, t) && Led(s, m);
    DistinctOnce(s.queue[m], t);
  }

  lemma {:induction false} DistinctOnce(s: seq<int>, x: int)
    requires Distinct(s)
    ensures multiset(s)[x] == if x in s then 1 else 0
  {
    if s != [] {
      var k := |s| - 1;
      assert s == s[..k] + [s[k]];
      DistinctOnce(s[..k], x);
    }
  }

  /** Each mutex has at most one owner, and it is on exactly that task's owned list. */
  lemma OwnersAgree(s: State, t: int, m: int)
    requires Inv(s) && t in s.mutex && m in s.owner
    ensures m in s.held[t] <==> s.owner[m] == t
  {
  }

  // ---------------------------------------------------------------- steps on the abstract lists

  /** A task joins the end of the queue of an owned mutex. */
  function Queued(s: State, m: int, t: int): (r: State)
    requires m in s.queue && m in s.tail
  {
    s.(mutex := s.mutex[t := m], paused := s.paused[t := true],
       nextWaiter := if s.queue[m] == [] then s.nextWaiter[t := NULL] else s.nextWaiter[t := NULL][Last(s.queue[m]) := t],
       waiters := if s.queue[m] == [] then s.waiters[m := t] else s.waiters,
       tail := s.tail[m := t], queue := s.queue[m := s.queue[m] + [t]])
  }

  lemma QueuedQueue(s: State, m: int, t: int)
    requires Inv(s) && m in s.owner && t in s.mutex && s.mutex[t] == NULL
    ensures Typed(Queued(s, m, t)) && QueueOk(Queued(s, m, t), m)
    ensures t !in s.queue[m] && (s.queue[m] != [] ==> Last(s.queue[m]) in s.queue[m])
  {
    hide Spells;
    var r := Queued(s, m, t);
    assert QueueOk(s, m);
    SpellsHead(s.nextWaiter, s.waiters[m], s.queue[m]);
    SpellsAppend(s.nextWaiter, r.nextWaiter, s.waiters[m], s.queue[m], t);
  }

  lemma QueuedKeepsInv(s: State, m: int, t: int)
    requires Inv(s) && m in s.owner && t in s.mutex && s.mutex[t] == NULL && s.owner[m] != NULL && s.owner[m] != t
    ensures Inv(Queued(s, m, t))
  {
    hide Spells, QueueOk, HeldOk;
    var r := Queued(s, m, t);
    QueuedQueue(s, m, t);
    forall k | k in r.owner ensures QueueOk(r, k) && OwnerOk(r, k) && Led(r, k) {
      assert QueueOk(s, k) && OwnerOk(s, k) && Led(s, k);
      if k != m {
        QueuedQueue(s, k, t);
        QueuesApart(s, m, k);
        QueueFrame(s, r, k);
      }
    }
    forall u | u in r.mutex ensures HeldOk(r, u) && WaitOk(r, u) {
      assert HeldOk(s, u) && WaitOk(s, u);
      HeldFrame(s, r, u);
    }
  }

  /** A free mutex passes to `t`. */
  function Granted(s: State, m: int, t: int): (r: State)
    requires t in s.ownedHead && t in s.held
  {
    s.(owner := s.owner[m := t], ownedNext := s.ownedNext[m := s.ownedHead[t]],
       ownedHead := s.ownedHead[t := m], held := s.held[t := [m] + s.held[t]])
  }

  lemma GrantedKeepsInv(s: State, m: int, t: int)
    requires InvBut(s, m) && m in s.owner && t in s.mutex && s.owner[m] == NULL && t !in s.queue[m]
    ensures Inv(Granted(s, m, t))
  {
    hide Spells, Distinct;
    var r := Granted(s, m, t);
    assert HeldOk(s, t);
    SpellsPush(s.ownedNext, s.ownedHead[t], s.held[t], m);
    forall k | k in r.owner ensures QueueOk(r, k) && OwnerOk(r, k) && Led(r, k) {
      assert QueueOk(s, k) && OwnerOk(s, k) && (k != m ==> Led(s, k));
    }
    forall u | u in r.mutex ensures HeldOk(r, u) && WaitOk(r, u) {
      assert HeldOk(s, u) && WaitOk(s, u);
      if u != t {
        assert forall k | k in s.held[u] :: k != m;
        SpellsFrame(s.ownedNext, r.ownedNext, s.ownedHead[u], s.held[u]);
      }
    }
  }

  /** `m` leaves the list of its owner `t`. */
  function Dropped(s: State, m: int, t: int, i: nat): (r: State)
    requires t in s.held && i < |s.held[t]| && s.held[t][i] == m && m in s.ownedNext
  {
    s.(owner := s.owner[m := NULL],
       ownedNext := (if i == 0 then s.ownedNext else s.ownedNext[s.held[t][i - 1] := s.ownedNext[m]])[m := NULL],
       ownedHead := if i == 0 then s.ownedHead[t := s.ownedNext[m]] else s.ownedHead,
       held := s.held[t := Without(s.held[t], i)])
  }

  lemma DroppedOwner(s: State, m: int, t: int, i: nat)
    requires Inv(s) && t in s.mutex && i < |s.held[t]| && s.held[t][i] == m
    ensures m in s.owner && s.owner[m] == t && Typed(Dropped(s, m, t, i)) && HeldOk(Dropped(s, m, t, i), t)
    ensures i > 0 ==> s.held[t][i - 1] in s.held[t]
    ensures forall x :: x in Without(s.held[t], i) <==> x in s.held[t] && x != m
  {
    hide Spells;
    assert HeldOk(s, t);
    var r, h := Dropped(s, m, t, i), s.held[t];
    assert m in h;
    SpellsHead(s.ownedNext, s.ownedHead[t], h);
    var mid := if i == 0 then s.ownedNext else s.ownedNext[h[i - 1] := s.ownedNext[m]];
    assert i > 0 ==> h[i - 1] in h && h[i - 1] != m;
    SpellsUnlink(s.ownedNext, mid, s.ownedHead[t], r.ownedHead[t], h, i);
    SpellsFrame(mid, r.ownedNext, r.ownedHead[t], Without(h, i));
  }

  lemma DroppedKeepsInv(s: State, m: int, t: int, i: nat)
    requires Inv(s) && t in s.mutex && i < |s.held[t]| && s.held[t][i] == m
    ensures m in s.owner && s.owner[m] == t && InvBut(Dropped(s, m, t, i), m)
  {
    hide Spells, QueueOk, HeldOk, WaitOk;
    DroppedOwner(s, m, t, i);
    var r := Dropped(s, m, t, i);
    forall k | k in r.owner ensures QueueOk(r, k) && OwnerOk(r, k) && (k != m ==> Led(r, k)) {
      assert QueueOk(s, k) && OwnerOk(s, k) && Led(s, k);
      QueueFrame(s, r, k);
    }
    forall u | u in r.mutex ensures HeldOk(r, u) && WaitOk(r, u) {
      assert HeldOk(s, u) && WaitOk(s, u);
      WaitFrame(s, r, u);
      if u != t {
        HeldApart(s, t, u);
        HeldFrame(s, r, u);
      }
    }
  }

  lemma HeldApart(s: State, t: int, u: int)
    requires Typed(s) && t in s.mutex && u in s.mutex && t != u && HeldOk(s, t) && HeldOk(s, u)
    ensures forall k | k in s.held[u] :: k !in s.held[t]
  {
  }

  lemma QueueFrame(s: State, r: State, k: int)
    requires Typed(s) && Typed(r) && k in s.owner && k in r.owner && QueueOk(s, k) && r.mutex.Keys == s.mutex.Keys
    requires r.queue[k] == s.queue[k] && r.waiters[k] == s.waiters[k] && r.tail[k] == s.tail[k]
    requires forall u | u in s.queue[k] && u in s.mutex ::
               r.nextWaiter[u] == s.nextWaiter[u] && r.mutex[u] == s.mutex[u] && r.paused[u] == s.paused[u]
    ensures QueueOk(r, k)
  {
  }

  lemma HeldFrame(s: State, r: State, u: int)
    requires Typed(s) && Typed(r) && u in s.mutex && u in r.mutex && HeldOk(s, u) && r.owner.Keys == s.owner.Keys
    requires r.held[u] == s.held[u] && r.ownedHead[u] == s.ownedHead[u]
    requires forall k | k in s.held[u] && k in s.owner :: r.ownedNext[k] == s.ownedNext[k] && r.owner[k] == s.owner[k]
    ensures HeldOk(r, u)
  {
    hide Spells;
    SpellsFrame(s.ownedNext, r.ownedNext, s.ownedHead[u], s.held[u]);
  }

  lemma WaitFrame(s: State, r: State, u: int)
    requires Typed(s) && Typed(r) && u in s.mutex && u in r.mutex && WaitOk(s, u)
    requires r.mutex == s.mutex && r.queue == s.queue
    ensures WaitOk(r, u)
  {
  }

  /** Task number `i` leaves the queue of `m` and is no longer waiting. */
  function Dequeued(s: State, m: int, i: nat): (r: State)
    requires m in s.queue && i < |s.queue[m]| && m in s.waiters && m in s.tail && s.queue[m][i] in s.nextWaiter
  {
    var q := s.queue[m];
    var t := q[i];
    s.(nextWaiter := (if i == 0 then s.nextWaiter else s.nextWaiter[q[i - 1] := s.nextWaiter[t]])[t := NULL],
       waiters := if i == 0 then s.waiters[m := s.nextWaiter[t]] else s.waiters,
       tail := s.tail[m := if i < |q| - 1 then s.tail[m] else if i == 0 then NULL else q[i - 1]],
       mutex := s.mutex[t := NULL], queue := s.queue[m := Without(q, i)])
  }

  lemma WithoutLast(q: seq<int>, i: nat)
    requires i < |q|
    ensures Last(Without(q, i)) == if i < |q| - 1 then Last(q) else if i == 0 then NULL else q[i - 1]
  {
  }

  lemma DequeuedTyped(s: State, m: int, i: nat)
    requires Typed(s) && m in s.owner && i < |s.queue[m]| && s.queue[m][i] in s.mutex
    requires i > 0 ==> s.queue[m][i - 1] in s.mutex
    ensures Typed(Dequeued(s, m, i))
  {
  }

  lemma DequeuedQueue(s: State, m: int, i: nat)
    requires Typed(s) && m in s.owner && QueueOk(s, m) && i < |s.queue[m]|
    ensures s.queue[m][i] in s.queue[m] && s.queue[m][i] in s.mutex
    ensures i > 0 ==> s.queue[m][i - 1] in s.queue[m]
    ensures Typed(Dequeued(s, m, i)) && QueueOk(Dequeued(s, m, i), m)
    ensures forall y :: y in Without(s.queue[m], i) <==> y in s.queue[m] && y != s.queue[m][i]
  {
    hide Spells, Last;
    TypedParts(s, m);
    var q, t := s.queue[m], s.queue[m][i];
    assert t in q;
    assert forall u | u in q :: u in s.mutex;
    assert forall j | 0 <= j < |q| :: q[j] in q && q[j] in s.mutex;
    DequeuedTyped(s, m, i);
    SpellsHead(s.nextWaiter, s.waiters[m], q);
    WithoutLast(q, i);
    var r := Dequeued(s, m, i);
    var mid := if i == 0 then s.nextWaiter else s.nextWaiter[q[i - 1] := s.nextWaiter[t]];
    assert i > 0 ==> q[i - 1] != t;
    SpellsUnlink(s.nextWaiter, mid, s.waiters[m], r.waiters[m], q, i);
    SpellsFrame(mid, r.nextWaiter, r.waiters[m], Without(q, i));
  }

  lemma TypedParts(s: State, m: int)
    requires Typed(s) && m in s.owner && QueueOk(s, m)
    ensures m in s.waiters && m in s.tail && m in s.queue
    ensures forall t | t in s.queue[m] :: t in s.mutex
    ensures s.nextWaiter.Keys == s.mutex.Keys == s.paused.Keys
  {
  }

  lemma DequeuedKeepsInv(s: State, m: int, i: nat, x: int)
    requires InvBut(s, x) && m in s.owner && i < |s.queue[m]| && (x == NULL || x == m)
    ensures s.queue[m][i] in s.mutex && InvBut(Dequeued(s, m, i), x)
    ensures forall k | k in s.owner :: s.queue[m][i] !in Dequeued(s, m, i).queue[k]
  {
    hide Spells, QueueOk, HeldOk;
    DequeuedQueue(s, m, i);
    var r, q, t := Dequeued(s, m, i), s.queue[m], s.queue[m][i];
    forall k | k in r.owner
      ensures QueueOk(r, k) && OwnerOk(r, k) && (k != x ==> Led(r, k)) && t !in r.queue[k]
    {
      assert QueueOk(s, k) && OwnerOk(s, k) && (k != x ==> Led(s, k));
      if k != m {
        QueuesApart(s, m, k);
        QueueFrame(s, r, k);
      }
    }
    forall u | u in r.mutex ensures HeldOk(r, u) && WaitOk(r, u) {
      assert HeldOk(s, u) && WaitOk(s, u);
      HeldFrame(s, r, u);
    }
  }

  lemma QueuesApart(s: State, m: int, k: int)
    requires Typed(s) && m in s.owner && k in s.owner && m != k && QueueOk(s, m) && QueueOk(s, k)
    ensures forall u | u in s.queue[k] :: u !in s.queue[m]
  {
  }

  function Unpaused(s: State, t: int): (r: State) {
    s.(paused := s.paused[t := false])
  }

  /** Running again does not disturb the lists once the task has left its queue. */
  lemma UnpausedKeepsInv(s: State, m: int, t: int)
    requires InvBut(s, m) && t in s.mutex && forall k | k in s.owner :: t !in s.queue[k]
    ensures InvBut(Unpaused(s, t), m)
  {
  }

  /** What `kmutex_wake` does to a mutex without owner. */
  function Woken(s: State, m: int): (r: State)
    requires m in s.queue && m in s.waiters && m in s.tail
    requires s.queue[m] != [] ==> s.queue[m][0] in s.nextWaiter && s.queue[m][0] in s.ownedHead && s.queue[m][0] in s.held
  {
    if s.queue[m] == [] then s
    else Granted(Unpaused(Dequeued(s, m, 0), s.queue[m][0]), m, s.queue[m][0])
  }

  /** The task that has waited longest gets the mutex and runs; nobody else is affected. */
  lemma WokenMeaning(s: State, m: int)
    requires InvBut(s, m) && m in s.owner && s.owner[m] == NULL
    ensures s.queue[m] != [] ==> s.queue[m][0] in s.mutex
    ensures var r, q := Woken(s, m), s.queue[m];
      && Inv(r) && SameKeys(s, r) && r.owner[m] == First(q) && r.queue[m] == Rest(q)
      && OthersKept(s, r, {m}, {First(q)})
      && (q != [] ==> r.held[q[0]] == [m] + s.held[q[0]] && r.mutex[q[0]] == NULL && !r.paused[q[0]])
  {
    hide Spells, HeldOk, WaitOk, OwnerOk;
    assert QueueOk(s, m);
    var q := s.queue[m];
    if q == [] {
      assert Led(s, m);
    } else {
      DequeuedQueue(s, m, 0);
      DequeuedKeepsInv(s, m, 0, m);
      var d := Dequeued(s, m, 0);
      UnpausedKeepsInv(d, m, q[0]);
      GrantedKeepsInv(Unpaused(d, q[0]), m, q[0]);
      assert Without(q, 0) == q[1..];
    }
  }

  function Rest(q: seq<int>): (r: seq<int>) { if q == [] then [] else q[1..] }

  ghost predicate SameKeys(s: State, r: State) {
    Typed(s) && Typed(r) && r.owner.Keys == s.owner.Keys && r.mutex.Keys == s.mutex.Keys
  }

  /** Owners, queues, places and pauses outside `ms` and `ts` are as they were. */
  ghost predicate OthersKept(s: State, r: State, ms: set<int>, ts: set<int>)
    requires SameKeys(s, r)
  {
    && (forall m | m in s.owner && m !in ms :: r.owner[m] == s.owner[m] && r.queue[m] == s.queue[m])
    && (forall t | t in s.mutex && t !in ts ::
          r.held[t] == s.held[t] && r.mutex[t] == s.mutex[t] && r.paused[t] == s.paused[t])
  }

  /** Direct hand-off: `m` leaves `t` for the task that has waited longest, who runs again; nobody else's
      mutexes, queues or places change. */
  ghost predicate HandedOver(s: State, r: State, m: int, t: int) {
    && Inv(s) && Inv(r) && SameKeys(s, r) && m in s.owner && t in s.mutex && m in s.held[t]
    && (var q := s.queue[m];
        && r.owner[m] == First(q) && r.queue[m] == Rest(q)
        && r.held[t] == Without(s.held[t], IndexOf(s.held[t], m)) && r.mutex[t] == s.mutex[t] && r.paused[t] == s.paused[t]
        && OthersKept(s, r, {m}, {t, First(q)})
        && (q != [] ==> q[0] in s.mutex && q[0] != t && r.held[q[0]] == [m] + s.held[q[0]] && r.mutex[q[0]] == NULL && !r.paused[q[0]]))
  }

  lemma DroppedMeaning(s: State, m: int, t: int)
    requires Inv(s) && m in s.owner && t in s.mutex && s.owner[m] == t
    ensures m in s.held[t]
    ensures var i := IndexOf(s.held[t], m);
            var d := Dropped(s, m, t, i);
      && InvBut(d, m) && d.owner[m] == NULL && d.queue == s.queue && d.mutex == s.mutex && d.paused == s.paused
      && d.held[t] == Without(s.held[t], i) && SameKeys(s, d) && OthersKept(s, d, {m}, {t})
  {
    hide Spells, QueueOk, HeldOk, WaitOk, OwnerOk;
    OwnersAgree(s, t, m);
    DroppedKeepsInv(s, m, t, IndexOf(s.held[t], m));
  }

  lemma HandOverChain(s: State, d: State, r: State, m: int, t: int)
    requires Inv(s) && Inv(r) && m in s.owner && t in s.mutex && s.owner[m] == t && m in s.held[t]
    requires SameKeys(s, d) && OthersKept(s, d, {m}, {t}) && d.queue == s.queue && d.mutex == s.mutex && d.paused == s.paused
    requires d.held[t] == Without(s.held[t], IndexOf(s.held[t], m))
    requires SameKeys(d, r) && r.owner[m] == First(d.queue[m]) && r.queue[m] == Rest(d.queue[m])
    requires OthersKept(d, r, {m}, {First(d.queue[m])})
    requires var q := s.queue[m];
             q != [] ==> q[0] in s.mutex && q[0] != t && r.held[q[0]] == [m] + d.held[q[0]] && r.mutex[q[0]] == NULL && !r.paused[q[0]]
    ensures HandedOver(s, r, m, t)
  {
  }

  lemma SameKeysParts(s: State, r: State)
    requires SameKeys(s, r)
    ensures s.queue.Keys == s.owner.Keys == r.owner.Keys == r.queue.Keys
    ensures s.held.Keys == s.mutex.Keys == r.mutex.Keys == r.held.Keys == s.paused.Keys == r.paused.Keys
  {
  }

  lemma ReleasedMeaning(s: State, m: int, t: int)
    requires Inv(s) && m in s.owner && t in s.mutex && s.owner[m] == t
    ensures m in s.held[t]
    ensures var d := Dropped(s, m, t, IndexOf(s.held[t], m));
      && InvBut(d, m) && d.owner[m] == NULL && d.queue == s.queue && SameKeys(s, d)
      && (d.queue[m] != [] ==> d.queue[m][0] in d.mutex)
      && HandedOver(s, Woken(d, m), m, t)
  {
    hide Spells, QueueOk, HeldOk, WaitOk, OwnerOk, Led, OthersKept;
    DroppedMeaning(s, m, t);
    var d := Dropped(s, m, t, IndexOf(s.held[t], m));
    WokenMeaning(d, m);
    if s.queue[m] != [] {
      NotWaiting(s, m, t);
    }
    HandOverChain(s, d, Woken(d, m), m, t);
  }

  lemma NotWaiting(s: State, m: int, t: int)
    requires Inv(s) && m in s.owner && t in s.mutex && s.owner[m] == t && s.queue[m] != []
    ensures s.queue[m][0] != t && s.queue[m][0] in s.mutex
  {
  }

  function WithMutex(s: State, m: int): State {
    s.(owner := s.owner[m := NULL], waiters := s.waiters[m := NULL], tail := s.tail[m := NULL],
       ownedNext := s.ownedNext[m := NULL], queue := s.queue[m := []])
  }

  lemma NewMutexSelf(s: State, m: int)
    requires Typed(s) && m !in s.owner && 0 <= m
    ensures var r := WithMutex(s, m); Typed(r) && QueueOk(r, m) && OwnerOk(r, m) && Led(r, m)
    ensures forall k | k in s.owner :: k in WithMutex(s, m).owner && k != m
  {
    EmptySpells(s.nextWaiter);
  }

  lemma NewMutexKeepsInv(s: State, m: int)
    requires Inv(s) && m !in s.owner && 0 <= m
    ensures Inv(WithMutex(s, m)) && Typed(s)
  {
    hide Spells, HeldOk, QueueOk;
    var r := WithMutex(s, m);
    NewMutexSelf(s, m);
    forall k | k in s.owner ensures QueueOk(r, k) && OwnerOk(r, k) && Led(r, k) {
      assert QueueOk(s, k) && OwnerOk(s, k) && Led(s, k);
      QueueFrame(s, r, k);
    }
    forall t | t in s.mutex ensures HeldOk(r, t) && WaitOk(r, t) {
      assert HeldOk(s, t) && WaitOk(s, t);
      HeldWider(s, r, t);
    }
  }

  lemma HeldWider(s: State, r: State, t: int)
    requires Typed(s) && Typed(r) && t in s.mutex && t in r.mutex && HeldOk(s, t)
    requires r.held[t] == s.held[t] && r.ownedHead[t] == s.ownedHead[t]
    requires forall m | m in s.owner :: m in r.owner && r.ownedNext[m] == s.ownedNext[m] && r.owner[m] == s.owner[m]
    ensures HeldOk(r, t)
  {
    hide Spells;
    SpellsFrame(s.ownedNext, r.ownedNext, s.ownedHead[t], s.held[t]);
  }

  lemma EmptySpells(next: map<int, int>)
    ensures Spells(next, NULL, [])
  {
  }

  function WithTask(s: State, t: int): State {
    s.(mutex := s.mutex[t := NULL], nextWaiter := s.nextWaiter[t := NULL], ownedHead := s.ownedHead[t := NULL],
       paused := s.paused[t := false], held := s.held[t := []])
  }

  /** Task `t` holds nothing and waits for nothing. */
  ghost predicate Idle(s: State, t: int)
    requires t in s.mutex
  {
    s.mutex[t] == NULL && t in s.held && s.held[t] == []
  }

  lemma HeldEmpty(s: State, t: int)
    requires Inv(s) && t in s.mutex
    ensures t in s.ownedHead && t in s.held && (s.ownedHead[t] == NULL <==> s.held[t] == [])
  {
    assert HeldOk(s, t);
  }

  lemma IdleIsNowhere(s: State, t: int, m: int)
    requires Inv(s) && 0 <= t && (t in s.mutex ==> Idle(s, t)) && m in s.owner
    ensures m in s.queue && s.owner[m] != t && t !in s.queue[m]
  {
    hide Spells;
    assert QueueOk(s, m) && OwnerOk(s, m);
  }

  lemma QueueWider(s: State, r: State, m: int)
    requires Typed(s) && Typed(r) && m in s.owner && m in r.owner && QueueOk(s, m)
    requires r.queue[m] == s.queue[m] && r.waiters[m] == s.waiters[m] && r.tail[m] == s.tail[m]
    requires forall u | u in s.queue[m] && u in s.mutex ::
               u in r.mutex && r.nextWaiter[u] == s.nextWaiter[u] && r.mutex[u] == s.mutex[u] && r.paused[u] == s.paused[u]
    ensures QueueOk(r, m)
  {
    hide Spells;
    SpellsFrame(s.nextWaiter, r.nextWaiter, s.waiters[m], s.queue[m]);
  }

  lemma NewTaskSelf(s: State, t: int)
    requires Typed(s) && 0 <= t
    ensures var r := WithTask(s, t); Typed(r) && HeldOk(r, t) && WaitOk(r, t) && r.owner == s.owner
    ensures forall u | u in s.mutex && u != t :: u in WithTask(s, t).mutex
  {
    EmptySpells(s.ownedNext);
  }

  lemma NewTaskKeepsInv(s: State, t: int)
    requires Inv(s) && 0 <= t && (t in s.mutex ==> Idle(s, t))
    ensures Inv(WithTask(s, t))
  {
    hide Spells, QueueOk, HeldOk, Idle;
    var r := WithTask(s, t);
    NewTaskSelf(s, t);
    forall m | m in s.owner ensures QueueOk(r, m) && OwnerOk(r, m) && Led(r, m) {
      assert QueueOk(s, m) && OwnerOk(s, m) && Led(s, m);
      IdleIsNowhere(s, t, m);
      QueueWider(s, r, m);
    }
    forall u | u in s.mutex && u != t ensures HeldOk(r, u) && WaitOk(r, u) {
      assert HeldOk(s, u) && WaitOk(s, u);
      HeldFrame(s, r, u);
    }
  }

  // ---------------------------------------------------------------- the kernel code

  class Kernel {
    var owner: map<int, int>
    var waiters: map<int, int>
    var tail: map<int, int>
    var ownedNext: map<int, int>
    var mutex: map<int, int>
    var nextWaiter: map<int, int>
    var ownedHead: map<int, int>
    var paused: map<int, bool>
    ghost var queue: map<int, seq<int>>
    ghost var held: map<int, seq<int>>

    ghost function View(): State
      reads this
    {
      State(owner, waiters, tail, ownedNext, mutex, nextWaiter, ownedHead, paused, queue, held)
    }

    /** No task and no mutex yet. */
    constructor ()
      ensures Inv(View()) && owner == map[] && mutex == map[]
    {
      owner, waiters, tail, ownedNext, queue := map[], map[], map[], map[], map[];
      mutex, nextWaiter, ownedHead, paused, held := map[], map[], map[], map[], map[];
    }

    /** A mutex in static storage, zero-initialised. */
    method NewMutex(m: int)
      requires Inv(View()) && m !in owner && 0 <= m
      modifies this
      ensures View() == WithMutex(old(View()), m) && Inv(View())
    {
      hide InvBut, Typed, Spells;
      NewMutexKeepsInv(View(), m);
      owner, waiters, tail, ownedNext := owner[m := NULL], waiters[m := NULL], tail[m := NULL], ownedNext[m := NULL];
      queue := queue[m := []];
    }

    /** `create_task_entry` in a fresh slot, or in that of a task which has been cleaned up. */
    method NewTask(t: int)
      requires Inv(View()) && 0 <= t && (t in mutex ==> Idle(View(), t))
      modifies this
      ensures View() == WithTask(old(View()), t) && Inv(View())
    {
      hide InvBut, Typed, Spells;
      NewTaskKeepsInv(View(), t);
      mutex, nextWaiter, ownedHead := mutex[t := NULL], nextWaiter[t := NULL], ownedHead[t := NULL];
      paused := paused[t := false];
      held := held[t := []];
    }

    /** The queueing part of `kmutex_wait`, up to the point where the task blocks. */
    method Wait(m: int, t: int)
      requires Inv(View()) && m in owner && t in mutex && mutex[t] == NULL && owner[m] != NULL && owner[m] != t
      modifies this
      ensures Inv(View()) && m in old(queue) && View() == Queued(old(View()), m, t)
    {
      hide InvBut, Typed, Spells;
      ghost var s := View();
      QueuedKeepsInv(s, m, t);
      MutexParts(s, NULL, m);
      mutex := mutex[t := m];
      nextWaiter := nextWaiter[t := NULL];
      if tail[m] != NULL {
        nextWaiter := nextWaiter[tail[m] := t];
      } else {
        waiters := waiters[m := t];
      }
      tail := tail[m := t];
      paused := paused[t := true];
      queue := queue[m := queue[m] + [t]];
      assert View() == Queued(s, m, t);
    }

    /** Takes the first waiter off the queue of `m`. */
    method PopWaiter(m: int) returns (t: int)
      requires InvBut(View(), m) && m in owner && m in queue && m in waiters && m in tail
      requires queue[m] != [] ==> queue[m][0] in nextWaiter
      modifies this
      ensures old(queue)[m] == [] ==> t == NULL && View() == old(View())
      ensures old(queue)[m] != [] ==> t == old(queue)[m][0] != NULL && View() == Dequeued(old(View()), m, 0)
    {
      hide InvBut, Typed, Spells;
      ghost var s := View();
      MutexParts(s, m, m);
      t := waiters[m];
      if t == NULL {
        return;
      }
      SpellsPop(nextWaiter, waiters[m], queue[m]);
      assert Without(queue[m], 0) == queue[m][1..];
      waiters := waiters[m := nextWaiter[t]];
      if waiters[m] == NULL {
        tail := tail[m := NULL];
      }
      mutex := mutex[t := NULL];
      nextWaiter := nextWaiter[t := NULL];
      queue := queue[m := queue[m][1..]];
      assert tail == s.tail[m := tail[m]];
    }

    /** `kmutex_wake`: the first waiter, if any, becomes the owner and runs again. */
    method Wake(m: int) returns (woken: bool)
      requires InvBut(View(), m) && m in owner && owner[m] == NULL
      requires m in queue && m in waiters && m in tail
      requires queue[m] != [] ==> queue[m][0] in nextWaiter && queue[m][0] in ownedHead && queue[m][0] in held
      modifies this
      ensures woken <==> old(queue)[m] != []
      ensures View() == Woken(old(View()), m)
    {
      hide InvBut, Typed, Spells;
      var t := PopWaiter(m);
      if t == NULL {
        return false;
      }
      paused := paused[t := false];
      Claim(m, t);
      return true;
    }

    /** Makes `t` the owner of `m` and puts `m` at the head of its owned list. */
    method Claim(m: int, t: int)
      requires t in ownedHead && t in held
      modifies this
      ensures View() == Granted(old(View()), m, t)
    {
      owner := owner[m := t];
      ownedNext := ownedNext[m := ownedHead[t]];
      ownedHead := ownedHead[t := m];
      held := held[t := [m] + held[t]];
    }

    /** `kmutex_release`: unlink the mutex from its owner's list, then hand it over. */
    method Release(t: int, m: int)
      requires Inv(View()) && t in mutex && m in owner && owner[m] == t
      modifies this
      ensures HandedOver(old(View()), View(), m, t)
    {
      hide InvBut, Typed, Spells, HandedOver, SameKeys;
      ghost var s := View();
      ReleasedMeaning(s, m, t);
      TaskParts(s, t);
      MutexParts(s, NULL, m);
      var prev := FindOwned(t, m);
      ghost var i := IndexOf(held[t], m);
      DroppedOwner(s, m, t, i);
      if prev != NULL {
        ownedNext := ownedNext[prev := ownedNext[m]];
      } else {
        ownedHead := ownedHead[t := ownedNext[m]];
      }
      ownedNext := ownedNext[m := NULL];
      owner := owner[m := NULL];
      held := held[t := Without(held[t], i)];
      assert View() == Dropped(s, m, t, i);
      MutexParts(View(), m, m);
      var woken := Wake(m);
    }

    /** Walks the owned list of `t` to the mutex before `m`. */
    method FindOwned(t: int, m: int) returns (prev: int)
      requires Inv(View()) && t in mutex && m in held[t]
      ensures var i := IndexOf(held[t], m);
              prev == (if i == 0 then NULL else held[t][i - 1]) && (prev == NULL <==> i == 0)
    {
      ghost var h := held[t];
      assert HeldOk(View(), t);
      prev := NULL;
      var cur := ownedHead[t];
      ghost var i := 0;
      while cur != NULL && cur != m
        invariant 0 <= i < |h| && cur == h[i] && m !in h[..i] && prev == (if i == 0 then NULL else h[i - 1])
        decreases |h| - i
      {
        assert ownedNext[h[i]] == if i + 1 < |h| then h[i + 1] else NULL;
        assert h[..i + 1] == h[..i] + [h[i]];
        prev := cur;
        cur := ownedNext[cur];
        i := i + 1;
      }
      assert h[i] in h;
      SameIndex(h, m, i);
      assert i > 0 ==> h[i - 1] in h;
    }

    /** `kmutex_lock`, up to the point where the task either owns the mutex or blocks. The panics of the
        source are the preconditions: the task is not the owner and does not already wait. */
    method Lock(m: int, t: int) returns (claimed: bool)
      requires Inv(View()) && m in owner && t in mutex && mutex[t] == NULL && owner[m] != t
      modifies this
      ensures Inv(View()) && LockDone(old(View()), View(), m, t)
      ensures claimed <==> old(owner)[m] == NULL
    {
      hide InvBut, Typed, Spells;
      ghost var s := View();
      TaskParts(s, t);
      if owner[m] == NULL {
        GrantedMeaning(s, m, t);
        Claim(m, t);
        return true;
      }
      QueuedMeaning(s, m, t);
      Wait(m, t);
      return false;
    }

    /** `kmutex_unlock`: only the owner can release. */
    method Unlock(m: int, t: int) returns (ok: bool)
      requires Inv(View()) && m in owner && t in mutex
      modifies this
      ensures ok <==> old(owner)[m] == t
      ensures !ok ==> View() == old(View())
      ensures ok ==> HandedOver(old(View()), View(), m, t)
    {
      if owner[m] != t {
        return false;
      }
      Release(t, m);
      return true;
    }

    /** The waiter half of the clean-up. */
    method LeaveQueue(t: int)
      requires Inv(View()) && t in mutex
      modifies this
      ensures LeftQueue(old(View()), View(), t)
    {
      hide InvBut, Typed, Spells, LeftQueue;
      ghost var s := View();
      TaskParts(s, t);
      var m := mutex[t];
      if m == NULL {
        NoQueueLeft(s, t);
        return;
      }
      MutexParts(s, NULL, m);
      ghost var q := queue[m];
      ghost var i := IndexOf(q, t);
      assert i > 0 ==> q[i - 1] in q;
      QueueLeft(s, t);
      var prev := FindWaiter(t, m);
      if prev != NULL {
        nextWaiter := nextWaiter[prev := nextWaiter[t]];
      } else {
        waiters := waiters[m := nextWaiter[t]];
      }
      LastIs(s, m, i);
      if tail[m] == t {
        tail := tail[m := prev];
      }
      mutex := mutex[t := NULL];
      nextWaiter := nextWaiter[t := NULL];
      queue := queue[m := Without(q, i)];
      assert tail == s.tail[m := tail[m]];
      assert View() == Dequeued(s, m, i);
    }

    /** Walks the queue of `m` to the task before `t`. */
    method FindWaiter(t: int, m: int) returns (prev: int)
      requires Inv(View()) && m in owner && t in queue[m]
      ensures var i := IndexOf(queue[m], t);
              prev == (if i == 0 then NULL else queue[m][i - 1]) && (prev == NULL <==> i == 0)
    {
      ghost var q := queue[m];
      assert QueueOk(View(), m);
      prev := NULL;
      var cur := waiters[m];
      ghost var i := 0;
      while cur != NULL && cur != t
        invariant 0 <= i < |q| && cur == q[i] && t !in q[..i] && prev == (if i == 0 then NULL else q[i - 1])
        decreases |q| - i
      {
        assert nextWaiter[q[i]] == if i + 1 < |q| then q[i + 1] else NULL;
        assert q[..i + 1] == q[..i] + [q[i]];
        prev := cur;
        cur := nextWaiter[cur];
        i := i + 1;
      }
      assert q[i] in q;
      SameIndex(q, t, i);
      assert i > 0 ==> q[i - 1] in q;
    }

    /** `ksync_cleanup_task`: the ended task waits for nothing and owns nothing, and every mutex it held has
        gone to the first task in its queue. */
    method CleanupTask(t: int)
      requires Inv(View()) && t in mutex
      modifies this
      ensures Retired(old(View()), View(), t)
    {
      hide InvBut, Typed, Spells, HandedOver, Releasing, LeftQueue;
      ghost var s0 := View();
      LeaveQueue(t);
      ghost var s := View();
      ghost var done: seq<int> := [];
      ReleasingStart(s0, s, t);
      while ownedHead[t] != NULL
        invariant t in ownedHead && t in held && Releasing(s, View(), t, done)
        decreases |held[t]|
      {
        ghost var v := View();
        ReleasingHead(s, v, t, done);
        Release(t, ownedHead[t]);
        ReleasingStep(s, v, View(), t, done);
        HandedOverKeys(v, View(), v.held[t][0], t);
        done := done + [v.held[t][0]];
      }
      AllReleased(s0, s, View(), t, done);
    }

    /** One step of a run; a blocked task takes none.  The kernel panics when a task locks a mutex it owns. */
    method Step(op: Op) returns (panics: bool)
      requires Inv(View())
      modifies this
      ensures panics <==> op.Lock? && Active(old(View()), op.t) && op.m in old(owner) && old(owner)[op.m] == op.t
      ensures Inv(View()) && if panics then View() == old(View()) else Does(old(View()), op, View())
    {
      hide Spells, QueueOk, HeldOk, Led, OwnerOk;
      panics := false;
      match op
      case NewMutex(m) =>
        if m !in owner && 0 <= m {
          NewMutex(m);
        }
      case NewTask(t) =>
        if t in mutex {
          HeldEmpty(View(), t);
        }
        if 0 <= t && (t !in mutex || (mutex[t] == NULL && ownedHead[t] == NULL)) {
          NewTask(t);
        }
      case Lock(m, t) =>
        if t in mutex && !paused[t] && m in owner {
          if owner[m] == t {
            return true;
          }
          ActiveDoesNotWait(View(), t);
          var claimed := Lock(m, t);
        }
      case Unlock(m, t) =>
        if t in mutex && !paused[t] && m in owner {
          var ok := Unlock(m, t);
        }
      case Exit(t) =>
        if t in mutex {
          CleanupTask(t);
        }
    }

    /** Any interleaving of locking, unlocking, and tasks that come and go, from any sound state and so from boot:
        `trace` are the states passed through.  The run ends early only by a panic. */
    method Run(ops: seq<Op>) returns (ghost trace: seq<State>, n: nat)
      requires Inv(View())
      modifies this
      ensures n <= |ops| && IsRun(trace, ops[..n]) && trace[0] == old(View()) && trace[n] == View()
      ensures n < |ops| ==> ops[n].Lock? && ops[n].m in owner && owner[ops[n].m] == ops[n].t
    {
      hide Inv, Does;
      n := 0;
      trace := [View()];
      while n < |ops|
        invariant n <= |ops| && Inv(View()) && IsRun(trace, ops[..n]) && trace[0] == old(View()) && trace[n] == View()
      {
        var panics := Step(ops[n]);
        if panics {
          return;
        }
        trace := trace + [View()];
        n := n + 1;
      }
    }
  }

  datatype Op = NewMutex(m: int) | NewTask(t: int) | Lock(m: int, t: int) | Unlock(m: int, t: int) | Exit(t: int)

  /** A task that can take a step. */
  ghost predicate Active(s: State, t: int) { t in s.mutex && t in s.paused && !s.paused[t] }

  lemma ActiveDoesNotWait(s: State, t: int)
    requires Inv(s) && Active(s, t)
    ensures s.mutex[t] == NULL
  {
  }

  /** A free mutex is claimed; for an owned one the task joins the end of the queue and pauses. */
  ghost predicate LockDone(a: State, b: State, m: int, t: int) {
    && SameKeys(a, b) && m in a.owner && t in a.mutex
    && if a.owner[m] == NULL then
         && b.owner == a.owner[m := t] && b.held == a.held[t := [m] + a.held[t]]
         && b.queue == a.queue && b.mutex == a.mutex && b.paused == a.paused
       else
         && b.queue == a.queue[m := a.queue[m] + [t]] && b.mutex == a.mutex[t := m] && b.paused == a.paused[t := true]
         && b.owner == a.owner && b.held == a.held
  }

  /** What a step does. */
  ghost predicate Does(a: State, op: Op, b: State) {
    && Inv(a) && Inv(b)
    && match op
       case NewMutex(m) => b == if m in a.owner || m < 0 then a else WithMutex(a, m)
       case NewTask(t) => b == if 0 <= t && (t in a.mutex ==> Idle(a, t)) then WithTask(a, t) else a
       case Lock(m, t) => if Active(a, t) && m in a.owner then a.owner[m] != t && LockDone(a, b, m, t) else b == a
       case Unlock(m, t) => if Active(a, t) && m in a.owner && a.owner[m] == t then HandedOver(a, b, m, t) else b == a
       case Exit(t) => if t in a.mutex then Retired(a, b, t) else b == a
  }

  ghost predicate IsRun(trace: seq<State>, ops: seq<Op>) {
    |trace| == |ops| + 1 && Inv(trace[0]) && forall k | 0 <= k < |ops| :: Does(trace[k], ops[k], trace[k + 1])
  }

  lemma {:induction false} RunKeepsInv(trace: seq<State>, ops: seq<Op>, k: nat)
    requires IsRun(trace, ops) && k <= |ops|
    ensures Inv(trace[k])
  {
    hide Inv;
    if k > 0 {
      assert Does(trace[k - 1], ops[k - 1], trace[k - 1 + 1]);
    }
  }

  /** What the invariant says about the fields of one mutex. */
  lemma MutexParts(s: State, x: int, m: int)
    requires InvBut(s, x) && m in s.owner
    ensures m in s.waiters && m in s.tail && m in s.ownedNext && m in s.queue
    ensures Spells(s.nextWaiter, s.waiters[m], s.queue[m])
    ensures s.waiters[m] == First(s.queue[m]) && s.tail[m] == Last(s.queue[m])
    ensures (s.waiters[m] == NULL <==> s.queue[m] == []) && (s.tail[m] == NULL <==> s.queue[m] == [])
    ensures s.queue[m] != [] ==> (First(s.queue[m][1..]) == NULL <==> |s.queue[m]| == 1)
    ensures forall t | t in s.queue[m] :: t in s.nextWaiter && t in s.mutex && t in s.ownedHead && t in s.held && t in s.paused
  {
    hide HeldOk, WaitOk;
    var q := s.queue[m];
    assert QueueOk(s, m);
    assert q != [] ==> q[0] in q && Last(q) in q;
    assert |q| > 1 ==> q[1] in q;
  }

  lemma TaskParts(s: State, t: int)
    requires Inv(s) && t in s.mutex
    ensures t in s.nextWaiter && t in s.ownedHead && t in s.held && t in s.paused && 0 <= t
    ensures s.mutex[t] != NULL ==> s.mutex[t] in s.owner && s.mutex[t] in s.queue && t in s.queue[s.mutex[t]]
    ensures forall m | m in s.held[t] :: m in s.ownedNext && m in s.owner
  {
  }

  lemma NoQueueLeft(s: State, t: int)
    requires Inv(s) && t in s.mutex && s.mutex[t] == NULL
    ensures LeftQueue(s, s, t)
  {
  }

  lemma QueueLeft(s: State, t: int)
    requires Inv(s) && t in s.mutex && s.mutex[t] != NULL
    ensures s.mutex[t] in s.owner && t in s.queue[s.mutex[t]]
    ensures LeftQueue(s, Dequeued(s, s.mutex[t], IndexOf(s.queue[s.mutex[t]], t)), t)
  {
    hide Spells;
    assert WaitOk(s, t);
    var m := s.mutex[t];
    assert QueueOk(s, m);
    var i := IndexOf(s.queue[m], t);
    DequeuedKeepsInv(s, m, i, NULL);
    DequeuedQueue(s, m, i);
  }

  lemma GrantedMeaning(s: State, m: int, t: int)
    requires Inv(s) && m in s.owner && t in s.mutex && s.owner[m] == NULL
    ensures var r := Granted(s, m, t); Inv(r) && LockDone(s, r, m, t)
  {
    hide Spells, QueueOk, HeldOk, WaitOk, OwnerOk;
    assert Led(s, m);
    GrantedKeepsInv(s, m, t);
  }

  lemma QueuedMeaning(s: State, m: int, t: int)
    requires Inv(s) && m in s.owner && t in s.mutex && s.mutex[t] == NULL && s.owner[m] != NULL && s.owner[m] != t
    ensures var r := Queued(s, m, t); Inv(r) && LockDone(s, r, m, t)
  {
    hide Spells, QueueOk, HeldOk, WaitOk, OwnerOk;
    QueuedKeepsInv(s, m, t);
  }

  lemma SameIndex(s: seq<int>, x: int, i: nat)
    requires i < |s| && s[i] == x && x !in s[..i]
    ensures x in s && i == IndexOf(s, x)
  {
  }

  lemma LastIs(s: State, m: int, i: nat)
    requires Inv(s) && m in s.owner && i < |s.queue[m]|
    ensures s.tail[m] == s.queue[m][i] <==> i == |s.queue[m]| - 1
  {
  }

  ghost predicate LeftQueue(s: State, r: State, t: int) {
    && Inv(s) && Inv(r) && SameKeys(s, r) && t in s.mutex
    && r.owner == s.owner && r.held == s.held && r.mutex == s.mutex[t := NULL] && r.paused == s.paused
    && (forall m | m in r.owner :: t !in r.queue[m])
    && (forall m | m in s.owner && m != s.mutex[t] :: r.queue[m] == s.queue[m])
    && (s.mutex[t] != NULL ==>
          && s.mutex[t] in s.owner && t in s.queue[s.mutex[t]]
          && r.queue[s.mutex[t]] == Without(s.queue[s.mutex[t]], IndexOf(s.queue[s.mutex[t]], t)))
  }

  /** Task `u` has waited longest for one of the mutexes `ms`. */
  ghost predicate NextFor(s: State, ms: seq<int>, u: int)
    requires SameKeys(s, s) && u in s.mutex
  {
    s.mutex[u] in ms && s.mutex[u] in s.queue && First(s.queue[s.mutex[u]]) == u
  }

  /** If `u` has waited longest for one of `ms` it gets it and runs again; if not, it holds, waits for and is paused as
      before. */
  ghost predicate Treated(s: State, r: State, ms: seq<int>, u: int)
    requires SameKeys(s, r) && u in s.mutex
  {
    if NextFor(s, ms, u) then r.mutex[u] == NULL && !r.paused[u] && r.held[u] == [s.mutex[u]] + s.held[u]
    else r.mutex[u] == s.mutex[u] && r.paused[u] == s.paused[u] && r.held[u] == s.held[u]
  }

  ghost predicate Inherited(s: State, r: State, t: int, ms: seq<int>)
    requires SameKeys(s, r)
  {
    forall u | u in s.mutex && u != t :: Treated(s, r, ms, u)
  }

  /** `done` of the mutexes `t` held in `s` have been handed over. */
  ghost predicate Releasing(s: State, v: State, t: int, done: seq<int>) {
    && Inv(s) && Inv(v) && SameKeys(s, v) && t in s.mutex && v.mutex[t] == NULL
    && s.held[t] == done + v.held[t] && Inherited(s, v, t, done) && v.paused[t] == s.paused[t]
    && (forall m | m in s.owner :: t !in v.queue[m])
    && (forall m | m in s.owner ::
          if m in done then v.owner[m] == First(s.queue[m]) && v.queue[m] == Rest(s.queue[m])
          else v.owner[m] == s.owner[m] && v.queue[m] == s.queue[m])
  }

  lemma ReleasingStart(s0: State, s: State, t: int)
    requires LeftQueue(s0, s, t)
    ensures Releasing(s, s, t, []) && t in s.ownedHead && t in s.held
  {
  }

  lemma ReleasingHead(s: State, v: State, t: int, done: seq<int>)
    requires Releasing(s, v, t, done) && v.ownedHead[t] != NULL
    ensures v.held[t] != [] && v.ownedHead[t] == v.held[t][0] && v.held[t][0] in v.owner && v.owner[v.held[t][0]] == t
    ensures v.held[t][0] !in done && Inv(v) && t in v.mutex
  {
  }

  lemma HandedOverKeys(s: State, r: State, m: int, t: int)
    requires HandedOver(s, r, m, t)
    ensures t in r.ownedHead && t in r.held && Inv(r) && SameKeys(s, r)
  {
  }

  lemma WaitsFor(s: State, m: int, u: int)
    requires Inv(s) && m in s.owner
    ensures m in s.queue && (First(s.queue[m]) == u && u in s.mutex ==> s.mutex[u] == m)
    ensures First(s.queue[m]) != NULL ==> First(s.queue[m]) in s.mutex
  {
    assert QueueOk(s, m);
    TypedParts(s, m);
    hide Spells;
    assert forall x | x in s.queue[m] :: 0 <= x;
  }

  lemma TreatedStep(s: State, v: State, r: State, t: int, done: seq<int>, m: int, u: int)
    requires SameKeys(s, v) && u in s.mutex && u != t && Treated(s, v, done, u) && HandedOver(v, r, m, t)
    requires m !in done && m in s.queue && m in v.queue && v.queue[m] == s.queue[m]
    requires First(s.queue[m]) == u ==> s.mutex[u] == m
    ensures SameKeys(s, r) && Treated(s, r, done + [m], u)
  {
    hide Inv, IndexOf, Without, Rest;
  }

  lemma InheritStep(s: State, v: State, r: State, t: int, done: seq<int>, m: int)
    requires Inv(s) && SameKeys(s, v) && Inherited(s, v, t, done) && HandedOver(v, r, m, t)
    requires m in s.owner && m in s.queue && m in v.queue && m !in done && v.queue[m] == s.queue[m]
    ensures SameKeys(s, r) && Inherited(s, r, t, done + [m])
  {
    hide Inv, Treated;
    HandedOverKeys(v, r, m, t);
    forall u | u in s.mutex && u != t ensures Treated(s, r, done + [m], u) {
      WaitsFor(s, m, u);
      TreatedStep(s, v, r, t, done, m, u);
    }
  }

  lemma ReleasingStep(s: State, v: State, r: State, t: int, done: seq<int>)
    requires Releasing(s, v, t, done) && v.held[t] != [] && v.held[t][0] !in done && HandedOver(v, r, v.held[t][0], t)
    ensures Releasing(s, r, t, done + [v.held[t][0]]) && |r.held[t]| < |v.held[t]|
  {
    hide Spells, Inv, InvBut;
    var m := v.held[t][0];
    assert IndexOf(v.held[t], m) == 0;
    assert Without(v.held[t], 0) == v.held[t][1..];
    assert done + v.held[t] == done + [m] + v.held[t][1..];
    InheritStep(s, v, r, t, done, m);
  }

  /** After the clean-up. */
  ghost predicate Retired(s: State, r: State, t: int) {
    && Inv(s) && Inv(r) && SameKeys(s, r) && t in s.mutex
    && r.held[t] == [] && r.mutex[t] == NULL && r.paused[t] == s.paused[t] && Inherited(s, r, t, s.held[t])
    && (forall m | m in r.owner :: t !in r.queue[m] && r.owner[m] != t)
    && (forall m | m in s.owner :: Bequeathed(s, r, t, m))
  }

  /** A mutex that `t` held has gone to its first waiter; any other has its owner, and its queue but for `t`. */
  ghost predicate Bequeathed(s: State, r: State, t: int, m: int)
    requires SameKeys(s, r) && m in s.owner && t in s.mutex
  {
    if m in s.held[t] then r.owner[m] == First(s.queue[m]) && r.queue[m] == Rest(s.queue[m])
    else
      && r.owner[m] == s.owner[m]
      && r.queue[m] == if t in s.queue[m] then Without(s.queue[m], IndexOf(s.queue[m], t)) else s.queue[m]
  }

  lemma SameTreated(s0: State, s: State, r: State, t: int, u: int)
    requires LeftQueue(s0, s, t) && SameKeys(s, r) && u in s.mutex && u != t && t in s.held && Treated(s, r, s.held[t], u)
    requires forall m | m in s0.held[t] :: m in s0.owner && m != s0.mutex[t]
    ensures SameKeys(s0, r) && Treated(s0, r, s0.held[t], u)
  {
    hide Inv, Spells, IndexOf, Without, First;
    SameKeysParts(s0, s);
    var m := s0.mutex[u];
    assert s.mutex[u] == m;
    assert m in s0.held[t] ==> s.queue[m] == s0.queue[m];
    assert NextFor(s0, s0.held[t], u) <==> NextFor(s, s.held[t], u);
  }

  /** What has become of mutex `m`. */
  lemma MutexReleased(s0: State, s: State, r: State, t: int, m: int)
    requires LeftQueue(s0, s, t) && Releasing(s, r, t, s.held[t]) && m in s0.owner && m in s0.queue && m in s.queue && m in r.queue && t in s0.held
    requires (t in s0.queue[m] <==> m == s0.mutex[t]) && (m == s0.mutex[t] ==> m !in s0.held[t])
    ensures SameKeys(s0, r) && Bequeathed(s0, r, t, m)
  {
    hide Inv, Spells, IndexOf, Without, Treated, NextFor, Inherited;
  }

  /** What has become of the ended task itself. */
  lemma EndedReleased(s0: State, s: State, r: State, t: int, done: seq<int>)
    requires LeftQueue(s0, s, t) && Releasing(s, r, t, done) && t in r.ownedHead && r.ownedHead[t] == NULL
    ensures Inv(s0) && Inv(r) && SameKeys(s0, r) && SameKeys(s0, s) && SameKeys(s, r) && t in s0.mutex
    ensures t in s0.held && t in s.held && s.held[t] == s0.held[t] == done && Inherited(s, r, t, done)
    ensures r.held[t] == [] && r.mutex[t] == NULL && r.paused[t] == s0.paused[t]
    ensures forall m | m in r.owner :: t !in r.queue[m] && r.owner[m] != t
  {
    hide InvBut, Spells, IndexOf, Without, First, Rest, Inherited;
    SameKeysParts(s0, s);
    SameKeysParts(s, r);
    NothingHeld(r, t);
  }

  lemma AllReleased(s0: State, s: State, r: State, t: int, done: seq<int>)
    requires LeftQueue(s0, s, t) && Releasing(s, r, t, done) && t in r.ownedHead && r.ownedHead[t] == NULL
    ensures Retired(s0, r, t)
  {
    hide Inv, Typed, SameKeys, Spells, IndexOf, Without, First, Rest, Treated, NextFor, LeftQueue, Releasing, Bequeathed;
    EndedReleased(s0, s, r, t, done);
    SameKeysParts(s0, s);
    SameKeysParts(s, r);
    QueuedOnce(s0, t);
    HeldExist(s0, t);
    forall m | m in s0.owner ensures Bequeathed(s0, r, t, m) {
      MutexReleased(s0, s, r, t, m);
    }
    forall u | u in s0.mutex && u != t ensures Treated(s0, r, s0.held[t], u) {
      SameTreated(s0, s, r, t, u);
    }
  }

  lemma HeldExist(s: State, t: int)
    requires Inv(s) && t in s.mutex
    ensures t in s.held && forall m | m in s.held[t] :: m in s.owner
  {
    assert HeldOk(s, t);
  }

  lemma NothingHeld(r: State, t: int)
    requires Inv(r) && t in r.mutex && r.ownedHead[t] == NULL
    ensures r.held[t] == [] && forall m | m in r.owner :: r.owner[m] != t
  {
  }

  lemma QueuedOnce(s: State, t: int)
    requires Inv(s) && t in s.mutex
    ensures forall m | m in s.owner :: (t in s.queue[m] <==> m == s.mutex[t]) && (m == s.mutex[t] ==> m !in s.held[t])
  {
  }

  // ---------------------------------------------------------------- first in, first out

  ghost predicate Ahead(q: seq<int>, t: int, u: int) {
    exists i, j | 0 <= i < j < |q| :: q[i] == t && q[j] == u
  }

  lemma AheadAt(q: seq<int>, q': seq<int>, t: int, u: int, i: int, j: int, i': int, j': int)
    requires 0 <= i < j < |q| && q[i] == t && q[j] == u && 0 <= i' < j' < |q'| && q'[i'] == t && q'[j'] == u
    ensures Ahead(q', t, u)
  {
  }

  /** A release never lets a later task past an earlier one. */
  lemma NoBargingOnRelease(s: State, r: State, m: int, x: int, t: int, u: int)
    requires HandedOver(s, r, m, x) && Ahead(s.queue[m], t, u)
    ensures r.owner[m] != u && (r.owner[m] == t || Ahead(r.queue[m], t, u))
  {
    hide Inv, Spells, First, Rest, IndexOf, Without, Distinct;
    QueueFacts(s, m);
    AheadOfRest(s.queue[m], t, u);
  }

  /** Neither does the end of a third task, nor a newcomer. */
  lemma NoBargingOnExit(s: State, r: State, m: int, x: int, t: int, u: int)
    requires Retired(s, r, x) && m in s.owner && Ahead(s.queue[m], t, u) && x != t && x != u
    ensures r.owner[m] != u && (r.owner[m] == t || Ahead(r.queue[m], t, u))
  {
    hide Inv, Spells, First, Rest, IndexOf, Without, Distinct;
    var q := s.queue[m];
    QueueFacts(s, m);
    assert u in q;
    if m in s.held[x] {
      AheadOfRest(q, t, u);
    } else if x in q {
      AheadWithout(q, x, t, u);
    }
  }

  lemma QueueFacts(s: State, m: int)
    requires Inv(s) && m in s.owner
    ensures m in s.queue && Distinct(s.queue[m]) && s.owner[m] !in s.queue[m]
  {
  }

  lemma AheadOfRest(q: seq<int>, t: int, u: int)
    requires Distinct(q) && Ahead(q, t, u)
    ensures u in q && First(q) != u && (First(q) == t || Ahead(Rest(q), t, u))
  {
  }

  lemma AheadWithout(q: seq<int>, x: int, t: int, u: int)
    requires Distinct(q) && Ahead(q, t, u) && x in q && x != t && x != u
    ensures Ahead(Without(q, IndexOf(q, x)), t, u)
  {
    var i, j :| 0 <= i < j < |q| && q[i] == t && q[j] == u;
    var k := IndexOf(q, x);
    AheadAt(q, Without(q, k), t, u, i, j, if i < k then i else i - 1, if j < k then j else j - 1);
  }

  lemma AheadAppend(q: seq<int>, t: int, u: int, x: int)
    requires Ahead(q, t, u)
    ensures Ahead(q + [x], t, u)
  {
    var i, j :| 0 <= i < j < |q| && q[i] == t && q[j] == u;
    AheadAt(q, q + [x], t, u, i, j, i, j);
  }

  lemma LockIsFair(a: State, k: int, x: int, b: State, m: int, t: int, u: int)
    requires Inv(a) && LockDone(a, b, k, x) && m in a.owner && Ahead(a.queue[m], t, u)
    ensures m in b.owner && b.owner[m] != u && (b.owner[m] == t || Ahead(b.queue[m], t, u))
  {
    hide Inv, Spells, First, Rest, IndexOf, Without, Distinct;
    QueueFacts(a, m);
    assert u in a.queue[m];
    if k == m {
      QueueLed(a, m);
      AheadAppend(a.queue[m], t, u, x);
    }
  }

  lemma UnlockIsFair(a: State, k: int, x: int, b: State, m: int, t: int, u: int)
    requires HandedOver(a, b, k, x) && m in a.owner && Ahead(a.queue[m], t, u)
    ensures m in b.owner && b.owner[m] != u && (b.owner[m] == t || Ahead(b.queue[m], t, u))
  {
    hide Inv, Spells, First, Rest, IndexOf, Without, Distinct;
    QueueFacts(a, m);
    assert u in a.queue[m];
    if k == m {
      NoBargingOnRelease(a, b, m, x, t, u);
    }
  }

  lemma ExitIsFair(a: State, x: int, b: State, m: int, t: int, u: int)
    requires Retired(a, b, x) && m in a.owner && Ahead(a.queue[m], t, u) && x != t && x != u
    ensures m in b.owner && b.owner[m] != u && (b.owner[m] == t || Ahead(b.queue[m], t, u))
  {
    NoBargingOnExit(a, b, m, x, t, u);
    hide Inv, Inherited, Ahead;
  }

  lemma NotYet(s: State, m: int, t: int, u: int)
    requires Inv(s) && m in s.owner && Ahead(s.queue[m], t, u)
    ensures s.owner[m] != u
  {
    QueueFacts(s, m);
  }

  lemma StepIsFair(a: State, op: Op, b: State, m: int, t: int, u: int)
    requires Does(a, op, b) && m in a.owner && Ahead(a.queue[m], t, u) && op != Exit(t) && op != Exit(u)
    ensures m in b.owner && b.owner[m] != u && (b.owner[m] == t || Ahead(b.queue[m], t, u))
  {
    hide Inv, LockDone, HandedOver, Retired, Ahead;
    NotYet(a, m, t, u);
    match op
    case NewMutex(_) =>
    case NewTask(_) =>
    case Lock(k, x) =>
      if b != a {
        LockIsFair(a, k, x, b, m, t, u);
      }
    case Unlock(k, x) =>
      if b != a {
        UnlockIsFair(a, k, x, b, m, t, u);
      }
    case Exit(x) =>
      if b != a {
        ExitIsFair(a, x, b, m, t, u);
      }
  }

  lemma QueueLed(s: State, m: int)
    requires Inv(s) && m in s.owner && s.queue[m] != []
    ensures s.owner[m] != NULL
  {
    assert Led(s, m);
  }

  /** First in, first out over whole runs: while two tasks that wait for a mutex live, the later one does not get it
      before the earlier one has had it, whatever all other tasks do. */
  lemma {:induction false} FirstInFirstOut(trace: seq<State>, ops: seq<Op>, m: int, t: int, u: int, i: nat, j: nat)
    requires IsRun(trace, ops) && i <= j <= |ops| && forall k | i <= k < j :: ops[k] != Exit(t) && ops[k] != Exit(u)
    requires m in trace[i].owner && Inv(trace[i]) && Ahead(trace[i].queue[m], t, u)
    requires forall k | i < k <= j && m in trace[k].owner :: trace[k].owner[m] != t
    ensures Inv(trace[j]) && m in trace[j].owner && trace[j].owner[m] != u && Ahead(trace[j].queue[m], t, u)
    decreases j - i
  {
    hide Inv, Does;
    if i == j {
      QueueFacts(trace[i], m);
    } else {
      FirstInFirstOut(trace, ops, m, t, u, i, j - 1);
      assert Does(trace[j - 1], ops[j - 1], trace[j - 1 + 1]);
      StepIsFair(trace[j - 1], ops[j - 1], trace[j], m, t, u);
      RunKeepsInv(trace, ops, j);
    }
  }

  // ---------------------------------------------------------------- nobody sleeps for nothing

  /** Task `t` is paused exactly while it waits for a mutex. */
  ghost predicate Attentive(s: State, t: int) {
    t in s.mutex && t in s.paused && (s.paused[t] <==> s.mutex[t] != NULL)
  }

  lemma WaitersPaused(s: State, t: int)
    requires Inv(s) && t in s.mutex
    ensures t in s.paused && (s.mutex[t] != NULL ==> s.paused[t])
  {
    assert WaitOk(s, t);
    assert s.mutex[t] != NULL ==> QueueOk(s, s.mutex[t]);
  }

  /** No step pauses a task that does not wait: a claim does not, and a hand-over, also by the end of an owner, wakes
      the new owner. */
  lemma StepKeepsAttentive(a: State, op: Op, b: State, t: int)
    requires Does(a, op, b) && Attentive(a, t) && op != Exit(t)
    ensures Attentive(b, t)
  {
    WaitersPaused(a, t);
    hide Inv, Spells, IndexOf, Without, Rest, Retired, HandedOver, LockDone;
    match op
    case NewMutex(_) =>
    case NewTask(_) =>
    case Lock(m, u) =>
      if b != a {
        LockKeepsAttentive(a, b, m, u, t);
      }
    case Unlock(m, u) =>
      if b != a {
        UnlockKeepsAttentive(a, b, m, u, t);
      }
    case Exit(u) =>
      if u in a.mutex {
        ExitKeepsAttentive(a, b, u, t);
      }
  }

  lemma LockKeepsAttentive(a: State, b: State, m: int, u: int, t: int)
    requires Inv(a) && LockDone(a, b, m, u) && Attentive(a, t)
    ensures Attentive(b, t)
  {
    WaitersPaused(a, t);
    assert 0 <= m by { assert Typed(a); }
    hide Inv;
  }

  lemma UnlockKeepsAttentive(a: State, b: State, m: int, u: int, t: int)
    requires HandedOver(a, b, m, u) && Attentive(a, t)
    ensures Attentive(b, t)
  {
    hide Inv, Spells, IndexOf, Without, Rest;
  }

  lemma ExitKeepsAttentive(a: State, b: State, u: int, t: int)
    requires Retired(a, b, u) && Attentive(a, t) && t != u
    ensures Attentive(b, t)
  {
    hide Inv, Spells, IndexOf, Without, Rest;
    assert Treated(a, b, a.held[u], t);
  }

  /** A task starts out attentive and is so in every later state of a run until it ends: whatever the others lock,
      unlock or leave behind, one that waits for nothing can run. */
  lemma {:induction false} NobodySleepsForNothing(trace: seq<State>, ops: seq<Op>, t: int, i: nat, j: nat)
    requires IsRun(trace, ops) && i < j <= |ops| && forall k | i <= k < j :: ops[k] != Exit(t)
    requires (ops[i] == NewTask(t) && t !in trace[i].mutex && 0 <= t) || Attentive(trace[i], t)
    ensures Attentive(trace[j], t)
    decreases j - i
  {
    hide Inv, Attentive, Does;
    assert Does(trace[j - 1], ops[j - 1], trace[j - 1 + 1]);
    if i + 1 < j {
      NobodySleepsForNothing(trace, ops, t, i, j - 1);
      StepKeepsAttentive(trace[j - 1], ops[j - 1], trace[j], t);
    } else if Attentive(trace[i], t) {
      StepKeepsAttentive(trace[i], ops[i], trace[j], t);
    } else {
      TaskStarts(trace[i], t, trace[j]);
    }
  }

  lemma TaskStarts(a: State, t: int, b: State)
    requires Does(a, NewTask(t), b) && t !in a.mutex && 0 <= t
    ensures Attentive(b, t)
  {
  }
}
