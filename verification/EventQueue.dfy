/** The kernel's generic ring buffer (`kqueue.h`), whose indices wrap at twice its capacity. */
module KernelQueue {
  import opened Ring

  class KQueue<T> {
    const buffer: array<T>
    var head: nat
    var tail: nat

    ghost predicate Valid()
      reads this, buffer
    {
      && buffer.Length > 0 && head < 2 * buffer.Length && tail < 2 * buffer.Length && Count() <= buffer.Length
    }

    function Count(): (n: int)
      reads this
    {
      var n := tail - head;
      if n < 0 then n + 2 * buffer.Length else n
    }

    function Place(i: nat): (k: nat)
      requires i < 2 * buffer.Length
      ensures k < buffer.Length
      reads this
    {
      if i >= buffer.Length then i - buffer.Length else i
    }

    function Advance(i: nat): (k: nat) {
      if i + 1 >= 2 * buffer.Length then 0 else i + 1
    }

    /** What the queue holds, oldest first. */
    ghost function Contents(): (q: seq<T>)
      requires Valid()
      reads this, buffer
      ensures |q| == Count()
    {
      Window(buffer[..], Place(head), Count())
    }

    constructor (storage: array<T>)
      requires storage.Length > 0
      ensures Valid() && Contents() == [] && buffer == storage
    {
      buffer := storage;
      head, tail := 0, 0;
    }

    /** `kqueue_push` (and `kqueue_reserve`): refused exactly when the queue is full. */
    method Push(x: T) returns (ok: bool)
      requires Valid()
      modifies this, buffer
      ensures Valid() && (ok <==> old(|Contents()|) < buffer.Length)
      ensures Contents() == if ok then old(Contents()) + [x] else old(Contents())
    {
      ok := Count() != buffer.Length;
      if ok {
        ghost var was := buffer[..];
        ghost var n := Count();
        WindowPush(was, Place(head), n, x);
        var i := Place(tail);
        assert i == Slot(Place(head), n, buffer.Length);
        tail := Advance(tail);
        buffer[i] := x;
        assert buffer[..] == was[i := x] && Count() == n + 1;
      }
    }

    /** `kqueue_drop` after `kqueue_peek`, that is `kqueue_pop`. */
    method Pop() returns (ok: bool, x: T)
      requires Valid()
      modifies this
      ensures Valid() && (ok <==> old(Contents()) != [])
      ensures if ok then old(Contents()) == [x] + Contents() else Contents() == []
    {
      x := buffer[Place(head)];
      ok := tail != head;
      if ok {
        WindowPop(buffer[..], Place(head), Count());
        ghost var h, n := Place(head), Count();
        head := Advance(head);
        assert Place(head) == Slot(h, 1, buffer.Length) && Count() == n - 1;
      }
    }

    /** The buffer index behind `kqueue_at`; with the last position, behind `kqueue_last`. */
    function Where(n: nat): (k: nat)
      requires Valid() && n < Count()
      reads this, buffer
      ensures k < buffer.Length && buffer[k] == Contents()[n]
    {
      var i := head + n;
      Place(if i >= 2 * buffer.Length then i - 2 * buffer.Length else i)
    }

    /** An element changed through the pointer that `kqueue_at` or `kqueue_last` returned. */
    method Update(n: nat, x: T)
      requires Valid() && n < Count()
      modifies buffer
      ensures Valid() && Contents() == old(Contents())[n := x]
    {
      ghost var was := buffer[..];
      var k := Where(n);
      assert k == Slot(Place(head), n, buffer.Length);
      buffer[k] := x;
      assert buffer[..] == was[k := x];
      WindowUpdate(was, Place(head), Count(), n, x);
    }
  }

  lemma WindowUpdate<T>(buf: seq<T>, h: nat, n: nat, k: nat, x: T)
    requires h < |buf| && n <= |buf| && k < n
    ensures Window(buf[Slot(h, k, |buf|) := x], h, n) == Window(buf, h, n)[k := x]
  {
  }
}

/** Callback events of a task (`task_queue_subroutine` in `tasks.c`) and the message notifications that wait for room
    among them (`msg.c`). */
module Events {
  import opened Machine
  import opened KernelQueue

  datatype Kind = Msg | Scroll | Hover | Dragged | Other(code: int)

  /** The flag word of a message event is kept as the set of its bits, apart from the other arguments. */
  datatype Event = Event(kind: Kind, addr: int, args: seq<int>, flags: set<nat>)

  predicate Motion(k: Kind) { k == Scroll || k == Hover || k == Dragged }

  /** What every caller passes for the kinds that are coalesced: port, channel and flags, or three arguments. */
  predicate WellFormed(e: Event) {
    |e.args| <= 4 && (Motion(e.kind) ==> |e.args| == 3) && (e.kind == Msg ==> |e.args| == 2)
  }

  ghost predicate AllFormed(q: seq<Event>) {
    forall i | 0 <= i < |q| :: WellFormed(q[i])
  }

  predicate SameMsg(a: Event, b: Event)
    requires WellFormed(a) && WellFormed(b)
  {
    a.kind == Msg == b.kind && a.addr == b.addr && a.args[0] == b.args[0] && a.args[1] == b.args[1]
  }

  predicate SameTarget(a: Event, b: Event)
    requires WellFormed(a) && WellFormed(b)
  {
    a.kind == b.kind && Motion(a.kind) && a.addr == b.addr && a.args[2] == b.args[2]
  }

  function OrFlags(a: Event, b: Event): (r: Event)
    requires WellFormed(a) && WellFormed(b) && a.kind == Msg == b.kind
    ensures WellFormed(r)
  {
    a.(flags := a.flags + b.flags)
  }

  function Replace(a: Event, b: Event): (r: Event)
    requires WellFormed(a) && WellFormed(b) && SameTarget(a, b)
    ensures WellFormed(r)
  {
    if a.kind == Scroll then a.(args := [(a.args[0] + b.args[0]) % TWO32, b.args[1], b.args[2]]) else a.(args := b.args)
  }

  function FirstSame(q: seq<Event>, e: Event, k: nat): (i: nat)
    requires k <= |q| && WellFormed(e) && AllFormed(q)
    ensures k <= i <= |q| && (i < |q| ==> SameMsg(q[i], e)) && forall j | k <= j < i :: !SameMsg(q[j], e)
    decreases |q| - k
  {
    if k == |q| || SameMsg(q[k], e) then k else FirstSame(q, e, k + 1)
  }

  lemma SameStep(q: seq<Event>, e: Event, i: nat)
    requires AllFormed(q) && WellFormed(e) && i < |q|
    ensures FirstSame(q, e, i) == if SameMsg(q[i], e) then i else FirstSame(q, e, i + 1)
  {
  }

  /** The queue after an event arrives, and whether it was taken. */
  function Enqueued(q: seq<Event>, cap: nat, e: Event): (r: (seq<Event>, bool))
    requires AllFormed(q) && WellFormed(e)
    ensures AllFormed(r.0) && (|q| <= cap ==> |r.0| <= cap) && (!r.1 ==> r.0 == q && |q| >= cap)
  {
    if Motion(e.kind) && q != [] && SameTarget(q[|q| - 1], e) then (q[|q| - 1 := Replace(q[|q| - 1], e)], true)
    else if e.kind == Msg && FirstSame(q, e, 0) < |q| then
      var k := FirstSame(q, e, 0);
      (q[k := OrFlags(q[k], e)], true)
    else if |q| < cap then (q + [e], true)
    else (q, false)
  }

  /** Two events for the same callback about the same window, the latter of which replaces or adds to the former. */
  ghost predicate Merges(last: Event, e: Event)
    requires WellFormed(last) && WellFormed(e)
  {
    && (e.kind == Scroll || e.kind == Hover || e.kind == Dragged)
    && last.kind == e.kind && last.addr == e.addr && last.args[2] == e.args[2]
  }

  /** Two message events for the same callback, port and channel. */
  ghost predicate SameChannel(a: Event, e: Event)
    requires WellFormed(a) && WellFormed(e)
  {
    e.kind == Msg && a.kind == Msg && a.addr == e.addr && a.args == e.args
  }

  /** What becomes of an event: motion about the window of the last event leaves the latest position there, with scroll
      deltas added up; flags for a channel join its first event; anything else goes to the end while there is room. */
  lemma EnqueuedMeaning(q: seq<Event>, cap: nat, e: Event)
    requires AllFormed(q) && WellFormed(e)
    ensures var (r, ok) := Enqueued(q, cap, e);
      var n := |q| - 1;
      if q != [] && Merges(q[n], e) then
        ok && |r| == |q| && r[..n] == q[..n]
        && r[n] == q[n].(args := [if e.kind == Scroll then (q[n].args[0] + e.args[0]) % TWO32 else e.args[0], e.args[1], e.args[2]])
      else if exists i | 0 <= i < |q| :: SameChannel(q[i], e) then
        ok && exists i | 0 <= i < |q| :: SameChannel(q[i], e) && (forall j | 0 <= j < i :: !SameChannel(q[j], e))
                                         && r == q[i := q[i].(flags := q[i].flags + e.flags)]
      else ok == (|q| < cap) && r == if ok then q + [e] else q
  {
    if (exists i | 0 <= i < |q| :: SameChannel(q[i], e)) && !(q != [] && Merges(q[|q| - 1], e)) {
      var i :| 0 <= i < |q| && SameChannel(q[i], e);
      assert SameMsg(q[i], e);
      var k := FirstSame(q, e, 0);
      assert SameChannel(q[k], e);
      forall j | 0 <= j < k ensures !SameChannel(q[j], e) {
        assert !SameMsg(q[j], e);
      }
    } else if e.kind == Msg {
      forall i | 0 <= i < |q| ensures !SameMsg(q[i], e) {
        assert !SameChannel(q[i], e);
      }
    }
  }

  /** `task_queue_subroutine` for an enabled task */
  method QueueSubroutine(queue: KQueue<Event>, e: Event) returns (ok: bool)
    requires queue.Valid() && AllFormed(queue.Contents()) && WellFormed(e)
    modifies queue, queue.buffer
    ensures queue.Valid() && (queue.Contents(), ok) == Enqueued(old(queue.Contents()), queue.buffer.Length, e)
  {
    hide Replace, OrFlags, FirstSame, KQueue.Contents, KQueue.Where;
    ghost var q := queue.Contents();
    if Motion(e.kind) {
      if queue.tail != queue.head {
        var last := queue.buffer[queue.Where(queue.Count() - 1)];
        if last.addr == e.addr && last.kind == e.kind && last.args[2] == e.args[2] {
          queue.Update(queue.Count() - 1, Replace(last, e));
          return true;
        }
      }
    } else if e.kind == Msg {
      var i: nat := 0;
      while i < queue.Count()
        invariant queue.Valid() && queue.Contents() == q && i <= |q| && FirstSame(q, e, 0) == FirstSame(q, e, i)
      {
        var x := queue.buffer[queue.Where(i)];
        SameStep(q, e, i);
        if x.addr == e.addr && x.kind == e.kind && x.args[0] == e.args[0] && x.args[1] == e.args[1] {
          queue.Update(i, OrFlags(x, e));
          return true;
        }
        i := i + 1;
      }
    }
    ok := queue.Push(e);
  }

  // ---------------------------------------------------------------- what coalescing keeps

  /** At most one event for each callback, port and channel. */
  ghost predicate OneEach(q: seq<Event>)
    requires AllFormed(q)
  {
    forall i, j | 0 <= i < j < |q| :: !SameMsg(q[i], q[j])
  }

  lemma EnqueuedKeepsOneEach(q: seq<Event>, cap: nat, e: Event)
    requires AllFormed(q) && WellFormed(e) && OneEach(q)
    ensures OneEach(Enqueued(q, cap, e).0)
  {
  }

  /** All flags queued for a callback, port and channel. */
  ghost function Flags(q: seq<Event>, key: Event): (f: set<nat>)
    requires AllFormed(q) && WellFormed(key)
  {
    if q == [] then {} else Flags(q[..|q| - 1], key) + (if SameMsg(q[|q| - 1], key) then q[|q| - 1].flags else {})
  }

  /** Everything scrolled in one window and not yet delivered, as a 32-bit sum. */
  ghost function Scrolled(q: seq<Event>, key: Event): (d: int)
    requires AllFormed(q) && WellFormed(key)
    ensures 0 <= d < TWO32
  {
    if q == [] then 0
    else if key.kind == Scroll && SameTarget(q[|q| - 1], key) then (Scrolled(q[..|q| - 1], key) + q[|q| - 1].args[0]) % TWO32
    else Scrolled(q[..|q| - 1], key)
  }

  lemma SumMod(x: int, a: int, b: int)
    ensures (x + (a + b) % TWO32) % TWO32 == ((x + a) % TWO32 + b) % TWO32
  {
  }

  /** The events that are never coalesced. */
  ghost function Others(q: seq<Event>): (r: seq<Event>) {
    if q == [] then []
    else Others(q[..|q| - 1]) + (if q[|q| - 1].kind.Other? then [q[|q| - 1]] else [])
  }

  lemma {:induction false} FlagsUpdate(q: seq<Event>, k: nat, e: Event, key: Event)
    requires AllFormed(q) && WellFormed(key) && WellFormed(e) && k < |q| && SameMsg(q[k], e)
    ensures var r := q[k := OrFlags(q[k], e)]; AllFormed(r) && Flags(r, key) == Flags(q, key) + (if SameMsg(e, key) then e.flags else {})
  {
    var r := q[k := OrFlags(q[k], e)];
    var n := |q| - 1;
    if k == n {
      assert r[..n] == q[..n];
    } else {
      assert r[..n] == q[..n][k := OrFlags(q[k], e)];
      FlagsUpdate(q[..n], k, e, key);
    }
  }

  lemma FlagsPush(q: seq<Event>, e: Event, key: Event)
    requires AllFormed(q) && WellFormed(key) && WellFormed(e)
    ensures AllFormed(q + [e]) && Flags(q + [e], key) == Flags(q, key) + (if SameMsg(e, key) then e.flags else {})
  {
  }

  /** No flag is lost, and none appears elsewhere. */
  lemma FlagsKept(q: seq<Event>, cap: nat, e: Event, key: Event)
    requires AllFormed(q) && WellFormed(key) && WellFormed(e)
    ensures var r := Enqueued(q, cap, e);
      Flags(r.0, key) == Flags(q, key) + (if r.1 && SameMsg(e, key) then e.flags else {})
  {
    hide Flags, FirstSame;
    var n := |q| - 1;
    if Motion(e.kind) && q != [] && SameTarget(q[n], e) {
      FlagsPush(q[..n], q[n], key);
      FlagsPush(q[..n], Replace(q[n], e), key);
      assert q == q[..n] + [q[n]] && q[n := Replace(q[n], e)] == q[..n] + [Replace(q[n], e)];
    } else if e.kind == Msg && FirstSame(q, e, 0) < |q| {
      FlagsUpdate(q, FirstSame(q, e, 0), e, key);
    } else if |q| < cap {
      FlagsPush(q, e, key);
    }
  }

  lemma {:induction false} UpdateOthers(q: seq<Event>, k: nat, e: Event, key: Event)
    requires AllFormed(q) && WellFormed(e) && WellFormed(key) && k < |q| && q[k].kind == Msg == e.kind
    ensures var r := q[k := e]; AllFormed(r) && Others(r) == Others(q) && Scrolled(r, key) == Scrolled(q, key)
  {
    var n := |q| - 1;
    if k == n {
      assert q[k := e][..n] == q[..n];
    } else {
      assert q[k := e][..n] == q[..n][k := e];
      UpdateOthers(q[..n], k, e, key);
    }
  }

  lemma Push(q: seq<Event>, e: Event, key: Event)
    requires AllFormed(q) && WellFormed(key) && WellFormed(e)
    ensures AllFormed(q + [e])
    ensures Scrolled(q + [e], key) == (if key.kind == Scroll && SameTarget(e, key) then (Scrolled(q, key) + e.args[0]) % TWO32 else Scrolled(q, key))
    ensures Others(q + [e]) == Others(q) + (if e.kind.Other? then [e] else [])
  {
    assert (q + [e])[..|q|] == q;
  }

  /** Scroll deltas add up modulo 2^32, whether or not events were merged; all other events keep their order. */
  lemma ScrollAndOrderKept(q: seq<Event>, cap: nat, e: Event, key: Event)
    requires AllFormed(q) && WellFormed(key) && WellFormed(e)
    ensures var r := Enqueued(q, cap, e);
      && Scrolled(r.0, key) == (if r.1 && key.kind == Scroll && SameTarget(e, key) then (Scrolled(q, key) + e.args[0]) % TWO32 else Scrolled(q, key))
      && Others(r.0) == Others(q) + (if r.1 && e.kind.Other? then [e] else [])
  {
    hide Scrolled, Others, FirstSame;
    var n := |q| - 1;
    if Motion(e.kind) && q != [] && SameTarget(q[n], e) {
      Push(q[..n], q[n], key);
      Push(q[..n], Replace(q[n], e), key);
      SumMod(Scrolled(q[..n], key), q[n].args[0], e.args[0]);
      assert q == q[..n] + [q[n]] && q[n := Replace(q[n], e)] == q[..n] + [Replace(q[n], e)];
    } else if e.kind == Msg && FirstSame(q, e, 0) < |q| {
      var k := FirstSame(q, e, 0);
      UpdateOthers(q, k, OrFlags(q[k], e), key);
    } else if |q| < cap {
      Push(q, e, key);
    }
  }

  // ---------------------------------------------------------------- deferred notifications (msg.c)

  /** How a notification sets out: through the event queue, by entering an idle task at once, or by trying that and
      failing (the task cannot be switched to, or has no room on its stack). */
  datatype Entry = ToQueue | Entered | NotEntered

  /** One side of a channel: where its notifications go, the flags it has to report, and whether one is owed. */
  datatype Endpoint = Endpoint(port: int, channel: int, flags: set<nat>, pending: bool)

  /** The notifications of one live task: its event queue, and its sides of the channels it opened or serves. */
  class Notifications {
    const queue: KQueue<Event>
    var msgFunc: int // 0 when there is no callback
    var sides: seq<Endpoint>
    var pending: bool

    ghost predicate Valid()
      reads this, queue, queue.buffer
    {
      QueueOk() && forall i | 0 <= i < |sides| :: sides[i].pending ==> pending
    }

    ghost predicate QueueOk()
      reads this, queue, queue.buffer
    {
      queue.Valid() && AllFormed(queue.Contents()) && OneEach(queue.Contents())
    }

    constructor (storage: array<Event>)
      requires storage.Length > 0
      ensures Valid() && queue.Contents() == [] && sides == [] && msgFunc == 0
    {
      queue := new KQueue<Event>(storage);
      msgFunc, sides, pending := 0, [], false;
    }

    ghost predicate Notified(k: int)
      requires 0 <= k < |sides| && queue.Valid() && AllFormed(queue.Contents())
      reads this, queue, queue.buffer
    {
      FirstSame(queue.Contents(), Notice(msgFunc, sides[k]), 0) < |queue.Contents()|
    }

    /** `call_msg_func` and `msg_set_notify_pending`: the callback is entered or its event joins the queue, or it stays
        owed: when the queue is full, or the task could not be entered. */
    method Notify(k: int, how: Entry) returns (delivered: bool)
      requires QueueOk() && 0 <= k < |sides|
      modifies this, queue, queue.buffer
      ensures QueueOk() && msgFunc == old(msgFunc) && |sides| == old(|sides|) && (old(Valid()) ==> Valid())
      ensures forall i | 0 <= i < |sides| && i != k :: sides[i] == old(sides[i])
      ensures delivered ==> msgFunc != 0 && sides[k] == old(sides[k]).(flags := {}, pending := false)
      ensures delivered && how.ToQueue? ==> Notified(k) && old(sides[k]).flags <= Flags(queue.Contents(), Notice(msgFunc, old(sides[k])))
      ensures !delivered ==> sides[k] == old(sides[k]).(pending := msgFunc != 0) && queue.Contents() == old(queue.Contents())
      ensures !delivered && msgFunc != 0 ==> how.NotEntered? || (how.ToQueue? && |queue.Contents()| == queue.buffer.Length)
      ensures !how.ToQueue? && msgFunc != 0 ==> delivered == how.Entered?
      ensures how.ToQueue? && msgFunc != 0 ==>
                (queue.Contents(), delivered) == Enqueued(old(queue.Contents()), queue.buffer.Length, Notice(msgFunc, old(sides[k])))
      ensures !how.ToQueue? ==> queue.Contents() == old(queue.Contents())
      ensures |queue.Contents()| >= old(|queue.Contents()|) && pending == (old(pending) || sides[k].pending)
    {
      hide FirstSame, Enqueued, Flags, OneEach;
      delivered := false;
      if msgFunc == 0 {
        sides := sides[k := sides[k].(pending := false)];
      } else {
        if !how.ToQueue? {
          delivered := how.Entered?;
        } else {
          ghost var q := queue.Contents();
          var e := Notice(msgFunc, sides[k]);
          EnqueuedKeepsOneEach(q, queue.buffer.Length, e);
          FlagsKept(q, queue.buffer.Length, e, e);
          NowQueued(q, queue.buffer.Length, e);
          delivered := QueueSubroutine(queue, e);
          SameKey(queue.Contents(), e, Notice(msgFunc, sides[k].(flags := {}, pending := false)));
        }
        sides := sides[k := sides[k].(pending := !delivered)];
        if !delivered {
          pending := true;
        } else {
          sides := sides[k := sides[k].(flags := {})];
        }
      }
    }

    /** The same for an idle task that has events queued: the notification joins the queue, or is refused, before the first
        of them is entered; `taken` counts the events that leave the queue by that, stale ones included, each followed by a
        retry. */
    method NotifyBehind(k: nat, taken: nat) returns (delivered: bool)
      requires Valid() && k < |sides| && msgFunc != 0
      modifies this, queue, queue.buffer
      ensures Valid() && msgFunc == old(msgFunc)
      ensures var (q, ok) := Enqueued(old(queue.Contents()), queue.buffer.Length, Notice(msgFunc, old(sides)[k]));
        var (after, rest) := Consumed(q, queue.buffer.Length, msgFunc, old(sides), taken);
        && delivered == ok && queue.Contents() == after
        && sides == rest[k := if ok then rest[k].(flags := {}, pending := false) else rest[k].(pending := true)]
    {
      hide FirstSame, Enqueued, Flags, OneEach, Retried, Consumed;
      ghost var q := queue.Contents();
      var e := Notice(msgFunc, sides[k]);
      EnqueuedKeepsOneEach(q, queue.buffer.Length, e);
      delivered := QueueSubroutine(queue, e);
      Consume(taken);
      pending := pending || !delivered;
      sides := sides[k := if delivered then sides[k].(flags := {}, pending := false) else sides[k].(pending := true)];
    }

    /** Events leave the front of the queue, each followed by a retry. */
    method Consume(n: nat)
      requires Valid()
      modifies this, queue, queue.buffer
      ensures Valid() && msgFunc == old(msgFunc) && |sides| == |old(sides)|
      ensures (queue.Contents(), sides) == Consumed(old(queue.Contents()), queue.buffer.Length, msgFunc, old(sides), n)
    {
      hide FirstSame, Enqueued, Flags, Retried, Owed;
      var i := n;
      while i > 0 && queue.tail != queue.head
        invariant 0 <= i <= n && Valid() && msgFunc == old(msgFunc) && |sides| == |old(sides)|
        invariant Consumed(queue.Contents(), queue.buffer.Length, msgFunc, sides, i)
               == Consumed(old(queue.Contents()), queue.buffer.Length, msgFunc, old(sides), n)
      {
        ghost var q := queue.Contents();
        var ok, x := queue.Pop();
        assert queue.Contents() == q[1..];
        Retry();
        i := i - 1;
      }
    }

    /** One side in the loops of `msg_retry_task_notifications` */
    method RetryOne(i: nat)
      requires QueueOk() && i < |sides|
      modifies this, queue, queue.buffer
      ensures |sides| == old(|sides|) && sides == old(sides)[i := sides[i]]
      ensures QueueOk() && msgFunc == old(msgFunc) && pending == (old(pending) || sides[i].pending)
      ensures (queue.Contents(), sides[i]) == RetriedOne(old(queue.Contents()), queue.buffer.Length, msgFunc, old(sides[i]))
    {
      hide FirstSame, Enqueued, Flags, OneEach;
      if sides[i].pending {
        var delivered := Notify(i, ToQueue);
      }
    }

    /** `msg_retry_task_notifications`: what is still owed afterwards is owed because the queue is full. */
    method Retry()
      requires Valid()
      modifies this, queue, queue.buffer
      ensures Valid() && msgFunc == old(msgFunc) && |sides| == old(|sides|)
      ensures forall i | 0 <= i < |sides| :: sides[i].pending ==> old(sides[i]).pending && |queue.Contents()| == queue.buffer.Length
      ensures pending ==> exists i | 0 <= i < |sides| :: sides[i].pending
      ensures forall i | 0 <= i < |sides| && !old(sides[i]).pending :: sides[i] == old(sides[i])
      ensures (queue.Contents(), sides) == Retried(old(queue.Contents()), queue.buffer.Length, msgFunc, old(sides))
    {
      hide FirstSame, Enqueued, Flags, OneEach, AllFormed, Retried, Notice, KQueue.Contents;
      StillOwed(queue.Contents(), queue.buffer.Length, msgFunc, sides);
      if !pending {
        NothingOwed(queue.Contents(), queue.buffer.Length, msgFunc, sides);
      } else {
        pending := false;
        RetryAll();
      }
    }

    /** The loops of `msg_retry_task_notifications` */
    method RetryAll()
      requires QueueOk() && !pending
      modifies this, queue, queue.buffer
      ensures QueueOk() && msgFunc == old(msgFunc) && |sides| == |old(sides)|
      ensures pending <==> exists i | 0 <= i < |sides| :: sides[i].pending
      ensures (queue.Contents(), sides) == Retried(old(queue.Contents()), queue.buffer.Length, msgFunc, old(sides))
    {
      hide FirstSame, Enqueued, Flags, OneEach, AllFormed, Retried, RetriedOne, Notice, Notified, KQueue.Contents, KQueue.Valid;
      ghost var was := sides;
      ghost var goal := Retried(queue.Contents(), queue.buffer.Length, msgFunc, sides);
      ghost var owed := -1;
      var i: nat := 0;
      assert was[0..] == was;
      assert sides[..0] + goal.1 == goal.1;
      while i < |sides|
        invariant i <= |sides| == |was| && msgFunc == old(msgFunc)
        invariant QueueOk() && forall j | i <= j < |sides| :: sides[j] == was[j]
        invariant var rest := Retried(queue.Contents(), queue.buffer.Length, msgFunc, was[i..]);
          rest.0 == goal.0 && sides[..i] + rest.1 == goal.1
        invariant if pending then 0 <= owed < i && sides[owed].pending else forall j | 0 <= j < i :: !sides[j].pending
      {
        RetriedStep(queue.Contents(), queue.buffer.Length, msgFunc, was, i);
        RetryOne(i);
        owed := if sides[i].pending then i else owed;
        Moved(sides, i, Retried(queue.Contents(), queue.buffer.Length, msgFunc, was[i + 1..]).1);
        i := i + 1;
      }
      NothingOwed(queue.Contents(), queue.buffer.Length, msgFunc, was[i..]);
      assert sides == goal.1 && was[i..] == [];
    }
  }

  /** An accepted message event is in the queue. */
  lemma NowQueued(q: seq<Event>, cap: nat, e: Event)
    requires AllFormed(q) && WellFormed(e) && e.kind == Msg
    ensures var r := Enqueued(q, cap, e); |r.0| >= |q| && (r.1 ==> FirstSame(r.0, e, 0) < |r.0|)
  {
    var r := Enqueued(q, cap, e);
    var k := FirstSame(q, e, 0);
    if r.1 {
      assert SameMsg(r.0[k], e);
    }
  }

  lemma SameKey(q: seq<Event>, a: Event, b: Event)
    requires AllFormed(q) && WellFormed(a) && WellFormed(b) && SameMsg(a, b)
    ensures FirstSame(q, a, 0) == FirstSame(q, b, 0)
  {
  }

  function Notice(func: int, side: Endpoint): (e: Event)
    ensures WellFormed(e)
  {
    Event(Msg, func, [side.port, side.channel], side.flags)
  }

  // ---------------------------------------------------------------- a retry as a function

  /** The queue and the sides after every owed notification was tried once, in order. */
  function Retried(q: seq<Event>, cap: nat, func: int, sides: seq<Endpoint>): (r: (seq<Event>, seq<Endpoint>))
    requires AllFormed(q)
    ensures AllFormed(r.0) && |r.1| == |sides| && (|q| <= cap ==> |r.0| <= cap)
    ensures |r.0| + Owed(r.1) <= |q| + Owed(sides)
    decreases sides
  {
    if sides == [] then (q, [])
    else
      var (q1, s) := RetriedOne(q, cap, func, sides[0]);
      var rest := Retried(q1, cap, func, sides[1..]);
      (rest.0, [s] + rest.1)
  }

  function RetriedOne(q: seq<Event>, cap: nat, func: int, s: Endpoint): (r: (seq<Event>, Endpoint))
    requires AllFormed(q)
    ensures AllFormed(r.0) && (|q| <= cap ==> |r.0| <= cap) && |r.0| + Owed([r.1]) <= |q| + Owed([s])
  {
    var (q1, ok) := if s.pending && func != 0 then Enqueued(q, cap, Notice(func, s)) else (q, false);
    (q1, if ok then s.(flags := {}, pending := false) else s.(pending := s.pending && func != 0))
  }

  lemma Moved<T>(s: seq<T>, i: nat, rest: seq<T>)
    requires i < |s|
    ensures s[..i] + ([s[i]] + rest) == s[..i + 1] + rest
  {
  }

  lemma RetriedStep(q: seq<Event>, cap: nat, func: int, sides: seq<Endpoint>, i: nat)
    requires AllFormed(q) && i < |sides|
    ensures var (q1, s) := RetriedOne(q, cap, func, sides[i]);
      var rest := Retried(q1, cap, func, sides[i + 1..]);
      Retried(q, cap, func, sides[i..]).0 == rest.0 && Retried(q, cap, func, sides[i..]).1 == [s] + rest.1
  {
    assert sides[i..][0] == sides[i] && sides[i..][1..] == sides[i + 1..];
  }

  /** The queue and the sides after `n` events left the queue, each followed by a retry. */
  function Consumed(q: seq<Event>, cap: nat, func: int, sides: seq<Endpoint>, n: nat): (r: (seq<Event>, seq<Endpoint>))
    requires AllFormed(q)
    ensures AllFormed(r.0) && |r.1| == |sides|
    decreases n
  {
    if n == 0 || q == [] then (q, sides)
    else
      var (q1, s1) := Retried(q[1..], cap, func, sides);
      Consumed(q1, cap, func, s1, n - 1)
  }

  /** A notification that finds a full queue of an idle task is owed though its first event is then entered: while no side
      was owed before, a place stays free. */
  lemma OwedBesideRoom(q: seq<Event>, cap: nat, func: int, sides: seq<Endpoint>, e: Event)
    requires AllFormed(q) && WellFormed(e) && e.kind == Msg && |q| == cap > 0 && FirstSame(q, e, 0) == cap
    requires forall i | 0 <= i < |sides| :: !sides[i].pending
    ensures var r := Enqueued(q, cap, e); !r.1 && |Consumed(r.0, cap, func, sides, 1).0| == cap - 1
  {
    NothingOwed(q[1..], cap, func, sides);
    assert Consumed(q, cap, func, sides, 1) == Consumed(q[1..], cap, func, sides, 0);
  }

  function Owed(sides: seq<Endpoint>): (n: nat) {
    if sides == [] then 0 else (if sides[0].pending then 1 else 0) + Owed(sides[1..])
  }

  lemma {:induction false} NothingOwed(q: seq<Event>, cap: nat, func: int, sides: seq<Endpoint>)
    requires AllFormed(q) && forall i | 0 <= i < |sides| :: !sides[i].pending
    ensures Retried(q, cap, func, sides) == (q, sides)
  {
    if sides != [] {
      NothingOwed(q, cap, func, sides[1..]);
      assert sides == [sides[0]] + sides[1..];
    }
  }

  /** What is still owed after a retry was owed before, and the queue is full. */
  lemma {:induction false} StillOwed(q: seq<Event>, cap: nat, func: int, sides: seq<Endpoint>)
    requires AllFormed(q)
    ensures var r := Retried(q, cap, func, sides);
      && |r.0| >= |q|
      && forall i | 0 <= i < |sides| :: if sides[i].pending then (r.1[i].pending ==> |r.0| >= cap) else r.1[i] == sides[i]
    decreases sides
  {
    hide Enqueued;
    if sides != [] {
      var s := sides[0];
      var q1 := RetriedOne(q, cap, func, s).0;
      if s.pending && func != 0 {
        NowQueued(q, cap, Notice(func, s));
      }
      StillOwed(q1, cap, func, sides[1..]);
      var r := Retried(q, cap, func, sides);
      assert r.1[1..] == Retried(q1, cap, func, sides[1..]).1;
      forall i | 0 <= i < |sides| ensures if sides[i].pending then (r.1[i].pending ==> |r.0| >= cap) else r.1[i] == sides[i] {
        if i > 0 {
          assert sides[i] == sides[1..][i - 1] && r.1[i] == r.1[1..][i - 1];
        }
      }
    }
  }

  /** The flags that the sides still have to report for a callback, port and channel. */
  ghost function SideFlags(sides: seq<Endpoint>, func: int, key: Event): (f: set<nat>)
    requires WellFormed(key)
  {
    if sides == [] then {}
    else
      (if key.kind == Msg && key.addr == func && key.args == [sides[0].port, sides[0].channel] then sides[0].flags else {})
      + SideFlags(sides[1..], func, key)
  }

  /** `r` is `q` with more flags in some message events, and with message events for the callback `func` behind it. */
  ghost predicate Extends(q: seq<Event>, func: int, r: seq<Event>) {
    && |q| <= |r|
    && (forall i | 0 <= i < |q| :: r[i] == q[i] || (q[i].kind == Msg && q[i].flags <= r[i].flags && r[i] == q[i].(flags := r[i].flags)))
    && (forall i | |q| <= i < |r| :: r[i].kind == Msg && r[i].addr == func)
  }

  lemma EnqueuedExtends(q: seq<Event>, cap: nat, func: int, s: Endpoint)
    requires AllFormed(q)
    ensures Extends(q, func, Enqueued(q, cap, Notice(func, s)).0)
  {
  }

  lemma ExtendsTwice(q: seq<Event>, func: int, r: seq<Event>, s: seq<Event>)
    requires Extends(q, func, r) && Extends(r, func, s)
    ensures Extends(q, func, s)
  {
    forall i | 0 <= i < |s|
      ensures if i < |q| then s[i] == q[i] || (q[i].kind == Msg && q[i].flags <= s[i].flags && s[i] == q[i].(flags := s[i].flags))
              else s[i].kind == Msg && s[i].addr == func
    {
      assert i < |r| ==> s[i] == r[i] || s[i] == r[i].(flags := s[i].flags);
    }
  }

  /** All events but messages, in order. */
  ghost function NoMessages(q: seq<Event>): (r: seq<Event>) {
    if q == [] then [] else NoMessages(q[..|q| - 1]) + (if q[|q| - 1].kind == Msg then [] else [q[|q| - 1]])
  }

  lemma {:induction false} ExtendsKeeps(q: seq<Event>, func: int, r: seq<Event>)
    requires Extends(q, func, r)
    ensures NoMessages(r) == NoMessages(q)
    decreases |r|
  {
    if |q| < |r| {
      ExtendsKeeps(q, func, r[..|r| - 1]);
    } else if q != [] {
      ExtendsKeeps(q[..|q| - 1], func, r[..|r| - 1]);
    }
  }

  lemma MessagesLast(q: seq<Event>)
    requires q != []
    ensures NoMessages(q) == NoMessages(q[..|q| - 1]) + (if q[|q| - 1].kind == Msg then [] else [q[|q| - 1]])
  {
  }

  lemma {:induction false} NoMessagesTail(q: seq<Event>)
    requires q != []
    ensures NoMessages(q) == (if q[0].kind == Msg then [] else [q[0]]) + NoMessages(q[1..])
  {
    var n := |q| - 1;
    if n == 0 {
      assert q[..n] == [] == q[1..];
    } else {
      var front := q[..n];
      NoMessagesTail(front);
      assert front[0] == q[0] && q[1..][n - 1] == q[n] && front[1..] == q[1..][..n - 1];
      hide NoMessages;
      MessagesLast(q);
      MessagesLast(q[1..]);
    }
  }

  /** A retry leaves what is queued where it is, and settles a side only by reporting all its flags or, without a
      callback, by forgetting that it is owed. */
  lemma {:induction false} RetryExtends(q: seq<Event>, cap: nat, func: int, sides: seq<Endpoint>)
    requires AllFormed(q)
    ensures var r := Retried(q, cap, func, sides);
      && Extends(q, func, r.0)
      && forall i | 0 <= i < |sides| ::
           r.1[i] == if !sides[i].pending || (func != 0 && r.1[i].pending) then sides[i]
                     else sides[i].(pending := false, flags := if func == 0 then sides[i].flags else {})
    decreases sides
  {
    hide Enqueued, FirstSame;
    if sides != [] {
      var (q1, s) := RetriedOne(q, cap, func, sides[0]);
      EnqueuedExtends(q, cap, func, sides[0]);
      RetryExtends(q1, cap, func, sides[1..]);
      var r := Retried(q, cap, func, sides);
      var rest := Retried(q1, cap, func, sides[1..]);
      ExtendsTwice(q, func, q1, r.0);
      forall i | 0 <= i < |sides|
        ensures r.1[i] == if !sides[i].pending || (func != 0 && r.1[i].pending) then sides[i]
                          else sides[i].(pending := false, flags := if func == 0 then sides[i].flags else {})
      {
        if i > 0 {
          assert sides[i] == sides[1..][i - 1] && r.1[i] == rest.1[i - 1];
        }
      }
    }
  }

  /** A retry moves flags into the queue and loses none. */
  lemma {:induction false} RetryKeepsFlags(q: seq<Event>, cap: nat, func: int, sides: seq<Endpoint>, key: Event)
    requires AllFormed(q) && WellFormed(key)
    ensures var r := Retried(q, cap, func, sides);
      Flags(r.0, key) + SideFlags(r.1, func, key) == Flags(q, key) + SideFlags(sides, func, key)
    decreases sides
  {
    hide Enqueued, Flags, FirstSame;
    if sides != [] {
      var s := sides[0];
      var e := Notice(func, s);
      var q1 := RetriedOne(q, cap, func, s).0;
      if s.pending && func != 0 {
        FlagsKept(q, cap, e, key);
      }
      RetryKeepsFlags(q1, cap, func, sides[1..], key);
      var r := Retried(q, cap, func, sides);
      assert r.1[1..] == Retried(q1, cap, func, sides[1..]).1;
    }
  }

  lemma {:induction false} FlagsTail(q: seq<Event>, key: Event)
    requires AllFormed(q) && WellFormed(key) && q != []
    ensures Flags(q, key) == (if SameMsg(q[0], key) then q[0].flags else {}) + Flags(q[1..], key)
  {
    var n := |q| - 1;
    if n == 0 {
      assert q[..n] == [] == q[1..];
    } else {
      FlagsTail(q[..n], key);
      assert q[..n][1..] == q[1..][..n - 1];
    }
  }
}
