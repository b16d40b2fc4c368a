/**
 * Kernel timers (`events.c`): a list ordered by the signed 32-bit difference between each deadline and a tick counter
 * that wraps.  Beside the 32-bit time the kernel stores, a timer carries its true deadline, the time it was asked for and
 * its number in order of creation; no step looks at these three.
 */
module Timers {
  import opened Machine

  datatype Timer = Timer(time: int, task: int, id: nat, deadline: int, asked: nat)

  /** `event_time_until` at tick counter `counter` */
  function Until(e: Timer, counter: int): (r: int) { Signed(e.time - counter) }

  /** The stored time is the true deadline as far as 32 bits go, and the deadline is within reach. */
  ghost predicate Within(e: Timer, now: nat) {
    e.time == e.deadline % TWO32 && -TWO31 <= e.deadline - now < TWO31
  }

  /** The wrapped difference is the true one. */
  lemma UntilIsTrue(e: Timer, now: nat)
    requires Within(e, now)
    ensures Until(e, now % TWO32) == e.deadline - now
  {
    assert (e.time - now % TWO32 - (e.deadline - now)) % TWO32 == 0;
    SignedUnique(e.time - now % TWO32, e.deadline - now);
  }

  lemma SignedUnique(x: int, d: int)
    requires (x - d) % TWO32 == 0 && -TWO31 <= d < TWO31
    ensures Signed(x) == d
  {
  }

  ghost predicate Before(a: Timer, b: Timer) {
    a.deadline < b.deadline || (a.deadline == b.deadline && a.id < b.id)
  }

  /** By deadline, and in order of creation where deadlines are equal. */
  ghost predicate Ordered(q: seq<Timer>) {
    forall i, j | 0 <= i < j < |q| :: Before(q[i], q[j])
  }

  ghost predicate AllWithin(q: seq<Timer>, now: nat, next: nat) {
    forall i | 0 <= i < |q| :: Within(q[i], now) && q[i].id < next
  }

  function Inserted(q: seq<Timer>, k: nat, e: Timer): (r: seq<Timer>)
    requires k <= |q|
  {
    q[..k] + [e] + q[k..]
  }

  lemma InsertedOrdered(q: seq<Timer>, k: nat, e: Timer)
    requires Ordered(q) && k <= |q| && (forall i | 0 <= i < |q| :: q[i].id < e.id)
    requires (k > 0 ==> q[k - 1].deadline <= e.deadline) && (k < |q| ==> e.deadline < q[k].deadline)
    ensures Ordered(Inserted(q, k, e)) && multiset(Inserted(q, k, e)) == multiset(q) + multiset{e}
  {
    hide Before, Ordered;
    OrderedParts(q, k, e);
    InsertedBag(q, k, e);
    OrderedJoin(q[..k], [e]);
    OrderedJoin(q[..k] + [e], q[k..]);
  }

  lemma InsertedBag(q: seq<Timer>, k: nat, e: Timer)
    requires k <= |q|
    ensures multiset(Inserted(q, k, e)) == multiset(q) + multiset{e}
  {
    assert q == q[..k] + q[k..];
  }

  lemma OrderedParts(q: seq<Timer>, k: nat, e: Timer)
    requires Ordered(q) && k <= |q| && (forall i | 0 <= i < |q| :: q[i].id < e.id)
    requires (k > 0 ==> q[k - 1].deadline <= e.deadline) && (k < |q| ==> e.deadline < q[k].deadline)
    ensures Ordered(q[..k]) && Ordered([e]) && Ordered(q[k..])
    ensures forall i, j | 0 <= i < |q[..k]| && 0 <= j < |[e]| :: Before(q[..k][i], [e][j])
    ensures forall i, j | 0 <= i < |q[..k] + [e]| && 0 <= j < |q[k..]| :: Before((q[..k] + [e])[i], q[k..][j])
  {
  }

  lemma OrderedJoin(a: seq<Timer>, b: seq<Timer>)
    requires Ordered(a) && Ordered(b) && forall i, j | 0 <= i < |a| && 0 <= j < |b| :: Before(a[i], b[j])
    ensures Ordered(a + b)
  {
  }

  /** The timers that are due, which are at the front. */
  ghost function Due(q: seq<Timer>, now: nat): (k: nat)
    ensures k <= |q| && (forall i | 0 <= i < k :: q[i].deadline <= now) && (k < |q| ==> q[k].deadline > now)
  {
    if q == [] || q[0].deadline > now then 0 else 1 + Due(q[1..], now)
  }

  class Clock {
    var now: nat // ticks since the start; the kernel keeps `now % 2^32`
    var timers: seq<Timer>
    var next: nat

    ghost predicate Valid()
      reads this
    {
      Ordered(timers) && AllWithin(timers, now, next)
    }

    ghost function View(): State
      reads this
    {
      State(now, timers, next)
    }

    constructor ()
      ensures Sound(View()) && View() == State(0, [], 0)
    {
      now, timers, next := 0, [], 0;
    }

    /** Ticks go by, as long as no timer is left overdue for 2^31 of them. */
    method Tick(n: nat)
      requires Valid() && forall i | 0 <= i < |timers| :: now + n - timers[i].deadline <= TWO31
      modifies this`now
      ensures Valid() && now == old(now) + n
    {
      now := now + n;
    }

    /** `events_add`: the list stays in order, and the new timer comes after those with its own deadline.  Without
        memory the timer is silently dropped, and then nothing changes. */
    method Add(delta: int, task: int, memory: bool) returns (e: Timer)
      requires Valid() && -TWO31 <= delta < TWO31
      modifies this`timers, this`next
      ensures Valid() && e == NewTimer(now, delta, task, old(next)) == Timer((now + delta) % TWO32, task, old(next), now + delta, now)
      ensures memory ==> next == old(next) + 1 && multiset(timers) == multiset(old(timers)) + multiset{e}
      ensures !memory ==> timers == old(timers) && next == old(next)
      ensures delta > 0 ==> Due(timers, now) == Due(old(timers), now) && timers[..Due(timers, now)] == old(timers)[..Due(timers, now)]
    {
      hide Until, Within, Ordered, AllWithin, Due, Inserted;
      var counter := now % TWO32;
      e := NewTimer(now, delta, task, next);
      NewTimerIs(now, delta, task, next);
      if !memory {
        return;
      }
      WithinNow(now, delta, e);
      UntilIsTrue(e, now);
      var k: nat := 0;
      ghost var q := timers;
      while k < |timers| && !(Until(e, counter) < Until(timers[k], counter))
        invariant k <= |timers| && timers == q && next == e.id && forall i | 0 <= i < k :: q[i].deadline <= e.deadline
        decreases |timers| - k
      {
        UntilListed(q, now, next, k);
        k := k + 1;
      }
      if k < |timers| {
        UntilListed(q, now, next, k);
      }
      AddKeeps(q, now, k, e);
      timers := Inserted(timers, k, e);
      next := next + 1;
    }

    /** The timers that a callback adds. */
    method AddAll(wanted: seq<Request>)
      requires Valid() && Positive(wanted)
      modifies this`timers, this`next
      ensures Valid() && Due(timers, now) == Due(old(timers), now)
      ensures timers[..Due(timers, now)] == old(timers)[..Due(timers, now)]
      ensures next == old(next) + |Requested(wanted, now, old(next))|
      ensures multiset(timers) == multiset(old(timers)) + multiset(Requested(wanted, now, old(next)))
    {
      hide Due, Ordered, AllWithin, Requested, NewTimer;
      ghost var first := next;
      assert wanted[..0] == [];
      assert Requested([], now, first) == [] by { NoneRequested(now, first); }
      var i: nat := 0;
      while i < |wanted|
        invariant i <= |wanted| && Valid() && Due(timers, now) == Due(old(timers), now)
        invariant timers[..Due(timers, now)] == old(timers)[..Due(timers, now)]
        invariant next == first + |Requested(wanted[..i], now, first)|
        invariant multiset(timers) == multiset(old(timers)) + multiset(Requested(wanted[..i], now, first))
      {
        RequestedNext(wanted, i, now, first);
        ghost var before := Requested(wanted[..i], now, first);
        var e := Add(wanted[i].delta, wanted[i].task, wanted[i].memory);
        assert wanted[i].memory ==> multiset(before + [e]) == multiset(before) + multiset{e};
        i := i + 1;
      }
      assert wanted[..|wanted|] == wanted;
    }

    /** `events_check`.  `fate` says what has become of the task of each timer by the time it is looked at, `adds` what
        each callback adds.  What fires is exactly what is due, in order, minus the timers whose task has ended or been
        replaced; nothing due is left behind, and what callbacks ask for is listed. */
    method Check(fate: Timer -> Fate, adds: Timer -> seq<Request>) returns (fired: seq<Timer>)
      requires Valid() && forall e :: Positive(adds(e))
      modifies this`timers, this`next
      ensures Valid() && Due(timers, now) == 0
      ensures fired == Fired(old(timers)[..Due(old(timers), now)], fate)
      ensures next == old(next) + |Added(fired, adds, now, old(next))|
      ensures multiset(timers) == multiset(old(timers)[Due(old(timers), now)..]) + multiset(Added(fired, adds, now, old(next)))
    {
      hide Due, Ordered, AllWithin, Within, Fired, Until, Checking, Added, Requested, NewTimer;
      assert forall e :: Positive(adds(e));
      fired := [];
      ghost var q, first := timers, next;
      ghost var added: seq<Timer> := [];
      ghost var k: nat := 0;
      ghost var due := Due(timers, now);
      CheckStart(q, now, fate);
      NoneAdded(adds, now, first);
      while timers != [] && Until(timers[0], now % TWO32) <= 0
        invariant Checking(timers, q, now, k, multiset(added)) && Valid() && k <= due && fired == Fired(q[..k], fate)
        invariant next == first + |added| && added == Added(fired, adds, now, first)
        decreases due - k
      {
        CheckStep(timers, q, now, next, k, multiset(added), fate);
        var e := timers[0];
        timers := timers[1..];
        if Fires(e, fate) {
          ghost var mid, more := timers, Requested(adds(e), now, next);
          AddedNext(fired, e, adds, now, first);
          RequestedLater(adds(e), now, next);
          AddAll(adds(e));
          CheckMore(mid, timers, q, now, k + 1, added, more);
          fired, added := fired + [e], added + more;
        }
        k := k + 1;
      }
      CheckEnd(timers, q, now, next, k, multiset(added));
    }

    // ---------------------------------------------------------------- runs

    /** `timer_handler`: the next tick, and a check. */
    method Interrupt(fate: Timer -> Fate, adds: Timer -> seq<Request>) returns (fired: seq<Timer>)
      requires Sound(View()) && forall e :: Positive(adds(e))
      modifies this
      ensures Does(old(View()), Op.Interrupt(fate, adds), View(), fired)
    {
      hide Ordered, AllWithin, Due, Fired, Timely, Added;
      ghost var s := View();
      TimelyReach(timers, now);
      Tick(1);
      fired := Check(fate, adds);
      AddedLater(fired, adds, now, s.next);
      CheckTimely(s.timers, timers, now, multiset(Added(fired, adds, now, s.next)));
    }

    /** Any sequence of timer interrupts and of timers asked for in between: `trace` are the states passed through, `fired`
        what each operation fired. */
    method Run(ops: seq<Op>) returns (fired: seq<seq<Timer>>, ghost trace: seq<State>)
      requires Sound(View()) && forall k | 0 <= k < |ops| :: Proper(ops[k])
      modifies this
      ensures IsRun(trace, ops, fired) && trace[0] == old(View()) && trace[|ops|] == View()
    {
      hide Ordered, AllWithin, Due, Timely, Does;
      fired, trace := [], [View()];
      while |fired| < |ops|
        invariant |fired| <= |ops| && Sound(View()) && IsRun(trace, ops[..|fired|], fired)
        invariant trace[0] == old(View()) && trace[|fired|] == View()
        decreases |ops| - |fired|
      {
        var f := Perform(ops[|fired|]);
        assert ops[..|fired| + 1] == ops[..|fired|] + [ops[|fired|]];
        fired, trace := fired + [f], trace + [View()];
      }
      assert ops[..|ops|] == ops;
    }

    method Perform(op: Op) returns (fired: seq<Timer>)
      requires Sound(View()) && Proper(op)
      modifies this
      ensures Sound(View()) && Does(old(View()), op, View(), fired)
    {
      hide Ordered, AllWithin, Due, Timely, Fired, Added;
      fired := [];
      match op
      case Wanted(delta, task, memory) =>
        ghost var q := timers;
        var e := Add(delta, task, memory);
        AddTimely(q, timers, e, now);
      case Interrupt(fate, adds) => fired := Interrupt(fate, adds);
    }
  }

  datatype State = State(now: nat, timers: seq<Timer>, next: nat)

  ghost predicate Sound(s: State) { Ordered(s.timers) && AllWithin(s.timers, s.now, s.next) && Timely(s.timers, s.now) }

  function NewTimer(now: nat, delta: int, task: int, id: nat): (e: Timer) {
    Timer((now % TWO32 + delta) % TWO32, task, id, now + delta, now)
  }

  /** `events_add` adds to the counter that has wrapped; the stored time is the true deadline up to 2^32 all the same. */
  lemma NewTimerIs(now: nat, delta: int, task: int, id: nat)
    ensures NewTimer(now, delta, task, id) == Timer((now + delta) % TWO32, task, id, now + delta, now)
  {
    assert (now % TWO32 + delta - (now + delta)) % TWO32 == 0;
  }

  /** The timers that `wanted` puts on the list, numbered from `id`. */
  function Requested(wanted: seq<Request>, now: nat, id: nat): (r: seq<Timer>) {
    if wanted == [] then []
    else
      var w := wanted[|wanted| - 1];
      var before := Requested(wanted[..|wanted| - 1], now, id);
      if w.memory then before + [NewTimer(now, w.delta, w.task, id + |before|)] else before
  }

  /** The timers that the callbacks of `fired` put on the list. */
  function Added(fired: seq<Timer>, adds: Timer -> seq<Request>, now: nat, id: nat): (r: seq<Timer>) {
    if fired == [] then []
    else
      var before := Added(fired[..|fired| - 1], adds, now, id);
      before + Requested(adds(fired[|fired| - 1]), now, id + |before|)
  }

  lemma NoneRequested(now: nat, id: nat)
    ensures Requested([], now, id) == []
  {
  }

  lemma NoneAdded(adds: Timer -> seq<Request>, now: nat, id: nat)
    ensures Added([], adds, now, id) == []
  {
  }

  lemma AddedNext(fired: seq<Timer>, e: Timer, adds: Timer -> seq<Request>, now: nat, id: nat)
    ensures var before := Added(fired, adds, now, id);
      Added(fired + [e], adds, now, id) == before + Requested(adds(e), now, id + |before|) && (fired + [e])[..|fired|] == fired
  {
    hide Requested;
    var r := fired + [e];
    assert r[..|r| - 1] == fired && r[|r| - 1] == e;
  }

  lemma RequestedNext(wanted: seq<Request>, i: nat, now: nat, id: nat)
    requires i < |wanted|
    ensures var before := Requested(wanted[..i], now, id); var w := wanted[i];
      Requested(wanted[..i + 1], now, id) == if w.memory then before + [NewTimer(now, w.delta, w.task, id + |before|)] else before
  {
    hide NewTimer;
    assert wanted[..i + 1][..i] == wanted[..i];
  }

  lemma {:induction false} RequestedLater(wanted: seq<Request>, now: nat, id: nat)
    requires Positive(wanted)
    ensures forall e | e in Requested(wanted, now, id) :: e.deadline > now && e.asked == now && e.id >= id
  {
    if wanted != [] {
      RequestedLater(wanted[..|wanted| - 1], now, id);
    }
  }

  lemma {:induction false} AddedLater(fired: seq<Timer>, adds: Timer -> seq<Request>, now: nat, id: nat)
    requires forall e :: Positive(adds(e))
    ensures forall e | e in Added(fired, adds, now, id) :: e.deadline > now && e.asked == now && e.id >= id
  {
    if fired != [] {
      var before := Added(fired[..|fired| - 1], adds, now, id);
      AddedLater(fired[..|fired| - 1], adds, now, id);
      RequestedLater(adds(fired[|fired| - 1]), now, id + |before|);
    }
  }

  datatype Op = Wanted(delta: int, task: int, memory: bool) | Interrupt(fate: Timer -> Fate, adds: Timer -> seq<Request>)

  /** A deadline exactly 2^31 ticks ago is out of reach at the next tick. */
  ghost predicate Proper(op: Op) {
    match op
    case Wanted(delta, _, _) => -TWO31 < delta < TWO31
    case Interrupt(_, adds) => forall e :: Positive(adds(e))
  }

  /** A timer 2^31 ticks in the past is not due at the next tick. */
  lemma OutOfReachExample(e: Timer)
    requires e.time == (5 - TWO31) % TWO32
    ensures Until(e, 5) == -TWO31 && Until(e, 6) == TWO31 - 1
  {
  }

  /** The first interrupt at or behind the deadline, once the timer is there. */
  function DueAt(e: Timer): (at: nat)
    ensures at > e.asked && at >= e.deadline && (at == e.asked + 1 || at == e.deadline)
  {
    if e.deadline > e.asked then e.deadline else e.asked + 1
  }

  /** No interrupt has passed over a timer. */
  ghost predicate Timely(q: seq<Timer>, now: nat) {
    forall e | e in q :: e.asked <= now < DueAt(e) && e.deadline - now > -TWO31
  }

  lemma TimelyReach(q: seq<Timer>, now: nat)
    requires Timely(q, now)
    ensures forall i | 0 <= i < |q| :: now + 1 - q[i].deadline <= TWO31
  {
  }

  lemma AddTimely(q: seq<Timer>, timers: seq<Timer>, e: Timer, now: nat)
    requires Timely(q, now) && e.asked == now && e.deadline - now > -TWO31
    requires timers == q || multiset(timers) == multiset(q) + multiset{e}
    ensures Timely(timers, now)
  {
    forall x | x in timers ensures x in q || x == e {
      assert x in multiset(timers);
    }
  }

  lemma CheckTimely(q: seq<Timer>, timers: seq<Timer>, now: nat, added: multiset<Timer>)
    requires now > 0 && Timely(q, now - 1) && Due(timers, now) == 0 && Ordered(timers)
    requires multiset(timers) == multiset(q[Due(q, now)..]) + added && forall e | e in added :: e.deadline > now && e.asked == now
    ensures Timely(timers, now)
  {
    var rest := q[Due(q, now)..];
    forall e | e in timers ensures e.asked <= now < DueAt(e) && e.deadline > now {
      assert e in multiset(timers);
      assert e in rest || e in added;
      var i :| 0 <= i < |timers| && timers[i] == e;
      assert i > 0 ==> Before(timers[0], timers[i]);
    }
  }

  /** What is due at the next tick. */
  ghost function Took(s: State): (took: seq<Timer>) { s.timers[..Due(s.timers, s.now + 1)] }

  /** What an operation does, and what it fires.  The list is in order, so its contents determine it. */
  ghost predicate Does(s: State, op: Op, r: State, fired: seq<Timer>) {
    && Sound(s) && Sound(r) && Proper(op)
    && match op
       case Wanted(delta, task, memory) =>
         && fired == [] && r.now == s.now
         && if memory then r.next == s.next + 1 && multiset(r.timers) == multiset(s.timers) + multiset{NewTimer(s.now, delta, task, s.next)}
            else r == s
       case Interrupt(fate, adds) =>
         && r.now == s.now + 1 && fired == Fired(Took(s), fate) && r.next == s.next + |Added(fired, adds, r.now, s.next)|
         && multiset(r.timers) == multiset(s.timers[|Took(s)|..]) + multiset(Added(fired, adds, r.now, s.next))
  }

  ghost predicate IsRun(trace: seq<State>, ops: seq<Op>, fired: seq<seq<Timer>>) {
    && |trace| == |ops| + 1 && |fired| == |ops| && Sound(trace[0])
    && forall k | 0 <= k < |ops| :: Does(trace[k], ops[k], trace[k + 1], fired[k])
  }

  lemma {:induction false} FiredAre(q: seq<Timer>, fate: Timer -> Fate, e: Timer)
    ensures e in Fired(q, fate) <==> e in q && Fires(e, fate)
  {
    if q != [] {
      FiredAre(q[..|q| - 1], fate, e);
      assert q == q[..|q| - 1] + [q[|q| - 1]];
    }
  }

  lemma {:induction false} FiredOrdered(q: seq<Timer>, fate: Timer -> Fate)
    requires Ordered(q)
    ensures Ordered(Fired(q, fate))
  {
    if q != [] {
      var k := |q| - 1;
      FiredOrdered(q[..k], fate);
      forall i | 0 <= i < |Fired(q[..k], fate)| ensures Before(Fired(q[..k], fate)[i], q[k]) {
        FiredAre(q[..k], fate, Fired(q[..k], fate)[i]);
      }
    }
  }

  /** One operation and one listed timer: it stays listed until its time, and leaves and fires then. */
  lemma OneStep(s: State, op: Op, r: State, fired: seq<Timer>, e: Timer)
    requires Does(s, op, r, fired) && e.id < s.next
    ensures e.id < r.next && s.now <= r.now <= s.now + 1
    ensures e in s.timers ==> (e in r.timers <==> r.now < DueAt(e))
    ensures e !in s.timers ==> e !in r.timers
    ensures e in fired <==> e in s.timers && op.Interrupt? && r.now == DueAt(e) && Fires(e, op.fate)
  {
    hide Fired, Added, AllWithin, Within, Before;
    match op
    case Wanted(delta, task, memory) =>
      assert e in r.timers <==> e in multiset(r.timers);
      assert e in s.timers <==> e in multiset(s.timers);
    case Interrupt(fate, adds) =>
      var took, rest, more := Took(s), s.timers[|Took(s)|..], Added(fired, adds, r.now, s.next);
      AddedLater(fired, adds, r.now, s.next);
      FiredAre(took, fate, e);
      TookOrRest(s, e);
      assert e in r.timers <==> e in multiset(r.timers);
      assert e in r.timers <==> e in rest || e in more;
  }

  lemma TookOrRest(s: State, e: Timer)
    requires Sound(s)
    ensures e in s.timers <==> e in Took(s) || e in s.timers[|Took(s)|..]
    ensures e in Took(s) <==> e in s.timers && DueAt(e) == s.now + 1
    ensures e in s.timers[|Took(s)|..] <==> e in s.timers && DueAt(e) > s.now + 1
  {
    var k := |Took(s)|;
    assert s.timers == Took(s) + s.timers[k..];
    forall i | k <= i < |s.timers| ensures s.timers[i].deadline > s.now + 1 {
      assert i > k ==> Before(s.timers[k], s.timers[i]);
    }
  }

  /** Over any stretch of any run, a timer is listed exactly until its time. */
  lemma {:induction false} ListedUntilDue(trace: seq<State>, ops: seq<Op>, fired: seq<seq<Timer>>, i: nat, j: nat, e: Timer)
    requires IsRun(trace, ops, fired) && i <= j <= |ops| && e in trace[i].timers
    ensures e.id < trace[j].next && trace[i].now <= trace[j].now
    ensures e in trace[j].timers <==> trace[j].now < DueAt(e)
    decreases j
  {
    hide Does, Sound;
    if i == j {
      SoundListed(trace, ops, fired, i, e);
    } else {
      ListedUntilDue(trace, ops, fired, i, j - 1, e);
      assert Does(trace[j - 1], ops[j - 1], trace[j - 1 + 1], fired[j - 1]);
      OneStep(trace[j - 1], ops[j - 1], trace[j], fired[j - 1], e);
    }
  }

  lemma {:induction false} RunIsSound(trace: seq<State>, ops: seq<Op>, fired: seq<seq<Timer>>, k: nat)
    requires IsRun(trace, ops, fired) && k <= |ops|
    ensures Sound(trace[k])
  {
    if k > 0 {
      assert Does(trace[k - 1], ops[k - 1], trace[k - 1 + 1], fired[k - 1]);
    }
  }

  lemma SoundListed(trace: seq<State>, ops: seq<Op>, fired: seq<seq<Timer>>, k: nat, e: Timer)
    requires IsRun(trace, ops, fired) && k <= |ops| && e in trace[k].timers
    ensures e.id < trace[k].next && trace[k].now < DueAt(e)
  {
    RunIsSound(trace, ops, fired, k);
  }

  /** No timer fires early, late or twice: one that is listed at some moment of a run is fired by the first interrupt at or
      behind its deadline, if its task is there then, and by nothing else. */
  lemma FiresWhenDue(trace: seq<State>, ops: seq<Op>, fired: seq<seq<Timer>>, i: nat, k: nat, e: Timer)
    requires IsRun(trace, ops, fired) && i <= k < |ops| && e in trace[i].timers
    ensures e in fired[k] <==> ops[k].Interrupt? && trace[k + 1].now == DueAt(e) && (e.task < 0 || ops[k].fate(e) == Runs)
  {
    hide Does, Sound;
    ListedUntilDue(trace, ops, fired, i, k, e);
    assert Does(trace[k], ops[k], trace[k + 1], fired[k]);
    OneStep(trace[k], ops[k], trace[k + 1], fired[k], e);
    OneInterrupt(trace[k], ops[k], trace[k + 1], fired[k]);
  }

  lemma OneInterrupt(s: State, op: Op, r: State, fired: seq<Timer>)
    requires Does(s, op, r, fired)
    ensures r.now == s.now + (if op.Interrupt? then 1 else 0)
  {
  }

  /** And no timer is skipped: when its time has passed, that interrupt has been. */
  lemma {:induction false} NoneSkipped(trace: seq<State>, ops: seq<Op>, fired: seq<seq<Timer>>, i: nat, j: nat, e: Timer) returns (k: nat)
    requires IsRun(trace, ops, fired) && i <= j <= |ops| && e in trace[i].timers && DueAt(e) <= trace[j].now
    ensures i <= k < j && ops[k].Interrupt? && trace[k + 1].now == DueAt(e) && (e in fired[k] <==> e.task < 0 || ops[k].fate(e) == Runs)
    decreases j
  {
    hide Does, Sound;
    SoundListed(trace, ops, fired, i, e);
    assert Does(trace[j - 1], ops[j - 1], trace[j - 1 + 1], fired[j - 1]);
    OneInterrupt(trace[j - 1], ops[j - 1], trace[j], fired[j - 1]);
    if DueAt(e) <= trace[j - 1].now {
      k := NoneSkipped(trace, ops, fired, i, j - 1, e);
    } else {
      k := j - 1;
      FiresWhenDue(trace, ops, fired, i, k, e);
    }
  }

  /** What fires at one interrupt fires by deadline, and in order of creation where deadlines are equal. */
  lemma FiredInOrder(trace: seq<State>, ops: seq<Op>, fired: seq<seq<Timer>>, k: nat)
    requires IsRun(trace, ops, fired) && k < |ops|
    ensures Ordered(fired[k])
  {
    assert Does(trace[k], ops[k], trace[k + 1], fired[k]);
    if ops[k].Interrupt? {
      FiredOrdered(Took(trace[k]), ops[k].fate);
    }
  }

  /** A timer that a callback asks for, and whether there is memory for it. */
  datatype Request = Request(delta: int, task: int, memory: bool)

  predicate Positive(wanted: seq<Request>) {
    forall i | 0 <= i < |wanted| :: 0 < wanted[i].delta < TWO31
  }

  /** The slot of the task is empty (`events_check` skips the timer), or another task has it now (`event_fire` does). */
  datatype Fate = Ended | Replaced | Runs

  predicate Fires(e: Timer, fate: Timer -> Fate) {
    e.task < 0 || fate(e) == Runs
  }

  function Fired(q: seq<Timer>, fate: Timer -> Fate): (r: seq<Timer>) {
    if q == [] then []
    else
      var e := q[|q| - 1];
      Fired(q[..|q| - 1], fate) + (if Fires(e, fate) then [e] else [])
  }

  /** The first `k` due timers of `q` are done; the rest of `q` and what was `added` are still listed. */
  ghost predicate Checking(timers: seq<Timer>, q: seq<Timer>, now: nat, k: nat, added: multiset<Timer>) {
    && k <= Due(q, now) && Due(timers, now) == Due(q, now) - k && timers[..Due(timers, now)] == q[k..Due(q, now)]
    && multiset(timers) == multiset(q[k..]) + added && forall e | e in added :: e.deadline > now && e.asked == now
  }

  lemma CheckStart(q: seq<Timer>, now: nat, fate: Timer -> Fate)
    ensures Checking(q, q, now, 0, multiset{}) && Fired(q[..0], fate) == []
  {
  }

  lemma CheckStep(timers: seq<Timer>, q: seq<Timer>, now: nat, next: nat, k: nat, added: multiset<Timer>, fate: Timer -> Fate)
    requires Checking(timers, q, now, k, added) && Ordered(timers) && AllWithin(timers, now, next)
    requires timers != [] && Until(timers[0], now % TWO32) <= 0
    ensures k < Due(q, now) && Checking(timers[1..], q, now, k + 1, added)
    ensures Ordered(timers[1..]) && AllWithin(timers[1..], now, next)
    ensures Fired(q[..k + 1], fate) == Fired(q[..k], fate) + (if Fires(timers[0], fate) then [timers[0]] else [])
  {
    hide Until, Ordered, Due, Before, AllWithin, Fired;
    UntilListed(timers, now, next, 0);
    DueTail(timers, now);
    PrefixTail(timers, q, Due(timers, now), k, Due(q, now));
    BagTail(timers, q, k, added);
    FiredNext(q, k, fate);
    TailKeeps(timers, now, next);
  }

  lemma PrefixTail(a: seq<Timer>, q: seq<Timer>, m: nat, k: nat, d: nat)
    requires 0 < m <= |a| && k <= d <= |q| && a[..m] == q[k..d]
    ensures k < d && a[0] == q[k] && a[1..][..m - 1] == q[k + 1..d]
  {
  }

  lemma BagTail(a: seq<Timer>, q: seq<Timer>, k: nat, added: multiset<Timer>)
    requires a != [] && k < |q| && a[0] == q[k] && multiset(a) == multiset(q[k..]) + added
    ensures multiset(a[1..]) == multiset(q[k + 1..]) + added
  {
    assert a == [a[0]] + a[1..] && q[k..] == [q[k]] + q[k + 1..];
    assert multiset(a) == multiset{a[0]} + multiset(a[1..]);
    assert multiset(q[k..]) == multiset{q[k]} + multiset(q[k + 1..]);
    BagCancel(a[0], multiset(a[1..]), multiset(q[k + 1..]) + added);
  }

  lemma BagCancel(x: Timer, a: multiset<Timer>, b: multiset<Timer>)
    requires multiset{x} + a == multiset{x} + b
    ensures a == b
  {
    assert forall e :: a[e] == (multiset{x} + a)[e] - multiset{x}[e] && b[e] == (multiset{x} + b)[e] - multiset{x}[e];
  }

  lemma FiredNext(q: seq<Timer>, k: nat, fate: Timer -> Fate)
    requires k < |q|
    ensures Fired(q[..k + 1], fate) == Fired(q[..k], fate) + (if Fires(q[k], fate) then [q[k]] else [])
  {
    assert q[..k + 1][..k] == q[..k];
  }

  lemma DueTail(q: seq<Timer>, now: nat)
    requires q != [] && q[0].deadline <= now
    ensures Due(q, now) == 1 + Due(q[1..], now)
  {
  }

  lemma TailKeeps(q: seq<Timer>, now: nat, next: nat)
    requires q != [] && Ordered(q) && AllWithin(q, now, next)
    ensures Ordered(q[1..]) && AllWithin(q[1..], now, next)
  {
  }

  lemma CheckMore(mid: seq<Timer>, timers: seq<Timer>, q: seq<Timer>, now: nat, k: nat, added: seq<Timer>, more: seq<Timer>)
    requires Checking(mid, q, now, k, multiset(added)) && Due(timers, now) == Due(mid, now)
    requires timers[..Due(timers, now)] == mid[..Due(timers, now)] && multiset(timers) == multiset(mid) + multiset(more)
    requires forall e | e in more :: e.deadline > now && e.asked == now
    ensures Checking(timers, q, now, k, multiset(added + more))
  {
    hide Due;
    assert multiset(added + more) == multiset(added) + multiset(more);
  }

  lemma CheckEnd(timers: seq<Timer>, q: seq<Timer>, now: nat, next: nat, k: nat, added: multiset<Timer>)
    requires Checking(timers, q, now, k, added) && AllWithin(timers, now, next)
    requires timers == [] || Until(timers[0], now % TWO32) > 0
    ensures k == Due(q, now) && Due(timers, now) == 0
    ensures multiset(timers) == multiset(q[k..]) + added && forall e | e in added :: e.deadline > now && e.asked == now
  {
    if timers != [] {
      UntilIsTrue(timers[0], now);
    }
  }

  lemma UntilListed(q: seq<Timer>, now: nat, next: nat, k: nat)
    requires AllWithin(q, now, next) && k < |q|
    ensures Until(q[k], now % TWO32) == q[k].deadline - now
  {
  }

  lemma AddKeeps(q: seq<Timer>, now: nat, k: nat, e: Timer)
    requires Ordered(q) && AllWithin(q, now, e.id) && Within(e, now) && k <= |q|
    requires (forall i | 0 <= i < k :: q[i].deadline <= e.deadline) && (k < |q| ==> e.deadline < q[k].deadline)
    ensures var r := Inserted(q, k, e);
      && Ordered(r) && AllWithin(r, now, e.id + 1) && multiset(r) == multiset(q) + multiset{e}
      && (e.deadline > now ==> Due(r, now) == Due(q, now) && r[..Due(r, now)] == q[..Due(q, now)])
  {
    hide Ordered, Before, Due;
    InsertedOrdered(q, k, e);
    InsertedWithin(q, k, e, now, e.id + 1);
    if e.deadline > now {
      DueSame(q, k, e, now);
    }
  }

  lemma WithinNow(now: nat, delta: int, e: Timer)
    requires -TWO31 <= delta < TWO31 && e.time == (now % TWO32 + delta) % TWO32 && e.deadline == now + delta
    ensures Within(e, now)
  {
  }

  lemma InsertedWithin(q: seq<Timer>, k: nat, e: Timer, now: nat, next: nat)
    requires AllWithin(q, now, e.id) && k <= |q| && Within(e, now) && e.id < next
    ensures AllWithin(Inserted(q, k, e), now, next)
  {
  }

  /** A timer for later does not change what is due now. */
  lemma DueSame(q: seq<Timer>, k: nat, e: Timer, now: nat)
    requires k <= |q| && e.deadline > now && forall i | 0 <= i < k :: q[i].deadline <= e.deadline
    requires Ordered(q) && (k < |q| ==> e.deadline < q[k].deadline)
    ensures var r := Inserted(q, k, e); Due(r, now) == Due(q, now) && r[..Due(r, now)] == q[..Due(q, now)]
  {
  }
}
