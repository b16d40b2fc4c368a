/** Kernel objects: reference and handle counts against a ledger of open handles, address-space mappings
    and pins, and the handle transfer of a message copy with its roll-back. */
module Kobj {
  import opened Sequences

  const MAX_KOBJ: nat := 64 // handle slots per process

  datatype Inst = Inst(refCount: int, handleCount: int, stopped: bool, hasStop: bool, canConnect: bool)

  datatype Ref = Ref(uid: nat, inst: int)

  /** The two callbacks whose order matters: disable the device, then give up its resources. */
  datatype Event = Stopped(inst: int) | Freed(inst: int, hasStop: bool)

  /** `slots` holds the open handles by (process, index), `maps` the mappings by (process, address), `pins`
      the references taken across a call that may yield. */
  datatype State = State(insts: map<int, Inst>, slots: map<(int, int), Ref>, maps: map<(int, int), int>,
                         pins: map<int, int>, refUid: nat, log: seq<Event>)

  // ---------------------------------------------------------------- the ledger

  ghost function Handles(slots: map<(int, int), Ref>, i: int): set<(int, int)> {
    set h | h in slots && slots[h].inst == i
  }

  ghost function Mappings(maps: map<(int, int), int>, i: int): set<(int, int)> {
    set k | k in maps && maps[k] == i
  }

  ghost function Pins(pins: map<int, int>, i: int): set<int> {
    set p | p in pins && pins[p] == i
  }

  ghost predicate Backed(slots: map<(int, int), Ref>, i: int) { exists h :: h in slots && slots[h].inst == i }

  ghost predicate Mapped(maps: map<(int, int), int>, i: int) { exists k :: k in maps && maps[k] == i }

  ghost predicate Pinned(pins: map<int, int>, i: int) { exists p :: p in pins && pins[p] == i }

  /** The counters of an instance are exactly what the ledger holds. */
  ghost predicate Counted(s: State, i: int)
    requires i in s.insts
  {
    && s.insts[i].handleCount == |Handles(s.slots, i)|
    && s.insts[i].refCount == |Handles(s.slots, i)| + |Mappings(s.maps, i)| + |Pins(s.pins, i)|
  }

  /** A device is stopped exactly when its last handle is gone. */
  ghost predicate StopOk(s: State, i: int)
    requires i in s.insts
  {
    && (s.insts[i].stopped <==> Stopped(i) in s.log)
    && (s.insts[i].stopped ==> s.insts[i].hasStop && s.insts[i].handleCount == 0)
    && (s.insts[i].handleCount == 0 && s.insts[i].hasStop ==> s.insts[i].stopped)
  }

  predicate IsFreed(log: seq<Event>, i: int) { Freed(i, true) in log || Freed(i, false) in log }

  /** No callback runs twice for an instance, nothing follows its `Freed`, and what has a stop callback was stopped before. */
  ghost predicate LogOk(log: seq<Event>) {
    && (forall a, b | 0 <= a < b < |log| :: log[a] != log[b])
    && (forall a, b | 0 <= a < b < |log| && log[a].Freed? :: log[b].inst != log[a].inst)
    && (forall b | 0 <= b < |log| && log[b].Freed? && log[b].hasStop :: Stopped(log[b].inst) in log[..b])
  }

  /** No two references have the same uid, and the counter is beyond all of them. */
  ghost predicate UidsOk(slots: map<(int, int), Ref>, refUid: nat) {
    && (forall h | h in slots :: slots[h].uid < refUid)
    && (forall h, g | h in slots && g in slots && h != g :: slots[h].uid != slots[g].uid)
  }

  ghost predicate Inv(s: State) {
    && (forall i | i in s.insts :: Counted(s, i) && StopOk(s, i) && s.insts[i].refCount > 0 && !IsFreed(s.log, i))
    && (forall h | h in s.slots :: s.slots[h].inst in s.insts && 0 <= h.1 < MAX_KOBJ && s.slots[h].uid % 0x8000 != 0)
    && (forall k | k in s.maps :: s.maps[k] in s.insts)
    && (forall p | p in s.pins :: s.pins[p] in s.insts)
    && LogOk(s.log) && UidsOk(s.slots, s.refUid)
  }

  // ---------------------------------------------------------------- kobj.c

  /** `kobj_stop` */
  function Stop(s: State, i: int): (r: State)
    requires i in s.insts
  {
    if s.insts[i].stopped || !s.insts[i].hasStop then s
    else s.(insts := s.insts[i := s.insts[i].(stopped := true)], log := s.log + [Stopped(i)])
  }

  /** `free_kobj_inst` */
  function FreeInst(s: State, i: int): (r: State)
    requires i in s.insts
  {
    var t := Stop(s, i);
    t.(insts := t.insts - {i}, log := t.log + [Freed(i, s.insts[i].hasStop)])
  }

  /** `kobj_release_ref` */
  function ReleaseRef(s: State, i: int): (r: State)
    requires i in s.insts
  {
    var t := s.(insts := s.insts[i := s.insts[i].(refCount := s.insts[i].refCount - 1)]);
    if t.insts[i].refCount == 0 then FreeInst(t, i) else t
  }

  function AddRef(s: State, i: int): (r: State)
    requires i in s.insts
  {
    s.(insts := s.insts[i := s.insts[i].(refCount := s.insts[i].refCount + 1)])
  }

  /** `create_kobj_ref`: uids whose low 15 bits are zero are skipped. The counter is not bounded here; where the
      source's wraps, at 2^32, the low 15 bits go on as if it did not. */
  function NextUid(uid: nat): (r: nat)
    ensures r % 0x8000 != 0
  {
    if uid % 0x8000 == 0 then uid + 1 else uid
  }

  function OpenHandle(s: State, h: (int, int), i: int): (r: State)
    requires i in s.insts
  {
    var t := AddRef(s, i);
    var uid := NextUid(s.refUid);
    t.(insts := t.insts[i := t.insts[i].(handleCount := t.insts[i].handleCount + 1)],
       slots := t.slots[h := Ref(uid, i)], refUid := uid + 1)
  }

  /** `kobj_release` up to the point where the reference itself is given up: the handle is gone, and with the
      last handle the device is stopped. */
  function Closing(s: State, h: (int, int)): (r: State)
    requires h in s.slots && s.slots[h].inst in s.insts
  {
    var i := s.slots[h].inst;
    var n := s.insts[i].handleCount - 1;
    var t := s.(insts := s.insts[i := s.insts[i].(handleCount := n)], slots := s.slots - {h});
    if n == 0 then Stop(t, i) else t
  }

  function CloseHandle(s: State, h: (int, int)): (r: State)
    requires h in s.slots && s.slots[h].inst in s.insts
  {
    ReleaseRef(Closing(s, h), s.slots[h].inst)
  }

  // ---------------------------------------------------------------- the counts follow the ledger

  lemma InsertedCard<K>(a: set<K>, b: set<K>, x: K)
    requires x !in a && b == a + {x}
    ensures |b| == |a| + 1
  {
  }

  /** One more handle for `i`; the other instances keep theirs. */
  lemma HandleAdded(slots: map<(int, int), Ref>, h: (int, int), ref: Ref, j: int)
    requires h !in slots
    ensures |Handles(slots[h := ref], j)| == |Handles(slots, j)| + if j == ref.inst then 1 else 0
  {
    var more := slots[h := ref];
    if j == ref.inst {
      InsertedCard(Handles(slots, j), Handles(more, j), h);
    } else {
      assert Handles(more, j) == Handles(slots, j);
    }
  }

  lemma MappingAdded(maps: map<(int, int), int>, k: (int, int), i: int, j: int)
    requires k !in maps
    ensures |Mappings(maps[k := i], j)| == |Mappings(maps, j)| + if j == i then 1 else 0
  {
    var more := maps[k := i];
    if j == i {
      InsertedCard(Mappings(maps, j), Mappings(more, j), k);
    } else {
      assert Mappings(more, j) == Mappings(maps, j);
    }
  }

  lemma PinAdded(pins: map<int, int>, p: int, i: int, j: int)
    requires p !in pins
    ensures |Pins(pins[p := i], j)| == |Pins(pins, j)| + if j == i then 1 else 0
  {
    var more := pins[p := i];
    if j == i {
      InsertedCard(Pins(pins, j), Pins(more, j), p);
    } else {
      assert Pins(more, j) == Pins(pins, j);
    }
  }

  lemma UidsOpen(slots: map<(int, int), Ref>, refUid: nat, h: (int, int), uid: nat, i: int)
    requires UidsOk(slots, refUid) && refUid <= uid && h !in slots
    ensures UidsOk(slots[h := Ref(uid, i)], uid + 1)
  {
  }

  lemma UidsClose(slots: map<(int, int), Ref>, refUid: nat, h: (int, int))
    requires UidsOk(slots, refUid)
    ensures UidsOk(slots - {h}, refUid)
  {
  }

  lemma OpenKeepsInv(s: State, h: (int, int), i: int)
    requires Inv(s) && i in s.insts && h !in s.slots && 0 <= h.1 < MAX_KOBJ && (s.insts[i].handleCount > 0 || !s.insts[i].stopped)
    ensures Inv(OpenHandle(s, h, i))
  {
    hide Handles, Mappings, Pins, LogOk, UidsOk;
    var t := OpenHandle(s, h, i);
    UidsOpen(s.slots, s.refUid, h, NextUid(s.refUid), i);
    forall j | j in t.insts ensures Counted(t, j) && StopOk(t, j) {
      assert Counted(s, j) && StopOk(s, j);
      HandleAdded(s.slots, h, t.slots[h], j);
    }
  }

  lemma LogAppend(log: seq<Event>, e: Event)
    requires LogOk(log) && e !in log && !IsFreed(log, e.inst) && (e.Freed? && e.hasStop ==> Stopped(e.inst) in log)
    ensures LogOk(log + [e])
  {
    var r := log + [e];
    forall b | 0 <= b < |r| && r[b].Freed? && r[b].hasStop ensures Stopped(r[b].inst) in r[..b] {
      assert r[..b] == log[..b];
    }
  }

  lemma StoppedFreesNone(log: seq<Event>, i: int)
    ensures forall j :: IsFreed(log + [Stopped(i)], j) <==> IsFreed(log, j)
  {
  }

  /** Everything but the counts of `i`, which are ahead of the ledger by `extra` references. */
  ghost predicate Owing(s: State, i: int, extra: int) {
    && i in s.insts && s.insts[i].handleCount == |Handles(s.slots, i)|
    && s.insts[i].refCount == |Handles(s.slots, i)| + |Mappings(s.maps, i)| + |Pins(s.pins, i)| + extra
    && StopOk(s, i) && !IsFreed(s.log, i)
    && (forall j | j in s.insts && j != i :: Counted(s, j) && StopOk(s, j) && s.insts[j].refCount > 0 && !IsFreed(s.log, j))
    && (forall h | h in s.slots :: s.slots[h].inst in s.insts && 0 <= h.1 < MAX_KOBJ && s.slots[h].uid % 0x8000 != 0)
    && (forall k | k in s.maps :: s.maps[k] in s.insts)
    && (forall p | p in s.pins :: s.pins[p] in s.insts)
    && LogOk(s.log) && UidsOk(s.slots, s.refUid)
  }

  /** Giving up one owed reference frees the instance exactly when it was the last. */
  lemma ReleaseKeepsInv(s: State, i: int)
    requires Owing(s, i, 1)
    ensures Inv(ReleaseRef(s, i))
    ensures i !in ReleaseRef(s, i).insts <==> Handles(s.slots, i) == {} && Mappings(s.maps, i) == {} && Pins(s.pins, i) == {}
    ensures IsFreed(ReleaseRef(s, i).log, i) <==> i !in ReleaseRef(s, i).insts
  {
    var r := ReleaseRef(s, i);
    if s.insts[i].refCount == 1 {
      LastReference(s, i);
    } else {
      forall j | j in r.insts ensures Counted(r, j) && StopOk(r, j) {
        assert j != i ==> Counted(s, j) && StopOk(s, j);
      }
    }
  }

  lemma LastReference(s: State, i: int)
    requires Owing(s, i, 1) && s.insts[i].refCount == 1
    ensures Inv(ReleaseRef(s, i)) && i !in ReleaseRef(s, i).insts && IsFreed(ReleaseRef(s, i).log, i)
    ensures Handles(s.slots, i) == {} && Mappings(s.maps, i) == {} && Pins(s.pins, i) == {}
  {
    var t := s.(insts := s.insts[i := s.insts[i].(refCount := 0)]);
    var r := ReleaseRef(s, i);
    assert Handles(s.slots, i) == {} && Mappings(s.maps, i) == {} && Pins(s.pins, i) == {};
    assert s.insts[i].handleCount == 0;
    assert Stop(t, i) == t;
    LogAppend(s.log, Freed(i, s.insts[i].hasStop));
    forall j | j in r.insts ensures Counted(r, j) && StopOk(r, j) && !IsFreed(r.log, j) {
      assert Counted(s, j) && StopOk(s, j);
    }
    forall h | h in r.slots ensures r.slots[h].inst in r.insts {
      assert h !in Handles(s.slots, i);
    }
    forall k | k in r.maps ensures r.maps[k] in r.insts {
      assert k !in Mappings(s.maps, i);
    }
    forall p | p in r.pins ensures r.pins[p] in r.insts {
      assert p !in Pins(s.pins, i);
    }
  }

  /** Closing the last handle stops the device first. */
  lemma CloseOwes(s: State, h: (int, int))
    requires Inv(s) && h in s.slots
    ensures s.slots[h].inst in s.insts && Owing(Closing(s, h), s.slots[h].inst, 1)
  {
    hide Handles, Mappings, Pins, LogOk, IsFreed, UidsOk;
    var i, u, left := s.slots[h].inst, Closing(s, h), s.slots - {h};
    UidsClose(s.slots, s.refUid, h);
    assert Counted(s, i) && StopOk(s, i);
    assert left[h := s.slots[h]] == s.slots;
    HandleAdded(left, h, s.slots[h], i);
    if u.log != s.log {
      assert u.log == s.log + [Stopped(i)];
      LogAppend(s.log, Stopped(i));
      StoppedFreesNone(s.log, i);
    }
    forall j | j in u.insts && j != i
      ensures Counted(u, j) && StopOk(u, j) && u.insts[j].refCount > 0 && !IsFreed(u.log, j)
    {
      assert Counted(s, j) && StopOk(s, j);
      HandleAdded(left, h, s.slots[h], j);
    }
    assert u.insts.Keys == s.insts.Keys;
    assert StopOk(u, i);
  }

  lemma CloseKeepsInv(s: State, h: (int, int))
    requires Inv(s) && h in s.slots
    ensures s.slots[h].inst in s.insts && Inv(CloseHandle(s, h))
  {
    hide Inv, Owing, Closing;
    CloseOwes(s, h);
    ReleaseKeepsInv(Closing(s, h), s.slots[h].inst);
  }

  lemma MoreHandles(slots: map<(int, int), Ref>, h: (int, int), other: (int, int))
    requires h in slots && other in slots && other != h && slots[other].inst == slots[h].inst
    ensures |Handles(slots, slots[h].inst)| > 1
  {
    var all := Handles(slots, slots[h].inst);
    InsertedCard(all - {h}, all, h);
    assert other in all - {h};
  }

  /** While another handle is open, closing one touches nothing but the two counters. */
  lemma CloseQuietly(s: State, h: (int, int), other: (int, int))
    requires Inv(s) && h in s.slots && other in s.slots && other != h && s.slots[other].inst == s.slots[h].inst
    ensures s.slots[h].inst in s.insts
    ensures var i := s.slots[h].inst;
            CloseHandle(s, h) == s.(slots := s.slots - {h},
              insts := s.insts[i := s.insts[i].(handleCount := s.insts[i].handleCount - 1, refCount := s.insts[i].refCount - 1)])
  {
    hide Handles, Mappings, Pins, LogOk, UidsOk;
    var i := s.slots[h].inst;
    assert Counted(s, i) && StopOk(s, i);
    MoreHandles(s.slots, h, other);
  }

  // ---------------------------------------------------------------- mappings and pins

  function MapIn(s: State, k: (int, int), i: int): (r: State)
    requires i in s.insts
  {
    AddRef(s, i).(maps := s.maps[k := i])
  }

  function Unmap(s: State, k: (int, int)): (r: State)
    requires k in s.maps && s.maps[k] in s.insts
  {
    ReleaseRef(s.(maps := s.maps - {k}), s.maps[k])
  }

  function Pin(s: State, p: int, i: int): (r: State)
    requires i in s.insts
  {
    AddRef(s, i).(pins := s.pins[p := i])
  }

  function Unpin(s: State, p: int): (r: State)
    requires p in s.pins && s.pins[p] in s.insts
  {
    ReleaseRef(s.(pins := s.pins - {p}), s.pins[p])
  }

  lemma MapKeepsInv(s: State, k: (int, int), i: int)
    requires Inv(s) && i in s.insts && k !in s.maps
    ensures Inv(MapIn(s, k, i))
  {
    hide Handles, Mappings, Pins, LogOk, UidsOk;
    var t := MapIn(s, k, i);
    forall j | j in t.insts ensures Counted(t, j) && StopOk(t, j) {
      assert Counted(s, j) && StopOk(s, j);
      MappingAdded(s.maps, k, i, j);
    }
  }

  lemma PinKeepsInv(s: State, p: int, i: int)
    requires Inv(s) && i in s.insts && p !in s.pins
    ensures Inv(Pin(s, p, i))
  {
    hide Handles, Mappings, Pins, LogOk, UidsOk;
    var t := Pin(s, p, i);
    forall j | j in t.insts ensures Counted(t, j) && StopOk(t, j) {
      assert Counted(s, j) && StopOk(s, j);
      PinAdded(s.pins, p, i, j);
    }
  }

  lemma UnmapOwes(s: State, k: (int, int))
    requires Inv(s) && k in s.maps
    ensures Owing(s.(maps := s.maps - {k}), s.maps[k], 1)
  {
    var i, t := s.maps[k], s.(maps := s.maps - {k});
    hide Handles, Mappings, Pins, LogOk, UidsOk;
    assert Counted(s, i) && StopOk(s, i);
    assert t.maps[k := i] == s.maps;
    MappingAdded(t.maps, k, i, i);
    forall j | j in t.insts && j != i ensures Counted(t, j) && StopOk(t, j) {
      assert Counted(s, j) && StopOk(s, j);
      MappingAdded(t.maps, k, i, j);
    }
  }

  lemma UnmapKeepsInv(s: State, k: (int, int))
    requires Inv(s) && k in s.maps
    ensures s.maps[k] in s.insts && Inv(Unmap(s, k))
  {
    hide Inv;
    UnmapOwes(s, k);
    ReleaseKeepsInv(s.(maps := s.maps - {k}), s.maps[k]);
  }

  lemma UnpinOwes(s: State, p: int)
    requires Inv(s) && p in s.pins
    ensures Owing(s.(pins := s.pins - {p}), s.pins[p], 1)
  {
    var i, t := s.pins[p], s.(pins := s.pins - {p});
    hide Handles, Mappings, Pins, LogOk, UidsOk;
    assert Counted(s, i) && StopOk(s, i);
    assert t.pins[p := i] == s.pins;
    PinAdded(t.pins, p, i, i);
    forall j | j in t.insts && j != i ensures Counted(t, j) && StopOk(t, j) {
      assert Counted(s, j) && StopOk(s, j);
      PinAdded(t.pins, p, i, j);
    }
  }

  lemma UnpinKeepsInv(s: State, p: int)
    requires Inv(s) && p in s.pins
    ensures s.pins[p] in s.insts && Inv(Unpin(s, p))
  {
    hide Inv;
    UnpinOwes(s, p);
    ReleaseKeepsInv(s.(pins := s.pins - {p}), s.pins[p]);
  }

  // ---------------------------------------------------------------- handles

  /** A handle names a slot and carries the low bits of the reference's uid. */
  function HandleValue(k: nat, uid: nat): (h: nat) { k + 0x1_0000 * (uid % 0x8000) }

  /** `process_get_kobj`: the slot a handle names, or -1 for one that is malformed or stale. */
  function Lookup(s: State, p: int, h: int): (k: int)
    ensures k >= 0 ==> (p, k) in s.slots && k < MAX_KOBJ && h == HandleValue(k, s.slots[(p, k)].uid)
  {
    if h < 0 then -1
    else
      var k := h % 0x1_0000;
      if k >= MAX_KOBJ || (p, k) !in s.slots then -1
      else if h / 0x1_0000 != s.slots[(p, k)].uid % 0x8000 then -1
      else k
  }

  lemma LookupFinds(s: State, p: int, k: nat)
    requires k < MAX_KOBJ && (p, k) in s.slots
    ensures Lookup(s, p, HandleValue(k, s.slots[(p, k)].uid)) == k
  {
  }

  /** A bare index is never a valid handle. */
  lemma BareIndexRefused(s: State, p: int, k: nat)
    requires Inv(s) && k < 0x1_0000
    ensures Lookup(s, p, k) == -1
  {
  }

  /** `b` is the handle table `a` with new handles in the slots `got` of process `to`, each for an instance that
      `a` already had a handle for. */
  ghost predicate LentSlots(a: map<(int, int), Ref>, b: map<(int, int), Ref>, to: int, got: seq<int>) {
    && (forall h | h in a :: h in b && b[h] == a[h])
    && (forall h | h in b :: h in a || (h.0 == to && h.1 in got))
    && (forall j | 0 <= j < |got| :: (to, got[j]) in b && (to, got[j]) !in a && Backed(a, b[(to, got[j])].inst))
    && (forall x, y | 0 <= x < y < |got| :: got[x] != got[y])
  }

  ghost predicate SameButCounts(s0: State, s: State) {
    && s.maps == s0.maps && s.pins == s0.pins && s.log == s0.log && s.insts.Keys == s0.insts.Keys
    && (forall i | i in s0.insts :: s.insts[i] == s0.insts[i].(refCount := s.insts[i].refCount, handleCount := s.insts[i].handleCount))
  }

  /** Handles have been copied into slots `got` of process `to`, each from a handle that was open in `s0`; nothing
      else has happened. */
  ghost predicate Lent(s0: State, s: State, to: int, got: seq<int>) {
    Inv(s0) && Inv(s) && LentSlots(s0.slots, s.slots, to, got) && SameButCounts(s0, s)
  }

  /** With nothing left on loan, the ledger and therefore every counter is back to what it was. */
  lemma LentNothing(s0: State, s: State, to: int)
    requires Lent(s0, s, to, [])
    ensures s == s0.(refUid := s.refUid)
  {
    assert s.slots == s0.slots;
    forall i | i in s0.insts ensures s.insts[i] == s0.insts[i] {
      assert Counted(s, i) && Counted(s0, i);
    }
    assert s.insts == s0.insts;
  }

  lemma LentSlotsOpen(a: map<(int, int), Ref>, b: map<(int, int), Ref>, to: int, got: seq<int>, k: int, ref: Ref)
    requires LentSlots(a, b, to, got) && (to, k) !in b && Backed(a, ref.inst)
    ensures LentSlots(a, b[(to, k) := ref], to, got + [k])
  {
  }

  lemma LentOpen(s0: State, s: State, to: int, got: seq<int>, k: nat, i: int)
    requires Lent(s0, s, to, got) && i in s.insts && (to, k) !in s.slots && k < MAX_KOBJ && Backed(s0.slots, i)
    ensures Lent(s0, OpenHandle(s, (to, k), i), to, got + [k])
  {
    hide Inv, LentSlots;
    var r := OpenHandle(s, (to, k), i);
    BackedCounted(s0, s, to, got, i);
    OpenKeepsInv(s, (to, k), i);
    LentSlotsOpen(s0.slots, s.slots, to, got, k, r.slots[(to, k)]);
  }

  lemma BackedCounted(s0: State, s: State, to: int, got: seq<int>, i: int)
    requires Lent(s0, s, to, got) && Backed(s0.slots, i)
    ensures i in s.insts && s.insts[i].handleCount > 0
  {
    hide Handles, LogOk, UidsOk;
    var other :| other in s0.slots && s0.slots[other].inst == i;
    HandleCounted(s, other);
  }

  lemma HandleCounted(s: State, h: (int, int))
    requires Inv(s) && h in s.slots
    ensures s.slots[h].inst in s.insts && s.insts[s.slots[h].inst].handleCount > 0
  {
    var i := s.slots[h].inst;
    assert Counted(s, i) && h in Handles(s.slots, i);
  }

  lemma LentSlotsClose(a: map<(int, int), Ref>, b: map<(int, int), Ref>, to: int, got: seq<int>, x: nat)
    requires LentSlots(a, b, to, got) && x < |got|
    ensures LentSlots(a, b - {(to, got[x])}, to, Without(got, x))
  {
    var c, left := b - {(to, got[x])}, Without(got, x);
    assert forall j | 0 <= j < |left| :: left[j] == got[if j < x then j else j + 1];
    forall y | y in c ensures y in a || (y.0 == to && y.1 in left) {
      if y !in a {
        var j :| 0 <= j < |got| && got[j] == y.1;
        assert j != x;
        assert left[if j < x then j else j - 1] == y.1;
      }
    }
  }

  lemma LentBacking(a: map<(int, int), Ref>, b: map<(int, int), Ref>, to: int, got: seq<int>, x: nat) returns (other: (int, int))
    requires LentSlots(a, b, to, got) && x < |got|
    ensures (to, got[x]) in b && other in b && other != (to, got[x]) && b[other].inst == b[(to, got[x])].inst
  {
    assert Backed(a, b[(to, got[x])].inst);
    other :| other in a && a[other].inst == b[(to, got[x])].inst;
  }

  /** Taking one loan back. */
  lemma LentClose(s0: State, s: State, to: int, got: seq<int>, x: nat)
    requires Lent(s0, s, to, got) && x < |got|
    ensures (to, got[x]) in s.slots && s.slots[(to, got[x])].inst in s.insts
    ensures Lent(s0, CloseHandle(s, (to, got[x])), to, Without(got, x))
  {
    hide Inv, LentSlots, CloseHandle, Without;
    var h := (to, got[x]);
    var other := LentBacking(s0.slots, s.slots, to, got, x);
    CloseQuietly(s, h, other);
    CloseKeepsInv(s, h);
    LentSlotsClose(s0.slots, s.slots, to, got, x);
  }

  /** Whatever a handle of the sender resolves to was open before the copy began. */
  lemma SenderBacked(s0: State, s: State, to: int, got: seq<int>, from: int, h: int)
    requires Lent(s0, s, to, got)
    ensures Lookup(s, from, h) >= 0 ==> Backed(s0.slots, s.slots[(from, Lookup(s, from, h))].inst)
    ensures Lookup(s0, from, h) >= 0 ==> Lookup(s, from, h) == Lookup(s0, from, h)
  {
  }

  // ---------------------------------------------------------------- the kernel code

  /** What the environment answers for one copied handle: memory for the reference, and the object's own
      connect callback. */
  datatype Answer = Answer(memory: bool, connected: bool)

  datatype CopyStatus = Copied | SenderInvalid | ReceiverFull | ReceiverInvalid

  class Objects {
    var st: State

    /** `process_acquire_kobj`: the first free slot. */
    method Acquire(p: int, i: int, memory: bool) returns (h: int)
      requires Openable(st, i)
      modifies this
      ensures h >= 0 || old(Inv(st)) ==> Inv(st)
      ensures h < 0 <==> !memory || forall k | 0 <= k < MAX_KOBJ :: (p, k) in old(st).slots
      ensures h < 0 ==> h == -1 && st == old(st)
      ensures h >= 0 ==>
        var k := Lookup(st, p, h);
        && 0 <= k < MAX_KOBJ && (p, k) !in old(st).slots && (forall j | 0 <= j < k :: (p, j) in old(st).slots)
        && st == OpenHandle(old(st), (p, k), i)
    {
      var k: nat := 0;
      while k < MAX_KOBJ && (p, k) in st.slots
        invariant k <= MAX_KOBJ && forall j | 0 <= j < k :: (p, j) in st.slots
      {
        k := k + 1;
      }
      if k == MAX_KOBJ || !memory {
        return -1;
      }
      OpenableKeepsInv(st, (p, k), i);
      st := OpenHandle(st, (p, k), i);
      LookupFinds(st, p, k);
      h := HandleValue(k, st.slots[(p, k)].uid);
    }

    /** `process_release_kobj` */
    method Release(p: int, h: int) returns (ok: bool)
      requires Inv(st)
      modifies this
      ensures Inv(st) && (ok <==> Lookup(old(st), p, h) >= 0)
      ensures !ok ==> st == old(st)
      ensures ok ==>
        var slot := (p, Lookup(old(st), p, h));
        old(st).slots[slot].inst in old(st).insts && st == CloseHandle(old(st), slot)
    {
      var k := Lookup(st, p, h);
      if k < 0 {
        return false;
      }
      CloseKeepsInv(st, (p, k));
      st := CloseHandle(st, (p, k));
      return true;
    }

    /** `process_copy_kobj`: -1 when the sender's handle is stale or refuses, -2 when the receiver has no room. */
    method CopyKobj(from: int, to: int, handle: int, a: Answer, ghost s0: State, ghost got: seq<int>) returns (h: int)
      requires Inv(st) && Lent(s0, st, to, got)
      requires Lookup(st, from, handle) >= 0 ==> Backed(s0.slots, st.slots[(from, Lookup(st, from, handle))].inst)
      modifies this
      ensures h < 0 ==> (h == -1 || h == -2) && Lent(s0, st, to, got) && st.slots == old(st).slots
      ensures h == -1 <==> !Passable(old(st), from, handle) || (a.memory && FreeSlots(old(st), to) != {} && !a.connected)
      ensures h == -2 <==> Passable(old(st), from, handle) && (!a.memory || FreeSlots(old(st), to) == {})
      ensures h >= 0 ==>
        && Lookup(old(st), from, handle) >= 0 && Lookup(st, to, h) >= 0
        && (to, Lookup(st, to, h)) !in old(st).slots && Lent(s0, st, to, got + [Lookup(st, to, h)])
        && st.slots == old(st).slots[(to, Lookup(st, to, h)) := Ref(st.slots[(to, Lookup(st, to, h))].uid, old(st).slots[(from, Lookup(old(st), from, handle))].inst)]
    {
      hide Inv, Lent, Backed, OpenHandle;
      var k := Lookup(st, from, handle);
      if k < 0 {
        return -1;
      }
      var i := st.slots[(from, k)].inst;
      HandleCounted(st, (from, k));
      if !st.insts[i].canConnect {
        return -1;
      }
      h := Acquire(to, i, a.memory);
      if h < 0 {
        assert a.memory ==> FreeSlots(st, to) == {};
        return -2;
      }
      ghost var n := Lookup(st, to, h);
      assert n in FreeSlots(old(st), to);
      LentOpen(s0, old(st), to, got, n, i);
      OpenSlots(old(st), (to, n), i);
      if !a.connected {
        LentClose(s0, st, to, got + [n], |got|);
        CloseSlots(st, (to, n));
        assert Without(got + [n], |got|) == got;
        assert old(st).slots[(to, n) := st.slots[(to, n)]] - {(to, n)} == old(st).slots;
        var done := Release(to, h);
        return -1;
      }
    }

    /** `msg_free_handles` */
    method FreeHandles(p: int, hs: seq<int>, ghost s0: State, ghost got: seq<int>)
      requires Lent(s0, st, p, got) && |hs| == |got|
      requires forall j | 0 <= j < |hs| :: Lookup(st, p, hs[j]) == got[j]
      modifies this
      ensures st == s0.(refUid := st.refUid) && Inv(st)
    {
      hide Inv, Lent, CloseHandle, Backed;
      ghost var uids := st.slots;
      var j := 0;
      while j < |hs|
        invariant 0 <= j <= |hs| && Lent(s0, st, p, got[j..])
        invariant forall h | h in st.slots :: h in uids && st.slots[h] == uids[h]
      {
        LentParts(s0, st, p, got[j..]);
        assert (p, got[j..][0]) in st.slots;
        LookupSame(uids, st, p, hs[j], got[j]);
        LentClose(s0, st, p, got[j..], 0);
        CloseSlots(st, (p, got[j]));
        assert Without(got[j..], 0) == got[j + 1..];
        var ok := Release(p, hs[j]);
        j := j + 1;
      }
      assert got[j..] == [];
      LentNothing(s0, st, p);
      LentParts(s0, st, p, []);
    }

    /** The handle part of `msg_do_copy`. Either every handle arrives, each new one naming the same instance as
        the sender's, or the receiver's table and all counts are as before. */
    method CopyHandles(from: int, to: int, handles: seq<int>, answers: seq<Answer>, delivered: bool) returns (status: CopyStatus, out: seq<int>)
      requires Inv(st) && |answers| == |handles|
      modifies this
      ensures Inv(st)
      ensures !status.Copied? ==> st == old(st).(refUid := st.refUid) && out == []
      ensures status.SenderInvalid? ==> exists j | 0 <= j < |handles| ::
        && AllPass(old(st), from, to, handles, answers, j)
        && (!Passable(old(st), from, handles[j])
            || (answers[j].memory && j < |FreeSlots(old(st), to)| && !answers[j].connected))
      ensures status.ReceiverFull? ==> exists j | 0 <= j < |handles| ::
        && AllPass(old(st), from, to, handles, answers, j)
        && (from != to ==> Passable(old(st), from, handles[j])) && (!answers[j].memory || |FreeSlots(old(st), to)| == j)
      ensures status.ReceiverInvalid? || status.Copied? ==> AllPass(old(st), from, to, handles, answers, |handles|)
      ensures status.ReceiverInvalid? ==> !delivered
      ensures status.Copied? ==>
        && delivered && |out| == |handles|
        && (forall j | 0 <= j < |out| :: Lookup(st, to, out[j]) >= 0 && Arrived(old(st), st, from, to, handles[j], Lookup(st, to, out[j])))
        && Lent(old(st), st, to, SlotsOf(st, to, out))
    {
      hide Inv, Lent, Backed, OpenHandle, Arrived;
      ghost var s0 := st;
      ghost var got: seq<int> := [];
      out := [];
      LentStart(st, to);
      var i := 0;
      while i < |handles|
        invariant 0 <= i <= |handles| && |out| == |got| == i && Lent(s0, st, to, got) && s0 == old(st)
        invariant forall j | 0 <= j < i :: Lookup(st, to, out[j]) == got[j] && Arrived(s0, st, from, to, handles[j], got[j])
        invariant AllPass(s0, from, to, handles, answers, i)
      {
        LentParts(s0, st, to, got);
        SenderBacked(s0, st, to, got, from, handles[i]);
        ghost var before := st;
        var h := CopyKobj(from, to, handles[i], answers[i], s0, got);
        StillPassable(s0, before, to, got, from, handles[i]);
        FewSlots(s0, before, to, got);
        if h < 0 {
          FreeHandles(to, out, s0, got);
          return if h == -2 then ReceiverFull else SenderInvalid, [];
        }
        ghost var k := Lookup(st, to, h);
        forall j | 0 <= j < i ensures Lookup(st, to, out[j]) == got[j] && Arrived(s0, st, from, to, handles[j], got[j]) {
          StillArrived(s0, before, st, from, to, handles[j], got[j], out[j], k);
        }
        NewlyArrived(s0, before, st, from, to, got, handles[i], k);
        out := out + [h];
        got := got + [k];
        i := i + 1;
      }
      LentParts(s0, st, to, got);
      if !delivered {
        FreeHandles(to, out, s0, got);
        return ReceiverInvalid, [];
      }
      assert got == SlotsOf(st, to, out);
      return Copied, out;
    }
  }

  /** The sender's handle is open and its object can be passed on. */
  ghost predicate Passable(s: State, from: int, handle: int) {
    var k := Lookup(s, from, handle);
    k >= 0 && s.slots[(from, k)].inst in s.insts && s.insts[s.slots[(from, k)].inst].canConnect
  }

  ghost function FreeSlots(s: State, p: int): set<int> {
    set k: int | 0 <= k < MAX_KOBJ && (p, k) !in s.slots
  }

  lemma StillPassable(s0: State, s: State, to: int, got: seq<int>, from: int, handle: int)
    requires Lent(s0, s, to, got)
    ensures Passable(s0, from, handle) ==> Passable(s, from, handle)
    ensures from != to && Passable(s, from, handle) ==> Passable(s0, from, handle)
  {
    SenderBacked(s0, s, to, got, from, handle);
  }

  ghost function SlotsOf(s: State, p: int, hs: seq<int>): (ks: seq<int>) {
    seq(|hs|, j requires 0 <= j < |hs| => Lookup(s, p, hs[j]))
  }

  /** The first `n` handles can be passed on: each is open (unless the receiver's new handles answer for the
      sender's, as they may when it copies to itself), its object agrees, and there is memory and a free slot for it. */
  ghost predicate AllPass(s: State, from: int, to: int, handles: seq<int>, answers: seq<Answer>, n: nat)
    requires n <= |handles| == |answers|
  {
    && n <= |FreeSlots(s, to)|
    && forall j | 0 <= j < n :: (from != to ==> Passable(s, from, handles[j])) && answers[j].memory && answers[j].connected
  }

  lemma FewSlots(s0: State, s: State, to: int, got: seq<int>)
    requires Lent(s0, s, to, got)
    ensures |FreeSlots(s, to)| == |FreeSlots(s0, to)| - |got|
  {
    hide Inv, SameButCounts, Backed;
    var taken := set k | k in got;
    LentFree(s0, s, to, got);
    Members(got);
    assert FreeSlots(s, to) == FreeSlots(s0, to) - taken;
  }

  lemma LentFree(s0: State, s: State, to: int, got: seq<int>)
    requires Lent(s0, s, to, got)
    ensures forall k | k in got :: k in FreeSlots(s0, to)
    ensures forall k :: k in FreeSlots(s, to) <==> k in FreeSlots(s0, to) && k !in got
  {
    LentParts(s0, s, to, got);
    assert LentSlots(s0.slots, s.slots, to, got);
    FreeMeans(s0);
    FreeMeans(s);
    hide Inv, SameButCounts, Backed, FreeSlots;
  }

  lemma FreeMeans(s: State)
    ensures forall p, k :: k in FreeSlots(s, p) <==> 0 <= k < MAX_KOBJ && (p, k) !in s.slots
  {
  }

  lemma {:induction false} Members(q: seq<int>)
    requires forall x, y | 0 <= x < y < |q| :: q[x] != q[y]
    ensures |set x | x in q| == |q|
  {
    if q == [] {
      assert (set x | x in q) == {};
    } else {
      Members(q[1..]);
      assert q[0] !in q[1..];
      assert (set x | x in q) == (set x | x in q[1..]) + {q[0]};
    }
  }

  /** An instance that may get a handle: a live one that has not been stopped, or one that was created just now. */
  ghost predicate Openable(s: State, i: int) {
    && i in s.insts
    && ((Inv(s) && (s.insts[i].handleCount > 0 || !s.insts[i].stopped)) || Newborn(s, i))
  }

  /** `create_kobj_inst` has just been called: nothing refers to the instance yet. */
  ghost predicate Newborn(s: State, i: int)
    requires i in s.insts
  {
    var base := s.(insts := s.insts - {i});
    && s.insts[i].refCount == 0 && s.insts[i].handleCount == 0 && !s.insts[i].stopped
    && Inv(base) && NewInst(base, i)
  }

  lemma OpenableKeepsInv(s: State, h: (int, int), i: int)
    requires Openable(s, i) && h !in s.slots && 0 <= h.1 < MAX_KOBJ
    ensures Inv(OpenHandle(s, h, i))
  {
    hide Inv, OpenHandle;
    if Newborn(s, i) {
      var base := s.(insts := s.insts - {i});
      assert Fresh(base, i, s.insts[i].hasStop, s.insts[i].canConnect) == s;
      CreateKeepsInv(base, i, s.insts[i].hasStop, s.insts[i].canConnect, h);
    } else {
      OpenKeepsInv(s, h, i);
    }
  }

  /** Slot `k` of the receiver is new and names what the sender's handle named. */
  ghost predicate Arrived(s0: State, s: State, from: int, to: int, handle: int, k: int) {
    && (to, k) in s.slots && (to, k) !in s0.slots && Backed(s0.slots, s.slots[(to, k)].inst)
    && (Lookup(s0, from, handle) >= 0 ==> s.slots[(to, k)].inst == s0.slots[(from, Lookup(s0, from, handle))].inst)
  }

  lemma StillArrived(s0: State, s: State, r: State, from: int, to: int, handle: int, k: int, h: int, n: int)
    requires Arrived(s0, s, from, to, handle, k) && Lookup(s, to, h) == k >= 0
    requires (to, n) !in s.slots && (to, n) in r.slots && r.slots == s.slots[(to, n) := r.slots[(to, n)]]
    ensures Arrived(s0, r, from, to, handle, k) && Lookup(r, to, h) == k
  {
  }

  lemma NewlyArrived(s0: State, s: State, r: State, from: int, to: int, got: seq<int>, handle: int, n: int)
    requires Lent(s0, s, to, got) && Lookup(s, from, handle) >= 0 && (to, n) !in s.slots && (to, n) in r.slots
    requires r.slots[(to, n)].inst == s.slots[(from, Lookup(s, from, handle))].inst
    ensures Arrived(s0, r, from, to, handle, n)
  {
  }

  lemma LentStart(s: State, to: int)
    requires Inv(s)
    ensures Lent(s, s, to, [])
  {
  }

  lemma LentParts(s0: State, s: State, to: int, got: seq<int>)
    requires Lent(s0, s, to, got)
    ensures Inv(s) && Inv(s0) && s.maps == s0.maps && s.pins == s0.pins && s.log == s0.log
    ensures forall h | h in s0.slots :: h in s.slots && s.slots[h] == s0.slots[h]
    ensures forall j | 0 <= j < |got| :: (to, got[j]) in s.slots && (to, got[j]) !in s0.slots && 0 <= got[j] < MAX_KOBJ
  {
  }

  lemma OpenSlots(s: State, h: (int, int), i: int)
    requires i in s.insts
    ensures h in OpenHandle(s, h, i).slots && OpenHandle(s, h, i).slots == s.slots[h := Ref(OpenHandle(s, h, i).slots[h].uid, i)]
  {
  }

  lemma CloseSlots(s: State, h: (int, int))
    requires h in s.slots && s.slots[h].inst in s.insts
    ensures CloseHandle(s, h).slots == s.slots - {h}
  {
  }

  /** A handle still resolves while its slot is untouched. */
  lemma LookupSame(slots: map<(int, int), Ref>, s: State, p: int, h: int, k: int)
    requires (p, k) in slots && (p, k) in s.slots && slots[(p, k)] == s.slots[(p, k)]
    ensures k >= 0 ==> (Lookup(s, p, h) == k <==> h == HandleValue(k, slots[(p, k)].uid) && k < MAX_KOBJ)
    ensures forall t: State | t.slots == slots :: k >= 0 ==> (Lookup(t, p, h) == k <==> Lookup(s, p, h) == k)
  {
  }

  // ---------------------------------------------------------------- whole runs

  datatype Op =
    | Create(inst: int, hasStop: bool, canConnect: bool, slot: (int, int))
    | Abandon(inst: int, hasStop: bool) // created, but no handle could be opened
    | Open(slot: (int, int), inst: int)
    | Close(slot: (int, int))
    | Map(at: (int, int), inst: int)
    | Drop(at: (int, int))
    | Hold(pin: int, inst: int)
    | Let(pin: int)

  /** Instance numbers are never used twice; handles are duplicated from open ones; slots, addresses and pins are
      taken when free and given up when taken. */
  ghost predicate Enabled(s: State, op: Op) {
    match op
    case Create(i, _, _, h) => NewInst(s, i) && h !in s.slots && 0 <= h.1 < MAX_KOBJ
    case Abandon(i, _) => NewInst(s, i)
    case Open(h, i) => Backed(s.slots, i) && h !in s.slots && 0 <= h.1 < MAX_KOBJ
    case Close(h) => h in s.slots
    case Map(k, i) => i in s.insts && k !in s.maps
    case Drop(k) => k in s.maps
    case Hold(p, i) => i in s.insts && p !in s.pins
    case Let(p) => p in s.pins
  }

  ghost predicate NewInst(s: State, i: int) {
    i !in s.insts && Stopped(i) !in s.log && !IsFreed(s.log, i)
  }

  function Fresh(s: State, i: int, hasStop: bool, canConnect: bool): (r: State) {
    s.(insts := s.insts[i := Inst(0, 0, false, hasStop, canConnect)])
  }

  ghost function Apply(s: State, op: Op): (r: State)
    requires Inv(s) && Enabled(s, op)
  {
    match op
    case Create(i, hasStop, canConnect, h) => OpenHandle(Fresh(s, i, hasStop, canConnect), h, i)
    case Abandon(i, hasStop) => FreeInst(Fresh(s, i, hasStop, false), i)
    case Open(h, i) => if i in s.insts then OpenHandle(s, h, i) else s
    case Close(h) => CloseHandle(s, h)
    case Map(k, i) => MapIn(s, k, i)
    case Drop(k) => Unmap(s, k)
    case Hold(p, i) => Pin(s, p, i)
    case Let(p) => Unpin(s, p)
  }

  /** A new reference to `i` in slot `h`: its uid is the next one with check bits that are not zero. */
  ghost predicate NewRef(s: State, r: State, h: (int, int), i: int) {
    && 0 < r.refUid && r.slots == s.slots[h := Ref(r.refUid - 1, i)]
    && s.refUid < r.refUid && (r.refUid - 1) % 0x8000 != 0
    && (forall x | s.refUid <= x < r.refUid - 1 :: x % 0x8000 == 0)
  }

  /** `i` has lost one reference, and one handle if `handle` holds; `left` says whether anything still refers to it. */
  ghost predicate OneLess(s: State, r: State, i: int, handle: bool, left: bool) {
    i in s.insts &&
    var was := s.insts[i];
    var last := handle && was.handleCount == 1;
    && r.insts == (if left then s.insts[i := was.(refCount := was.refCount - 1,
                     handleCount := was.handleCount - (if handle then 1 else 0), stopped := was.stopped || (last && was.hasStop))]
                   else s.insts - {i})
    && r.log == s.log + (if last && was.hasStop then [Stopped(i)] else []) + (if left then [] else [Freed(i, was.hasStop)])
  }

  /** What each operation does to the ledger, as sets, and to the counters and callbacks: an instance goes when the
      last thing that refers to it does, and its device stops when the last handle does. */
  ghost predicate Ledger(s: State, op: Op, r: State) {
    match op
    case Create(i, hasStop, canConnect, h) =>
      && NewRef(s, r, h, i)
      && r == s.(slots := r.slots, refUid := r.refUid, insts := s.insts[i := Inst(1, 1, false, hasStop, canConnect)])
    case Abandon(i, hasStop) =>
      r == s.(log := s.log + (if hasStop then [Stopped(i)] else []) + [Freed(i, hasStop)])
    case Open(h, i) =>
      && NewRef(s, r, h, i) && i in s.insts
      && r == s.(slots := r.slots, refUid := r.refUid,
                 insts := s.insts[i := s.insts[i].(refCount := s.insts[i].refCount + 1, handleCount := s.insts[i].handleCount + 1)])
    case Close(h) =>
      h in s.slots &&
      var i := s.slots[h].inst;
      && i in s.insts && (Backed(s.slots - {h}, i) <==> s.insts[i].handleCount != 1)
      && OneLess(s, r, i, true, Backed(s.slots - {h}, i) || Mapped(s.maps, i) || Pinned(s.pins, i))
      && r == s.(slots := s.slots - {h}, insts := r.insts, log := r.log)
    case Map(k, i) =>
      i in s.insts && r == s.(maps := s.maps[k := i], insts := s.insts[i := s.insts[i].(refCount := s.insts[i].refCount + 1)])
    case Drop(k) =>
      k in s.maps &&
      var i := s.maps[k];
      && OneLess(s, r, i, false, Backed(s.slots, i) || Mapped(s.maps - {k}, i) || Pinned(s.pins, i))
      && r == s.(maps := s.maps - {k}, insts := r.insts, log := r.log)
    case Hold(p, i) =>
      i in s.insts && r == s.(pins := s.pins[p := i], insts := s.insts[i := s.insts[i].(refCount := s.insts[i].refCount + 1)])
    case Let(p) =>
      p in s.pins &&
      var i := s.pins[p];
      && OneLess(s, r, i, false, Backed(s.slots, i) || Mapped(s.maps, i) || Pinned(s.pins - {p}, i))
      && r == s.(pins := s.pins - {p}, insts := r.insts, log := r.log)
  }

  lemma NoneLeft(s: State, i: int)
    ensures Handles(s.slots, i) == {} <==> !Backed(s.slots, i)
    ensures Mappings(s.maps, i) == {} <==> !Mapped(s.maps, i)
    ensures Pins(s.pins, i) == {} <==> !Pinned(s.pins, i)
  {
    if Backed(s.slots, i) {
      var h :| h in s.slots && s.slots[h].inst == i;
      assert h in Handles(s.slots, i);
    } else {
      assert forall h | h in s.slots :: !(s.slots[h].inst == i);
      assert Handles(s.slots, i) == {};
    }
    if Mapped(s.maps, i) {
      var k :| k in s.maps && s.maps[k] == i;
      assert k in Mappings(s.maps, i);
    } else {
      assert forall k | k in s.maps :: !(s.maps[k] == i);
      assert Mappings(s.maps, i) == {};
    }
    if Pinned(s.pins, i) {
      var p :| p in s.pins && s.pins[p] == i;
      assert p in Pins(s.pins, i);
    } else {
      assert forall p | p in s.pins :: !(s.pins[p] == i);
      assert Pins(s.pins, i) == {};
    }
  }

  /** Giving up an owed reference frees exactly what nothing refers to any more. */
  lemma ReleaseDoes(s: State, i: int)
    requires Owing(s, i, 1)
    ensures var left := Backed(s.slots, i) || Mapped(s.maps, i) || Pinned(s.pins, i);
            ReleaseRef(s, i) ==
              if left then s.(insts := s.insts[i := s.insts[i].(refCount := s.insts[i].refCount - 1)])
              else s.(insts := s.insts - {i}, log := s.log + [Freed(i, s.insts[i].hasStop)])
  {
    hide Handles, Mappings, Pins, LogOk, UidsOk;
    NoneLeft(s, i);
    ReleaseKeepsInv(s, i);
    var t := s.(insts := s.insts[i := s.insts[i].(refCount := s.insts[i].refCount - 1)]);
    if t.insts[i].refCount == 0 {
      assert Stop(t, i) == t;
      assert t.insts - {i} == s.insts - {i};
    }
  }

  lemma HandlesLeft(s: State, h: (int, int))
    requires Inv(s) && h in s.slots
    ensures var i := s.slots[h].inst;
            && i in s.insts && !s.insts[i].stopped && s.insts[i].handleCount >= 1
            && (Backed(s.slots - {h}, i) <==> s.insts[i].handleCount != 1)
  {
    hide LogOk, UidsOk, Mappings, Pins;
    var i, left := s.slots[h].inst, s.slots - {h};
    assert Counted(s, i) && StopOk(s, i);
    assert left[h := s.slots[h]] == s.slots;
    HandleAdded(left, h, s.slots[h], i);
    NoneLeft(s.(slots := left), i);
  }

  lemma CloseDoes(s: State, h: (int, int))
    requires Inv(s) && h in s.slots
    ensures s.slots[h].inst in s.insts && Ledger(s, Close(h), CloseHandle(s, h))
  {
    hide Inv, Owing, ReleaseRef, Backed, Mapped, Pinned;
    HandlesLeft(s, h);
    var i, u := s.slots[h].inst, Closing(s, h);
    CloseOwes(s, h);
    ReleaseDoes(u, i);
    assert u.insts - {i} == s.insts - {i};
  }

  lemma DropDoes(s: State, k: (int, int))
    requires Inv(s) && k in s.maps
    ensures s.maps[k] in s.insts && Ledger(s, Drop(k), Unmap(s, k))
  {
    hide Inv, Handles, Mappings, Pins, LogOk, UidsOk, ReleaseRef;
    UnmapOwes(s, k);
    var i, u := s.maps[k], s.(maps := s.maps - {k});
    ReleaseDoes(u, i);
  }

  lemma LetDoes(s: State, p: int)
    requires Inv(s) && p in s.pins
    ensures s.pins[p] in s.insts && Ledger(s, Let(p), Unpin(s, p))
  {
    hide Inv, Handles, Mappings, Pins, LogOk, UidsOk, ReleaseRef;
    UnpinOwes(s, p);
    var i, u := s.pins[p], s.(pins := s.pins - {p});
    ReleaseDoes(u, i);
  }

  lemma AbandonDoes(s: State, i: int, hasStop: bool)
    requires NewInst(s, i)
    ensures Ledger(s, Abandon(i, hasStop), FreeInst(Fresh(s, i, hasStop, false), i))
  {
    assert FreeInst(Fresh(s, i, hasStop, false), i).insts == s.insts;
  }

  lemma ApplyDoes(s: State, op: Op)
    requires Inv(s) && Enabled(s, op)
    ensures Ledger(s, op, Apply(s, op))
  {
    hide Inv, CloseHandle, Unmap, Unpin, FreeInst, LogOk, UidsOk, Handles, OneLess;
    match op
    case Close(h) => CloseDoes(s, h);
    case Drop(k) => DropDoes(s, k);
    case Let(p) => LetDoes(s, p);
    case Abandon(i, hasStop) => AbandonDoes(s, i, hasStop);
    case Create(_, _, _, _) =>
    case Open(_, i) =>
      var other :| other in s.slots && s.slots[other].inst == i;
      HandleCounted(s, other);
    case Map(_, _) =>
    case Hold(_, _) =>
  }

  lemma CreateCounts(s: State, i: int, hasStop: bool, canConnect: bool, h: (int, int), j: int)
    requires Inv(s) && NewInst(s, i) && h !in s.slots
    requires j in s.insts || j == i
    ensures var t := OpenHandle(Fresh(s, i, hasStop, canConnect), h, i);
            j in t.insts && Counted(t, j) && StopOk(t, j) && t.insts[j].refCount > 0 && !IsFreed(t.log, j)
  {
    var t := OpenHandle(Fresh(s, i, hasStop, canConnect), h, i);
    NoEntries(s, i);
    hide LogOk, UidsOk, Handles, Mappings, Pins;
    HandleAdded(s.slots, h, t.slots[h], j);
    assert j != i ==> Counted(s, j) && StopOk(s, j);
  }

  lemma CreateKeepsInv(s: State, i: int, hasStop: bool, canConnect: bool, h: (int, int))
    requires Inv(s) && NewInst(s, i) && h !in s.slots && 0 <= h.1 < MAX_KOBJ
    ensures Inv(OpenHandle(Fresh(s, i, hasStop, canConnect), h, i))
  {
    hide LogOk, UidsOk, Counted, StopOk;
    var t := OpenHandle(Fresh(s, i, hasStop, canConnect), h, i);
    UidsOpen(s.slots, s.refUid, h, NextUid(s.refUid), i);
    forall j | j in t.insts ensures Counted(t, j) && StopOk(t, j) && t.insts[j].refCount > 0 && !IsFreed(t.log, j) {
      CreateCounts(s, i, hasStop, canConnect, h, j);
    }
  }

  lemma NoEntries(s: State, i: int)
    requires Inv(s) && i !in s.insts
    ensures Handles(s.slots, i) == {} && Mappings(s.maps, i) == {} && Pins(s.pins, i) == {}
  {
    hide Counted, StopOk, LogOk, UidsOk;
    assert forall h | h in s.slots :: s.slots[h].inst != i;
    assert forall k | k in s.maps :: s.maps[k] != i;
    assert forall p | p in s.pins :: s.pins[p] != i;
    assert Handles(s.slots, i) == {};
  }

  lemma AbandonKeepsInv(s: State, i: int, hasStop: bool)
    requires Inv(s) && NewInst(s, i)
    ensures Inv(FreeInst(Fresh(s, i, hasStop, false), i))
  {
    hide LogOk, UidsOk, Handles, Mappings, Pins;
    var t := Fresh(s, i, hasStop, false);
    var u := Stop(t, i);
    if hasStop {
      LogAppend(s.log, Stopped(i));
    }
    LogAppend(u.log, Freed(i, hasStop));
    var r := FreeInst(t, i);
    assert r.insts == s.insts;
    forall j | j in r.insts ensures Counted(r, j) && StopOk(r, j) && !IsFreed(r.log, j) {
      assert Counted(s, j) && StopOk(s, j);
    }
  }

  lemma ApplyKeepsInv(s: State, op: Op)
    requires Inv(s) && Enabled(s, op)
    ensures Inv(Apply(s, op))
  {
    hide Inv, Counted, StopOk;
    match op
    case Create(i, hasStop, canConnect, h) => CreateKeepsInv(s, i, hasStop, canConnect, h);
    case Abandon(i, hasStop) => AbandonKeepsInv(s, i, hasStop);
    case Open(h, i) =>
      var other :| other in s.slots && s.slots[other].inst == i;
      HandleCounted(s, other);
      OpenKeepsInv(s, h, i);
    case Close(h) => CloseKeepsInv(s, h);
    case Map(k, i) => MapKeepsInv(s, k, i);
    case Drop(k) => UnmapKeepsInv(s, k);
    case Hold(p, i) => PinKeepsInv(s, p, i);
    case Let(p) => UnpinKeepsInv(s, p);
  }

  /** A run is a sequence of states, each reached from the one before by an enabled operation. */
  ghost predicate IsRun(states: seq<State>, ops: seq<Op>) {
    && |states| == |ops| + 1 && Inv(states[0])
    && (forall k | 0 <= k < |ops| :: Inv(states[k]) ==> Enabled(states[k], ops[k]) && states[k + 1] == Apply(states[k], ops[k]))
  }

  /** In every state of every run the counters equal the ledger and the callbacks ran in order, and every step does
      to the ledger what its operation promises. */
  lemma {:induction false} RunKeepsLedger(states: seq<State>, ops: seq<Op>, k: nat)
    requires IsRun(states, ops) && k <= |ops|
    ensures Inv(states[k])
    ensures k < |ops| ==> Enabled(states[k], ops[k]) && Ledger(states[k], ops[k], states[k + 1])
  {
    hide Inv, Ledger;
    if k > 0 {
      RunKeepsLedger(states, ops, k - 1);
      ApplyKeepsInv(states[k - 1], ops[k - 1]);
    }
    if k < |ops| {
      ApplyDoes(states[k], ops[k]);
    }
  }

  // ---------------------------------------------------------------- stale handles

  ghost predicate Opens(op: Op, h: (int, int)) { (op.Create? || op.Open?) && op.slot == h }

  /** How many of the operations open a handle. */
  ghost function Opened(ops: seq<Op>): (n: nat) {
    if ops == [] then 0
    else Opened(ops[..|ops| - 1]) + if ops[|ops| - 1].Create? || ops[|ops| - 1].Open? then 1 else 0
  }

  /** How many uids below `uid` have check bits. */
  ghost function Serial(uid: nat): (n: int) { uid - (uid + 0x7FFF) / 0x8000 }

  /** Two references share their check bits exactly if a multiple of 2^15 - 1 references lie between them. */
  lemma SameCheckBits(u: nat, v: nat)
    requires u % 0x8000 != 0 && v % 0x8000 != 0
    ensures u % 0x8000 == v % 0x8000 <==> (Serial(v) - Serial(u)) % 0x7FFF == 0
    ensures u < v ==> Serial(u) < Serial(v)
    ensures Serial(u + 1) == Serial(u) + 1
  {
    var p, s, q, t := u / 0x8000, u % 0x8000, v / 0x8000, v % 0x8000;
    assert u == 0x8000 * p + s && v == 0x8000 * q + t;
    assert Serial(u) == 0x7FFF * p + s - 1 && Serial(v) == 0x7FFF * q + t - 1;
    assert (0x7FFF * (q - p) + (t - s)) % 0x7FFF == (t - s) % 0x7FFF;
  }

  lemma SerialStep(s: State, r: State, h: (int, int), i: int)
    requires NewRef(s, r, h, i)
    ensures Serial(r.refUid) == Serial(s.refUid) + 1
  {
    var u := r.refUid - 1;
    assert s.refUid % 0x8000 == 0 ==> (s.refUid + 1) % 0x8000 != 0;
    assert u <= s.refUid + 1;
    SameCheckBits(u, u);
    assert s.refUid < u ==> s.refUid % 0x8000 == 0 && Serial(u) == Serial(s.refUid);
  }

  /** What a step of a run does to the handle table. */
  ghost predicate Slotwise(s: State, op: Op, r: State) {
    && (op.Create? || op.Open? ==> NewRef(s, r, op.slot, op.inst) && 0 <= op.slot.1 < MAX_KOBJ)
    && (!op.Create? && !op.Open? ==> r.refUid == s.refUid && forall h | h in r.slots :: h in s.slots && r.slots[h] == s.slots[h])
    && (op.Close? ==> op.slot !in r.slots)
    && Ages(s, r)
  }

  ghost predicate Ages(s: State, r: State) {
    forall h | h in r.slots :: (h in s.slots && r.slots[h] == s.slots[h]) || s.refUid <= r.slots[h].uid
  }

  lemma RunSlotwise(states: seq<State>, ops: seq<Op>, k: nat)
    requires IsRun(states, ops) && k < |ops|
    ensures Slotwise(states[k], ops[k], states[k + 1])
  {
    hide Inv, OneLess, IsRun, Backed, Mapped, Pinned;
    RunKeepsLedger(states, ops, k);
  }

  lemma StepSerial(s: State, op: Op, r: State)
    requires Slotwise(s, op, r)
    ensures Serial(r.refUid) == Serial(s.refUid) + (if op.Create? || op.Open? then 1 else 0)
    ensures s.refUid <= r.refUid
  {
    if op.Create? || op.Open? {
      SerialStep(s, r, op.slot, op.inst);
    }
  }

  lemma RunLength(states: seq<State>, ops: seq<Op>)
    requires IsRun(states, ops)
    ensures |states| == |ops| + 1
  {
  }

  lemma OpenedStep(ops: seq<Op>, a: nat, m: nat)
    requires a < m <= |ops|
    ensures Opened(ops[a..m]) == Opened(ops[a..m - 1]) + if ops[m - 1].Create? || ops[m - 1].Open? then 1 else 0
  {
    assert ops[a..m][..m - 1 - a] == ops[a..m - 1];
  }

  /** Along a run references only become more, by one for each handle that is opened. */
  lemma {:induction false} SerialsCount(states: seq<State>, ops: seq<Op>, a: nat, m: nat)
    requires IsRun(states, ops) && a <= m <= |ops|
    ensures |states| == |ops| + 1
    ensures Serial(states[m].refUid) == Serial(states[a].refUid) + Opened(ops[a..m])
    ensures states[a].refUid <= states[m].refUid
  {
    RunLength(states, ops);
    hide IsRun, Serial, Slotwise;
    if a == m {
      assert ops[a..m] == [];
    } else {
      OpenedStep(ops, a, m);
      SerialsCount(states, ops, a, m - 1);
      RunSlotwise(states, ops, m - 1);
      StepSerial(states[m - 1], ops[m - 1], states[m]);
    }
  }

  lemma RunAges(states: seq<State>, ops: seq<Op>, k: nat)
    requires IsRun(states, ops) && k < |ops|
    ensures |states| == |ops| + 1 && Ages(states[k], states[k + 1])
  {
    RunSlotwise(states, ops, k);
  }

  /** What a slot holds was there before or has a newer uid. */
  lemma {:induction false} SlotsAge(states: seq<State>, ops: seq<Op>, b: nat, m: nat, h: (int, int))
    requires IsRun(states, ops) && b <= m <= |ops|
    ensures |states| == |ops| + 1
    ensures h in states[m].slots ==>
      (h in states[b].slots && states[b].slots[h] == states[m].slots[h]) || states[b].refUid <= states[m].slots[h].uid
  {
    RunLength(states, ops);
    hide IsRun, Serial, Slotwise, Opened;
    if b < m {
      SlotsAge(states, ops, b, m - 1, h);
      SerialsCount(states, ops, b, m - 1);
      RunAges(states, ops, m - 1);
    }
  }

  /** The reference that a step of a run opens. */
  lemma OpenedRef(states: seq<State>, ops: seq<Op>, a: nat, h: (int, int))
    requires IsRun(states, ops) && a < |ops| && Opens(ops[a], h)
    ensures |states| == |ops| + 1 && h in states[a + 1].slots && 0 <= h.1 < MAX_KOBJ
    ensures var u := states[a + 1].slots[h].uid;
            u % 0x8000 != 0 && u + 1 == states[a + 1].refUid && Serial(u) + 1 == Serial(states[a + 1].refUid)
  {
    RunLength(states, ops);
    hide IsRun;
    RunSlotwise(states, ops, a);
    var u := states[a + 1].slots[h].uid;
    SameCheckBits(u, u);
  }

  /** A slot answers to a handle value exactly if its uid has the check bits of the value. */
  lemma LookupOf(s: State, h: (int, int), uid: nat)
    requires 0 <= h.1 < MAX_KOBJ
    ensures Lookup(s, h.0, HandleValue(h.1, uid)) == if h in s.slots && s.slots[h].uid % 0x8000 == uid % 0x8000 then h.1 else -1
  {
  }

  /** What is in the slot of a closed handle has a newer uid. */
  lemma NewerRef(states: seq<State>, ops: seq<Op>, a: nat, b: nat, m: nat, h: (int, int))
    requires IsRun(states, ops) && a < b < m <= |ops| && ops[b] == Close(h) && |states| == |ops| + 1
    ensures h in states[m].slots ==> states[a + 1].refUid <= states[m].slots[h].uid < states[m].refUid
  {
    if h in states[m].slots {
      UidBelow(states, ops, m, h);
      hide IsRun, Serial;
      SerialsCount(states, ops, a + 1, b + 1);
      RunSlotwise(states, ops, b);
      SlotsAge(states, ops, b + 1, m, h);
    }
  }

  lemma UidBelow(states: seq<State>, ops: seq<Op>, m: nat, h: (int, int))
    requires IsRun(states, ops) && m <= |ops| && |states| == |ops| + 1 && h in states[m].slots
    ensures states[m].slots[h].uid < states[m].refUid
  {
    RunKeepsLedger(states, ops, m);
    hide Ledger, Counted, LogOk, IsRun;
  }

  /** Between references with the same check bits lie at least 2^15 - 1 others. */
  lemma FarApart(u: nat, v: nat, n: nat)
    requires u % 0x8000 == v % 0x8000 != 0 && u < v < n
    ensures Serial(n) >= Serial(u + 1) + 0x7FFF
  {
    SameCheckBits(u, v);
  }

  /** A handle that was closed is refused until at least 2^15 - 1 others have been opened, whatever is in its slot
      by then. */
  lemma StaleHandleRefused(states: seq<State>, ops: seq<Op>, a: nat, b: nat, m: nat, h: (int, int))
    requires IsRun(states, ops) && a < b < m <= |ops| && Opens(ops[a], h) && ops[b] == Close(h)
    ensures |states| == |ops| + 1 && h in states[a + 1].slots && h.1 >= 0
    ensures Opened(ops[a + 1..m]) < 0x7FFF ==> Lookup(states[m], h.0, HandleValue(h.1, states[a + 1].slots[h].uid)) == -1
  {
    hide Lookup, HandleValue, IsRun, Serial;
    OpenedRef(states, ops, a, h);
    var u := states[a + 1].slots[h].uid;
    LookupOf(states[m], h, u);
    NewerRef(states, ops, a, b, m, h);
    SerialsCount(states, ops, a + 1, m);
    if h in states[m].slots && states[m].slots[h].uid % 0x8000 == u % 0x8000 {
      FarApart(u, states[m].slots[h].uid, states[m].refUid);
    }
  }

  /** A later handle in the same slot answers to the old one exactly if a multiple of 2^15 - 1 handles was opened
      from the one to the other. */
  lemma HandleComesRound(states: seq<State>, ops: seq<Op>, a: nat, c: nat, m: nat, h: (int, int))
    requires IsRun(states, ops) && a < c < m <= |ops| && Opens(ops[a], h) && Opens(ops[c], h)
    requires |states| == |ops| + 1
    requires h in states[c + 1].slots && h in states[m].slots && states[m].slots[h].uid == states[c + 1].slots[h].uid
    ensures h in states[a + 1].slots && h.1 >= 0
    ensures Lookup(states[m], h.0, HandleValue(h.1, states[a + 1].slots[h].uid))
            == if Opened(ops[a + 1..c + 1]) % 0x7FFF == 0 then h.1 else -1
  {
    hide Lookup, HandleValue, IsRun, Serial;
    OpenedRef(states, ops, a, h);
    OpenedRef(states, ops, c, h);
    var u, v := states[a + 1].slots[h].uid, states[m].slots[h].uid;
    LookupOf(states[m], h, u);
    SerialsCount(states, ops, a + 1, c + 1);
    SameCheckBits(u, v);
  }
}
