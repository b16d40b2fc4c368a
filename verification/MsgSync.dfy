/**
 * Synchronous message passing (`msg.c`): `msg_call`, `msg_receive`, `msg_reply`, and every way a connection, a port
 * or a thread can go away underneath them.
 *
 * Threads, channels and ports are named by their uids.  A thread's `pause` carries, beside the reason the kernel
 * stores, the channel or waiter slot it is paused on, and `calls` and `results` record how often it paused in a call
 * and what each call returned: no step branches on any of these.
 */
module MsgSync {
  import opened Sequences
  import opened MsgCodes

  const NONE: int := -1
  const MAX_TASK_THREADS := 4
  const MSG_MAX_CHANNELS := 16
  const TASK_MAX_CHANNELS := 16
  const PROCESS_MAX_PORTS := 16

  /** A thread is `Waiting` until one of its wakers resumes it, `Elsewhere` when who resumes it looks at the reason. */
  datatype Pause = Running | InCall(via: int) | InReceive(port: int, slot: int) | Waiting | Elsewhere

  /** `wakers` are the pipes, timers and so on that still have this thread on record, and will resume it whatever it is
      paused for by then. */
  datatype Task = Task(alive: bool, process: int, pause: Pause, ebx: int, channels: seq<int>, calls: nat, results: seq<int>,
    wakers: set<int>)

  /** `stored` is "the channel holds a send nobody has received", `callUid` the call being served, 0 for none. */
  datatype Channel = Channel(port: int, client: int, server: int, serverUp: bool, clientUp: bool, stored: bool, callUid: int)

  datatype Waiter = Waiter(active: bool, task: int)

  datatype Port = Port(process: int, owner: int, slots: seq<int>, waiters: seq<Waiter>)

  datatype State = State(
    tasks: map<int, Task>, channels: map<int, Channel>, ports: map<int, Port>, owned: map<int, seq<int>>,
    nextCall: int, nextChannel: int, nextPort: int)

  /** `msg_get_task` */
  predicate Alive(tasks: map<int, Task>, t: int) {
    t in tasks && tasks[t].alive
  }

  predicate Recorded(ch: Channel) {
    ch.stored || ch.callUid != 0
  }

  // ---------------------------------------------------------------- the invariant

  /** A live thread paused in a call has exactly one record on its channel, and has had one result for every call
      but the one it is in. */
  ghost predicate CallOk(s: State, t: int)
    requires t in s.tasks
  {
    var k := s.tasks[t];
    match k.pause
    case InCall(c) =>
      && |k.results| + 1 == k.calls
      && c in s.channels && s.channels[c].client == t && s.channels[c].clientUp && s.channels[c].serverUp
      && (s.channels[c].stored <==> s.channels[c].callUid == 0)
    case _ => |k.results| == k.calls
  }

  /** A live thread paused in a receive has an active waiter slot. */
  ghost predicate ReceiveOk(s: State, t: int)
    requires t in s.tasks
  {
    match s.tasks[t].pause
    case InReceive(p, i) =>
      && p in s.ports && s.ports[p].process == s.tasks[t].process
      && 0 <= i < |s.ports[p].waiters| && s.ports[p].waiters[i] == Waiter(true, t)
    case _ => true
  }

  /** The thread's list of channels has no dangling entries. */
  ghost predicate ListOk(s: State, t: int)
    requires t in s.tasks
  {
    && Distinct(s.tasks[t].channels)
    && (forall c | c in s.tasks[t].channels :: c in s.channels && s.channels[c].client == t)
  }

  ghost predicate Listed(s: State, c: int)
    requires c in s.channels
  {
    s.channels[c].clientUp ==> s.channels[c].client in s.tasks && c in s.tasks[s.channels[c].client].channels
  }

  /** A record belongs to a thread paused in a call on this very channel, unless that thread has just died. */
  ghost predicate RecordOk(s: State, c: int)
    requires c in s.channels
  {
    var ch := s.channels[c];
    && 0 <= ch.callUid < s.nextCall
    && (Recorded(ch) ==> ch.clientUp && ch.serverUp)
    && (Recorded(ch) && Alive(s.tasks, ch.client) ==> s.tasks[ch.client].pause == InCall(c))
  }

  ghost predicate PlaceOk(s: State, c: int)
    requires c in s.channels
  {
    var ch := s.channels[c];
    && 0 <= c < s.nextChannel && (ch.clientUp || ch.serverUp) && ch.client != ch.server
    && ch.port in s.ports && s.ports[ch.port].owner == ch.server && c in s.ports[ch.port].slots
  }

  /** The slots of a port hold its channels, each once. */
  ghost predicate SlotsOk(s: State, p: int)
    requires p in s.ports
  {
    && (forall i | 0 <= i < |s.ports[p].slots| ::
          s.ports[p].slots[i] != NONE ==> s.ports[p].slots[i] in s.channels && s.channels[s.ports[p].slots[i]].port == p)
    && (forall i, j | 0 <= i < j < |s.ports[p].slots| :: s.ports[p].slots[i] == s.ports[p].slots[j] ==> s.ports[p].slots[i] == NONE)
  }

  /** A waiting thread is one of the port's own process. */
  ghost predicate WaiterOk(tasks: map<int, Task>, port: Port, t: int, at: Pause) {
    t in tasks && tasks[t].process == port.process && (tasks[t].alive ==> tasks[t].pause == at)
  }

  /** No live thread has a second active waiter slot, nor one it is not paused on; the owner is of the port's process. */
  ghost predicate WaitersOk(s: State, p: int)
    requires p in s.ports
  {
    && |s.ports[p].waiters| == MAX_TASK_THREADS
    && s.ports[p].owner in s.tasks && s.tasks[s.ports[p].owner].process == s.ports[p].process
    && (forall i | 0 <= i < |s.ports[p].waiters| && s.ports[p].waiters[i].active ::
          WaiterOk(s.tasks, s.ports[p], s.ports[p].waiters[i].task, InReceive(p, i)))
  }

  /** A stored send and a waiting receiver never miss each other. */
  ghost predicate MetOk(s: State, c: int)
    requires c in s.channels
  {
    (s.channels[c].stored && Alive(s.tasks, s.channels[c].client) && s.channels[c].port in s.ports)
    ==> NobodyWaits(s.tasks, s.ports[s.channels[c].port].waiters)
  }

  ghost predicate NobodyWaits(tasks: map<int, Task>, ws: seq<Waiter>) {
    forall i | 0 <= i < |ws| :: ws[i].active ==> !Alive(tasks, ws[i].task)
  }

  ghost predicate TasksOk(s: State) {
    forall t | t in s.tasks && s.tasks[t].alive :: t != NONE && CallOk(s, t) && ReceiveOk(s, t) && ListOk(s, t)
  }

  ghost predicate ChannelsOk(s: State, x: int) {
    forall c | c in s.channels :: RecordOk(s, c) && PlaceOk(s, c) && MetOk(s, c) && (c != x ==> Listed(s, c))
  }

  ghost predicate PortsOk(s: State) {
    forall p | p in s.ports :: SlotsOk(s, p) && WaitersOk(s, p) && 0 <= p < s.nextPort
  }

  /** The process lists hold every port once, under its own process. */
  ghost predicate OwnedOk(ports: map<int, Port>, owned: map<int, seq<int>>) {
    && (forall p | p in ports :: ports[p].process in owned && p in owned[ports[p].process])
    && (forall r | r in owned :: Distinct(owned[r]) && forall p | p in owned[r] :: p in ports && ports[p].process == r)
  }

  /** No two channels serve the same call. */
  ghost predicate UidsOk(s: State) {
    forall c, d | c in s.channels && d in s.channels && s.channels[c].callUid == s.channels[d].callUid != 0 :: c == d
  }

  /** Everything but the process lists, except that the client of channel `x` may have struck it from its list. */
  ghost predicate Core(s: State, x: int) {
    TasksOk(s) && ChannelsOk(s, x) && PortsOk(s) && UidsOk(s) && s.nextCall > 0 && s.nextChannel >= 0 && s.nextPort >= 0
  }

  ghost predicate Inv(s: State) { Core(s, NONE) && OwnedOk(s.ports, s.owned) }

  ghost predicate SamePorts(s: State, r: State) {
    && r.owned == s.owned && r.ports.Keys == s.ports.Keys
    && (forall p | p in s.ports :: r.ports[p].process == s.ports[p].process && r.ports[p].owner == s.ports[p].owner)
  }

  lemma OwnedSame(s: State, r: State)
    requires OwnedOk(s.ports, s.owned) && SamePorts(s, r)
    ensures OwnedOk(r.ports, r.owned)
  {
  }

  /** A thread in a call: its channel is the only one in the system with a record of it. */
  lemma OneRecord(s: State, t: int, c: int)
    requires Inv(s) && Alive(s.tasks, t) && s.tasks[t].pause.InCall? && c in s.channels
    ensures s.channels[c].client == t && Recorded(s.channels[c]) <==> c == s.tasks[t].pause.via
    ensures c == s.tasks[t].pause.via ==> (s.channels[c].stored <==> s.channels[c].callUid == 0)
  {
  }

  /** A thread in a receive: its slot is the only active one in the system that names it. */
  lemma OneWaiter(s: State, t: int, p: int, i: int)
    requires Inv(s) && Alive(s.tasks, t) && s.tasks[t].pause.InReceive? && p in s.ports && 0 <= i < |s.ports[p].waiters|
    ensures s.ports[p].waiters[i] == Waiter(true, t) <==> s.tasks[t].pause == InReceive(p, i)
  {
  }

  // ---------------------------------------------------------------- what a step may do to a thread

  ghost predicate Prefix(a: seq<int>, b: seq<int>) {
    |a| <= |b| && a == b[..|a|]
  }

  /** Results are only ever added, nobody but `who` starts a call, and the dead stay dead.  With `Inv` on both sides:
      a thread leaves a call exactly when it is given one result. */
  ghost predicate Step(s: State, r: State, who: int) {
    && r.tasks.Keys == s.tasks.Keys && r.owned.Keys == s.owned.Keys
    && forall t | t in s.tasks ::
      && t in r.tasks && r.tasks[t].process == s.tasks[t].process && r.tasks[t].wakers == s.tasks[t].wakers
      && (r.tasks[t].pause == s.tasks[t].pause || r.tasks[t].pause == Running || (t == who && who != NONE))
      && (r.tasks[t].alive ==> s.tasks[t].alive)
      && Prefix(s.tasks[t].results, r.tasks[t].results)
      && (t != who || who == NONE ==> s.tasks[t].calls == r.tasks[t].calls && (s.tasks[t].alive ==> r.tasks[t].alive))
  }

  lemma StepTrans(s: State, r: State, u: State, who: int)
    requires Step(s, r, who) && Step(r, u, who)
    ensures Step(s, u, who)
  {
  }

  /** The exactly-once law: across any step, a thread that was in a call and was not ended is either still in that
      very call with no new result, or has left it with exactly one. */
  lemma ResumedOnce(s: State, r: State, who: int, t: int)
    requires Inv(s) && Inv(r) && Step(s, r, who) && t != who && Alive(s.tasks, t)
    ensures Alive(r.tasks, t)
    ensures s.tasks[t].pause.InCall? && !r.tasks[t].pause.InCall? ==> |r.tasks[t].results| == |s.tasks[t].results| + 1
    ensures s.tasks[t].pause.InCall? && r.tasks[t].pause.InCall? ==> r.tasks[t].results == s.tasks[t].results
    ensures !s.tasks[t].pause.InCall? ==> !r.tasks[t].pause.InCall? && r.tasks[t].results == s.tasks[t].results
  {
  }

  // ---------------------------------------------------------------- primitive changes

  function Resume(s: State, t: int, ebx: int): (r: State)
    requires t in s.tasks
  {
    s.(tasks := s.tasks[t := s.tasks[t].(pause := Running, ebx := ebx)])
  }

  /** A call comes back: the record goes, the client runs on with `code`. */
  function Finish(s: State, c: int, code: int): (r: State)
    requires c in s.channels && s.channels[c].client in s.tasks
  {
    var t := s.channels[c].client;
    s.(channels := s.channels[c := s.channels[c].(stored := false, callUid := 0)],
       tasks := s.tasks[t := s.tasks[t].(pause := Running, ebx := code, results := s.tasks[t].results + [code])])
  }

  /** A call starts on `c`: its send stored, or served at once as `uid`. */
  function Begin(s: State, t: int, c: int, stored: bool, uid: int): (r: State)
    requires t in s.tasks && c in s.channels
  {
    s.(channels := s.channels[c := s.channels[c].(stored := stored, callUid := uid)],
       tasks := s.tasks[t := s.tasks[t].(pause := InCall(c), calls := s.tasks[t].calls + 1)])
  }

  /** A stored send is handed to a receiver as call `uid`; or, with 0, the record of a dead client is dropped. */
  function Serve(s: State, c: int, uid: int): (r: State)
    requires c in s.channels
  {
    s.(channels := s.channels[c := s.channels[c].(stored := false, callUid := uid)])
  }

  function Tick(s: State): (r: State) { s.(nextCall := s.nextCall + 1) }

  function SetWaiter(s: State, p: int, i: int, w: Waiter): (r: State)
    requires p in s.ports && 0 <= i < |s.ports[p].waiters|
  {
    s.(ports := s.ports[p := s.ports[p].(waiters := s.ports[p].waiters[i := w])])
  }

  function Park(s: State, p: int, i: int, t: int): (r: State)
    requires p in s.ports && 0 <= i < |s.ports[p].waiters| && t in s.tasks
  {
    SetWaiter(s, p, i, Waiter(true, t)).(tasks := s.tasks[t := s.tasks[t].(pause := InReceive(p, i))])
  }

  function Drop(s: State, p: int, i: int): (r: State)
    requires p in s.ports && 0 <= i < |s.ports[p].waiters|
  {
    SetWaiter(s, p, i, s.ports[p].waiters[i].(active := false))
  }

  /** A waiting receiver is let go with `code`. */
  function WakeReceiver(s: State, p: int, i: int, code: int): (r: State)
    requires p in s.ports && 0 <= i < |s.ports[p].waiters| && s.ports[p].waiters[i].task in s.tasks
  {
    Resume(Drop(s, p, i), s.ports[p].waiters[i].task, code)
  }

  function ServerDown(s: State, c: int): (r: State)
    requires c in s.channels
  {
    s.(channels := s.channels[c := s.channels[c].(serverUp := false, stored := false, callUid := 0)])
  }

  function ClientDown(s: State, c: int): (r: State)
    requires c in s.channels
  {
    s.(channels := s.channels[c := s.channels[c].(clientUp := false, stored := false, callUid := 0)])
  }

  lemma FinishSteps(s: State, c: int, code: int)
    requires Core(s, NONE) && c in s.channels && s.channels[c].client in s.tasks
    ensures Step(s, Finish(s, c, code), NONE)
  {
    hide Core;
  }

  lemma FinishKeepsCore(s: State, c: int, code: int)
    requires Core(s, NONE) && c in s.channels && Recorded(s.channels[c]) && Alive(s.tasks, s.channels[c].client)
    ensures Core(Finish(s, c, code), NONE) && Step(s, Finish(s, c, code), NONE)
    ensures !Recorded(Finish(s, c, code).channels[c])
  {
    hide Step;
    FinishSteps(s, c, code);
  }

  lemma BeginKeepsCore(s: State, t: int, c: int, uid: int)
    requires Core(s, NONE) && Alive(s.tasks, t) && s.tasks[t].pause == Running && 0 <= uid < s.nextCall
    requires c in s.channels && s.channels[c].client == t && s.channels[c].clientUp && s.channels[c].serverUp
    requires uid == 0 && s.channels[c].port in s.ports ==> NobodyWaits(s.tasks, s.ports[s.channels[c].port].waiters)
    requires uid != 0 ==> forall d | d in s.channels :: s.channels[d].callUid != uid
    ensures Core(Begin(s, t, c, uid == 0, uid), NONE) && Step(s, Begin(s, t, c, uid == 0, uid), t)
  {
  }

  lemma ServeKeepsCore(s: State, c: int, uid: int)
    requires Core(s, NONE) && c in s.channels && 0 <= uid < s.nextCall
    requires if uid == 0 then !Alive(s.tasks, s.channels[c].client) else s.channels[c].stored
    requires uid != 0 ==> forall d | d in s.channels :: s.channels[d].callUid != uid
    ensures Core(Serve(s, c, uid), NONE) && Step(s, Serve(s, c, uid), NONE)
  {
  }

  lemma TickKeepsCore(s: State)
    requires Core(s, NONE)
    ensures Core(Tick(s), NONE) && Step(s, Tick(s), NONE)
    ensures forall d | d in s.channels :: s.channels[d].callUid != s.nextCall
  {
  }

  lemma ParkSteps(s: State, p: int, i: int, t: int)
    requires p in s.ports && 0 <= i < |s.ports[p].waiters| && t in s.tasks && t != NONE
    ensures Step(s, Park(s, p, i, t), t)
  {
  }

  lemma ParkKeepsCore(s: State, p: int, i: int, t: int)
    requires Core(s, NONE) && p in s.ports && 0 <= i < |s.ports[p].waiters|
    requires Alive(s.tasks, t) && s.tasks[t].pause == Running && s.tasks[t].process == s.ports[p].process
    requires s.ports[p].waiters[i].active ==> !Alive(s.tasks, s.ports[p].waiters[i].task)
    requires forall c | c in s.channels && s.channels[c].port == p && s.channels[c].stored :: !Alive(s.tasks, s.channels[c].client)
    ensures Core(Park(s, p, i, t), NONE) && Step(s, Park(s, p, i, t), t)
  {
    hide Step;
    ParkSteps(s, p, i, t);
    var r := Park(s, p, i, t);
    forall q | q in s.ports ensures SlotsOk(r, q) && WaitersOk(r, q) {
      assert SlotsOk(s, q) && WaitersOk(s, q);
    }
    forall c | c in s.channels ensures MetOk(r, c) {
      assert MetOk(s, c);
    }
  }

  /** An active slot may be dropped when its thread is dead, or resumed in the same step. */
  lemma DropKeepsCore(s: State, p: int, i: int)
    requires Core(s, NONE) && p in s.ports && 0 <= i < |s.ports[p].waiters|
    requires s.ports[p].waiters[i].active ==> !Alive(s.tasks, s.ports[p].waiters[i].task)
    ensures Core(Drop(s, p, i), NONE) && Step(s, Drop(s, p, i), NONE)
  {
  }

  lemma WakeKeepsCore(s: State, p: int, i: int, code: int)
    requires Core(s, NONE) && p in s.ports && 0 <= i < |s.ports[p].waiters|
    requires s.ports[p].waiters[i].active && Alive(s.tasks, s.ports[p].waiters[i].task)
    ensures Core(WakeReceiver(s, p, i, code), NONE) && Step(s, WakeReceiver(s, p, i, code), NONE)
    ensures s.tasks[s.ports[p].waiters[i].task].pause == InReceive(p, i)
  {
  }

  /** `task_forget_channel`, `process_forget_port`: the last entry takes the place of the one removed. */
  function Forget(q: seq<int>, x: int): (r: seq<int>)
    ensures forall y | y != x :: y in r <==> y in q
    ensures Distinct(q) ==> Distinct(r) && x !in r
    ensures (x in q ==> |r| == |q| - 1) && forall y | y in r :: y in q
  {
    if x !in q then q
    else
      var k := IndexOf(q, x);
      var r := q[k := q[|q| - 1]][..|q| - 1];
      assert forall y | y in q && y != x :: y in r by {
        forall y | y in q && y != x ensures y in r {
          var j :| 0 <= j < |q| && q[j] == y;
          assert j < |q| - 1 ==> r[j] == y;
          assert j == |q| - 1 ==> r[k] == y;
        }
      }
      r
  }

  function ForgetChannel(s: State, t: int, c: int): (r: State)
    requires t in s.tasks
  {
    s.(tasks := s.tasks[t := s.tasks[t].(channels := Forget(s.tasks[t].channels, c))])
  }

  /** `msg_free_channel`: channel `c` stood in slot `k` of its port. */
  function FreeChannel(s: State, c: int, p: int, k: int): (r: State)
    requires c in s.channels && p in s.ports && 0 <= k < |s.ports[p].slots|
  {
    var t := s.channels[c].client;
    var u := if Alive(s.tasks, t) then ForgetChannel(s, t, c) else s;
    u.(channels := s.channels - {c}, ports := s.ports[p := s.ports[p].(slots := s.ports[p].slots[k := NONE])])
  }

  lemma ForgetKeepsCore(s: State, t: int, c: int)
    requires Core(s, NONE) && t in s.tasks
    requires c in s.channels ==> s.channels[c].client == t && !s.channels[c].clientUp
    ensures Core(ForgetChannel(s, t, c), NONE) && Step(s, ForgetChannel(s, t, c), NONE)
  {
    StruckKeepsCore(s, t, c);
    var r := ForgetChannel(s, t, c);
    assert forall d | d in r.channels :: Listed(r, d);
  }

  /** Striking a channel of its own from a client's list leaves only that channel unlisted. */
  lemma StruckKeepsCore(s: State, t: int, c: int)
    requires Core(s, NONE) && t in s.tasks && (c in s.channels ==> s.channels[c].client == t)
    ensures Core(ForgetChannel(s, t, c), c) && Step(s, ForgetChannel(s, t, c), NONE)
  {
    hide Forget, IndexOf;
    var r := ForgetChannel(s, t, c);
    var q := Forget(s.tasks[t].channels, c);
    forall u | u in r.tasks && r.tasks[u].alive ensures CallOk(r, u) && ReceiveOk(r, u) && ListOk(r, u) {
      assert CallOk(s, u) && ReceiveOk(s, u) && ListOk(s, u);
    }
    forall d | d in r.channels ensures RecordOk(r, d) && PlaceOk(r, d) && MetOk(r, d) && (d != c ==> Listed(r, d)) {
      assert RecordOk(s, d) && PlaceOk(s, d) && MetOk(s, d) && Listed(s, d);
    }
    forall p | p in r.ports ensures SlotsOk(r, p) && WaitersOk(r, p) {
      assert SlotsOk(s, p) && WaitersOk(s, p);
    }
  }

  ghost predicate Freeable(s: State, c: int, p: int, k: int) {
    && Core(s, c) && c in s.channels && p in s.ports && 0 <= k < |s.ports[p].slots| && s.ports[p].slots[k] == c
    && (Recorded(s.channels[c]) ==> !Alive(s.tasks, s.channels[c].client))
  }

  lemma FreeKeepsCore(s: State, c: int, p: int, k: int)
    requires Freeable(s, c, p, k)
    ensures Core(FreeChannel(s, c, p, k), NONE) && Step(s, FreeChannel(s, c, p, k), NONE)
    ensures SamePorts(s, FreeChannel(s, c, p, k))
  {
    hide Forget, IndexOf, CallOk, ReceiveOk, ListOk, RecordOk, PlaceOk, MetOk, Listed, SlotsOk, WaitersOk;
    var r := FreeChannel(s, c, p, k);
    forall u | u in r.tasks && r.tasks[u].alive ensures CallOk(r, u) && ReceiveOk(r, u) && ListOk(r, u) {
      FreeTask(s, c, p, k, u);
    }
    forall d | d in r.channels ensures RecordOk(r, d) && PlaceOk(r, d) && MetOk(r, d) && Listed(r, d) {
      FreeOther(s, c, p, k, d);
    }
    forall q | q in r.ports ensures SlotsOk(r, q) && WaitersOk(r, q) {
      FreePort(s, c, p, k, q);
    }
  }

  lemma FreeTask(s: State, c: int, p: int, k: int, u: int)
    requires Freeable(s, c, p, k) && u in s.tasks && s.tasks[u].alive
    ensures var r := FreeChannel(s, c, p, k); CallOk(r, u) && ReceiveOk(r, u) && ListOk(r, u)
  {
  }

  lemma FreeOther(s: State, c: int, p: int, k: int, d: int)
    requires Freeable(s, c, p, k) && d in s.channels && d != c
    ensures var r := FreeChannel(s, c, p, k); RecordOk(r, d) && PlaceOk(r, d) && MetOk(r, d) && Listed(r, d)
  {
    hide Forget, IndexOf, TasksOk, PortsOk, UidsOk;
    assert RecordOk(s, d) && PlaceOk(s, d) && MetOk(s, d) && Listed(s, d);
    if s.channels[d].port == p {
      var j :| 0 <= j < |s.ports[p].slots| && s.ports[p].slots[j] == d;
      assert FreeChannel(s, c, p, k).ports[p].slots[j] == d;
    }
  }

  lemma FreePort(s: State, c: int, p: int, k: int, q: int)
    requires Freeable(s, c, p, k) && q in s.ports
    ensures var r := FreeChannel(s, c, p, k); SlotsOk(r, q) && WaitersOk(r, q)
  {
  }

  /** One side goes, the other stays. */
  lemma DownKeepsCore(s: State, r: State, c: int)
    requires Core(s, c) && c in s.channels && (Recorded(s.channels[c]) ==> !Alive(s.tasks, s.channels[c].client))
    requires
      || (r == ServerDown(s, c) && s.channels[c].clientUp && Listed(s, c))
      || (r == ClientDown(s, c) && s.channels[c].serverUp)
    ensures Core(r, NONE) && Step(s, r, NONE)
  {
    forall u | u in r.tasks && r.tasks[u].alive ensures CallOk(r, u) && ReceiveOk(r, u) && ListOk(r, u) {
      assert CallOk(s, u) && ReceiveOk(s, u) && ListOk(s, u);
    }
    forall d | d in r.channels ensures RecordOk(r, d) && PlaceOk(r, d) && MetOk(r, d) && Listed(r, d) {
      assert RecordOk(s, d) && PlaceOk(s, d) && MetOk(s, d) && (d != c ==> Listed(s, d));
    }
    forall p | p in r.ports ensures SlotsOk(r, p) && WaitersOk(r, p) {
      assert SlotsOk(s, p) && WaitersOk(s, p);
    }
  }

  function Ended(s: State, t: int): (r: State)
    requires t in s.tasks
  {
    s.(tasks := s.tasks[t := s.tasks[t].(alive := false)])
  }

  function RemovePort(s: State, p: int): (r: State) { s.(ports := s.ports - {p}) }

  /** A port can go once its slots and its waiters are empty. */
  lemma RemoveKeepsCore(s: State, p: int)
    requires Core(s, NONE) && p in s.ports
    requires forall i | 0 <= i < |s.ports[p].slots| :: s.ports[p].slots[i] == NONE
    requires forall i | 0 <= i < |s.ports[p].waiters| :: !s.ports[p].waiters[i].active
    ensures Core(RemovePort(s, p), NONE) && Step(s, RemovePort(s, p), NONE)
  {
  }

  // ---------------------------------------------------------------- msg.c

  /** How `msg_do_copy` can end. */
  datatype Copy =
    | Copied(bytes: nat) | SenderBuffer | ReceiverBuffer | SenderHandles | ReceiverFull | ReceiverHandles | ReceiverStruct

  function SenderStatus(o: Copy): (r: int) {
    match o
    case Copied(_) => 0
    case SenderBuffer => INVALID_BUF
    case ReceiverBuffer => PEER_INVALID_BUF
    case SenderHandles => INVALID_HANDLES
    case ReceiverFull => PEER_INVALID_HANDLES
    case ReceiverHandles => PEER_INVALID_HANDLES
    case ReceiverStruct => PEER_INVALID_MSG
  }

  function ReceiverStatus(o: Copy): (r: int) {
    match o
    case ReceiverBuffer => INVALID_BUF
    case ReceiverFull => LIMIT
    case ReceiverHandles => INVALID_HANDLES
    case ReceiverStruct => INVALID_MSG
    case _ => 0
  }

  /** `msg_get_peer_error` */
  function PeerError(err: int): (r: int) {
    if err == INVALID_BUF then PEER_INVALID_BUF
    else if err == INVALID_HANDLES then PEER_INVALID_HANDLES
    else PEER_INVALID_MSG
  }

  function FirstWaiter(tasks: map<int, Task>, ws: seq<Waiter>, k: nat): (w: int)
    requires k <= |ws|
    ensures w == NONE || (k <= w < |ws| && ws[w].active && Alive(tasks, ws[w].task))
    ensures forall i | k <= i < (if w == NONE then |ws| else w) :: ws[i].active ==> !Alive(tasks, ws[i].task)
    decreases |ws| - k
  {
    if k == |ws| then NONE
    else if ws[k].active && Alive(tasks, ws[k].task) then k
    else FirstWaiter(tasks, ws, k + 1)
  }

  /** Waiter slots of which the first `n` have been given up. */
  function Cleared(ws: seq<Waiter>, n: nat): (r: seq<Waiter>)
    ensures |r| == |ws| && forall i | 0 <= i < |ws| :: r[i] == if i < n then ws[i].(active := false) else ws[i]
  {
    seq(|ws|, i requires 0 <= i < |ws| => if i < n then ws[i].(active := false) else ws[i])
  }

  class Ipc {
    var s: State

    /** Before the first process. */
    constructor ()
      ensures Good(s) && s == State(map[], map[], map[], map[], 1, 0, 0)
    {
      s := State(map[], map[], map[], map[], 1, 0, 0);
    }

    /** `msg_find_waiter`: the lowest slot whose thread still waits; stale slots on the way are given up. */
    method FindWaiter(p: int) returns (w: int)
      requires Core(s, NONE) && p in s.ports
      modifies this
      ensures Core(s, NONE) && Step(old(s), s, NONE) && SamePorts(old(s), s)
      ensures w == FirstWaiter(old(s).tasks, old(s).ports[p].waiters, 0)
      ensures var ws := old(s).ports[p].waiters;
        s == old(s).(ports := old(s).ports[p := old(s).ports[p].(waiters := Cleared(ws, if w == NONE then |ws| else w))])
      ensures w == NONE ==> NobodyWaits(s.tasks, s.ports[p].waiters)
    {
      hide Core, Swept, FirstWaiter;
      var i: nat := 0;
      w := NONE;
      ghost var was := s;
      SweptStart(s, p);
      while i < MAX_TASK_THREADS && w == NONE
        invariant p in s.ports && i <= MAX_TASK_THREADS == |s.ports[p].waiters| && Swept(was, s, p, i)
        invariant w != NONE ==> w == i == FirstWaiter(was.tasks, was.ports[p].waiters, 0) < MAX_TASK_THREADS
        decreases MAX_TASK_THREADS - i, w == NONE
      {
        var x := s.ports[p].waiters[i];
        SweptStep(was, s, p, i);
        if !x.active {
          i := i + 1;
        } else if !Alive(s.tasks, x.task) || !s.tasks[x.task].pause.InReceive? {
          s := Drop(s, p, i);
          i := i + 1;
        } else {
          w := i;
        }
      }
      SweptEnd(was, s, p, i);
      assert s.ports[p].waiters == Cleared(was.ports[p].waiters, i);
    }

    /** `msg_call`.  `size`, `buffer` (non-NULL) and `handles` (count) are the message, already through
        `msg_validate_send`; `handlesOk` is `msg_check_handles`; `o` is how the copy to a waiting server ends.  A message
        that consists of a NULL buffer only cannot be told from none once it is stored, and leaves its client paused
        without a record. */
    method Call(t: int, c: int, size: nat, buffer: bool, handles: nat, handlesOk: bool, o: Copy) returns (status: int)
      requires Inv(s) && Alive(s.tasks, t) && s.tasks[t].pause == Running
      modifies this
      ensures Step(old(s), s, t)
      ensures Inv(s) <==> !(CallMayStart(old(s), t, c, size, handles, handlesOk) && WaiterFor(old(s), c) == NONE && !buffer && handles == 0)
      ensures status < 0 ==> s.tasks[t] == old(s.tasks[t]) && s.channels == old(s.channels)
      ensures !CallMayStart(old(s), t, c, size, handles, handlesOk) ==>
                s == old(s) && status == Refusal(old(s), t, c, size, handles) && status < 0
      ensures CallMayStart(old(s), t, c, size, handles, handlesOk) ==>
                Met(old(s), s, t, c, buffer || handles > 0, o, status)
    {
      StepSelf(s, t);
      if size > MSG_MAX_LEN {
        status := TOO_LONG;
      } else if size == 0 && handles == 0 {
        status := EMPTY_MSG;
      } else if c !in s.tasks[t].channels {
        status := CHANNEL_NOT_FOUND;
      } else {
        ListFacts(s, t, c);
        var ch := s.channels[c];
        if !ch.clientUp {
          status := DISCONNECTED;
        } else if !ch.serverUp {
          status := PEER_DISCONNECTED;
        } else if !handlesOk {
          status := INVALID_HANDLES;
        } else {
          status := MeetOrStore(t, c, buffer || handles > 0, o);
        }
      }
    }

    /** The second half of `msg_call`: hand the message to a waiting server thread, or store it. */
    method MeetOrStore(t: int, c: int, present: bool, o: Copy) returns (status: int)
      requires Inv(s) && Alive(s.tasks, t) && s.tasks[t].pause == Running && c in s.channels
      requires s.channels[c].client == t && s.channels[c].clientUp && s.channels[c].serverUp
      modifies this
      ensures Step(old(s), s, t) && Met(old(s), s, t, c, present, o, status)
      ensures Inv(s) <==> !(WaiterFor(old(s), c) == NONE && !present)
    {
      hide Core, OwnedOk, Met, FirstWaiter;
      ghost var was := s;
      var p := s.channels[c].port;
      PlaceFacts(s, c);
      var w := FindWaiter(p);
      ghost var mid := s;
      if w == NONE {
        if present {
          BeginKeepsCore(s, t, c, 0);
        } else {
          UnstoredBreaks(s, t, c);
        }
        s := Begin(s, t, c, present, 0);
        status := 0;
      } else {
        var uid := s.nextCall;
        PlaceFacts(s, c);
        TickKeepsCore(s);
        s := Tick(s);
        if !o.Copied? {
          if ReceiverStatus(o) < 0 {
            WakeKeepsCore(s, p, w, ReceiverStatus(o));
            s := WakeReceiver(s, p, w, ReceiverStatus(o));
          }
          status := SenderStatus(o);
        } else {
          WaiterFacts(s, p, w);
          BeginKeepsCore(s, t, c, uid);
          s := Begin(s, t, c, false, uid);
          WakeKeepsCore(s, p, w, o.bytes);
          s := WakeReceiver(s, p, w, o.bytes);
          status := 0;
        }
      }
      MetNow(was, mid, s, t, c, present, w, o, status);
      OwnedSame(was, s);
    }

    /** `msg_receive`.  `copy` says how the copy from each channel ends; `call` is the call uid of the receipt. */
    method Receive(t: int, p: int, copy: int -> Copy) returns (status: int, call: int)
      requires Inv(s) && Alive(s.tasks, t) && s.tasks[t].pause == Running
      modifies this
      ensures Inv(s) && Step(old(s), s, t) && ReceiveDone(old(s), s, t, p, copy, status, call)
      ensures t in s.tasks && s.tasks[t].alive && s.tasks[t].calls == old(s.tasks[t].calls)
    {
      hide Core, OwnedOk, Deliverable, Scanned, ScanDone, Step, Upto, Stop, Parked, Vacant;
      status, call := 0, 0;
      ghost var was := s;
      StepSelf(s, t);
      if p !in s.ports {
        status := PORT_NOT_FOUND;
      } else if s.tasks[t].process != s.ports[p].process {
        status := DENIED;
      } else {
        var c;
        status, call, c := TakeStored(p, copy);
        ghost var mid := s;
        ScanFacts(was, s, p, copy, Upto(was, p, copy, 0), call, t);
        StepSelf(s, t);
        if call != 0 {
          EbxKeepsCore(s, t, copy(c).bytes);
          s := SetEbx(s, t, copy(c).bytes);
          StepWiden(mid, s, t);
        } else if status == 0 {
          NothingLeft(was, s, p, copy);
          status := WaitFor(t, p);
          SameVacancies(was, mid, s, p, t);
        }
        ReceiveEnds(was, mid, s, t, p, copy, call);
        OwnedSame(was, s);
      }
    }

    /** The end of `msg_receive`: the thread waits in a slot of the port, if there is one. */
    method WaitFor(t: int, p: int) returns (status: int)
      requires Core(s, NONE) && p in s.ports && Alive(s.tasks, t) && s.tasks[t].pause == Running && s.tasks[t].process == s.ports[p].process
      requires forall c | c in s.channels && s.channels[c].port == p && s.channels[c].stored :: !Alive(s.tasks, s.channels[c].client)
      modifies this
      ensures Core(s, NONE) && Step(old(s), s, t) && SamePorts(old(s), s) && Waits(old(s), s, t, p, status)
    {
      hide Core, Step;
      StepSelf(s, t);
      NoSlotYet(s, p, t);
      var slot := FindSlot(s.ports[p].waiters, s.tasks, t);
      status := LIMIT;
      if slot != NONE {
        ParkKeepsCore(s, p, slot, t);
        assert Parked(s, Park(s, p, slot, t), t, p, slot);
        s := Park(s, p, slot, t);
        status := 0;
      }
    }

    /** The scan of `msg_receive` for a stored send, channel by channel in slot order, up to the first whose copy succeeds or
        fails on the receiver's side. */
    method TakeStored(p: int, copy: int -> Copy) returns (status: int, call: int, c: int)
      requires Core(s, NONE) && p in s.ports
      modifies this
      ensures Scanned(old(s), s, p, copy, Upto(old(s), p, copy, 0), call) && c == Stop(old(s), p, copy)
      ensures status == (if c != NONE && !copy(c).Copied? then ReceiverStatus(copy(c)) else 0)
      ensures call != 0 <==> c != NONE && copy(c).Copied?
      ensures call != 0 ==> old(s.nextCall) <= call < s.nextCall
    {
      hide Core, Deliverable, Scanned;
      status, call, c := 0, 0, NONE;
      ghost var was := s;
      ScanStart(s, p, copy);
      var i: nat := 0;
      while i < |s.ports[p].slots| && c == NONE
        invariant s.ports == was.ports && i <= |s.ports[p].slots| && Scanned(was, s, p, copy, i, call)
        invariant Upto(was, p, copy, 0) == if c == NONE then Upto(was, p, copy, i) else i
        invariant c == NONE && i > 0 ==> !Stops(was, p, copy, i - 1)
        invariant c != NONE ==> i > 0 && c == s.ports[p].slots[i - 1] && Stops(was, p, copy, i - 1)
        invariant status == (if c != NONE && !copy(c).Copied? then ReceiverStatus(copy(c)) else 0)
        invariant if c != NONE && copy(c).Copied? then was.nextCall <= call < s.nextCall && call != 0 else call == 0
        decreases |s.ports[p].slots| - i
      {
        var d := s.ports[p].slots[i];
        ScanSlot(was, s, p, copy, i);
        if d != NONE && s.channels[d].serverUp && s.channels[d].stored && Alive(s.tasks, s.channels[d].client) {
          var uid := s.nextCall;
          var o := copy(d);
          if !o.Copied? {
            ScanFail(was, s, p, copy, i);
            s := Finish(Tick(s), d, SenderStatus(o));
            status := ReceiverStatus(o);
            c := if status < 0 then d else NONE;
          } else {
            ScanServe(was, s, p, copy, i);
            s := Serve(Tick(s), d, uid);
            call, c := uid, d;
          }
        } else {
          ScanSkip(was, s, p, copy, i);
        }
        i := i + 1;
      }
      StopAt(was, p, copy, 0, i, c);
    }

    /** The search of `msg_reply` through the ports of process `r`. */
    method FindCall(r: int, uid: int) returns (c: int)
      requires Inv(s) && r in s.owned
      ensures c != NONE ==> c in s.channels && s.channels[c].callUid == uid && ServedBy(s, c, r)
      ensures c == NONE ==> forall d | d in s.channels && ServedBy(s, d, r) :: s.channels[d].callUid != uid
    {
      hide Core, OwnedOk;
      var i: nat := 0;
      c := NONE;
      while i < |s.owned[r]| && c == NONE
        invariant i <= |s.owned[r]|
        invariant c != NONE ==> c in s.channels && s.channels[c].callUid == uid && ServedBy(s, c, r)
        invariant c == NONE ==> forall k | 0 <= k < i :: NotServed(s, s.owned[r][k], uid)
        decreases |s.owned[r]| - i
      {
        var p := s.owned[r][i];
        OwnedFacts(s.ports, s.owned, r, p);
        var j: nat := 0;
        while j < |s.ports[p].slots| && c == NONE
          invariant j <= |s.ports[p].slots|
          invariant c != NONE ==> c in s.channels && s.channels[c].callUid == uid && s.channels[c].port == p
          invariant c == NONE ==> forall k | 0 <= k < j && s.ports[p].slots[k] != NONE :: s.ports[p].slots[k] in s.channels ==> s.channels[s.ports[p].slots[k]].callUid != uid
          decreases |s.ports[p].slots| - j
        {
          if s.ports[p].slots[j] != NONE {
            SlotFacts(s, p, j);
          }
          if s.ports[p].slots[j] != NONE && s.channels[s.ports[p].slots[j]].callUid == uid {
            c := s.ports[p].slots[j];
          }
          j := j + 1;
        }
        i := i + 1;
      }
      if c == NONE {
        NotServedHere(s, r, uid);
      }
    }

    /** `msg_reply`.  `valid` is what `msg_validate_send` returned, `size` the reply's, `handlesOk` and `o` as in `Call`. */
    method Reply(t: int, uid: int, valid: int, size: int, handlesOk: bool, o: Copy) returns (status: int)
      requires Inv(s) && Alive(s.tasks, t) && s.tasks[t].pause == Running && s.tasks[t].process in s.owned && SendVerdict(valid)
      modifies this
      ensures Inv(s) && Step(old(s), s, NONE) && ReplyDone(old(s), s, t, uid, ReplyCodes(valid, size, handlesOk, o), status)
    {
      hide Core, OwnedOk, UidsOk, Replied;
      status := MSG_NOT_FOUND;
      if uid != 0 {
        var c := FindCall(s.tasks[t].process, uid);
        if c != NONE {
          OnlyServed(s, c);
          status := Answer(t, c, valid, size, handlesOk, o);
        }
      }
    }

    /** Its second half, for the call on channel `c`. */
    method Answer(t: int, c: int, valid: int, size: int, handlesOk: bool, o: Copy) returns (status: int)
      requires Inv(s) && Active(s, t) && SendVerdict(valid) && c in s.channels && s.channels[c].callUid != 0
      modifies this
      ensures Inv(s) && Step(old(s), s, NONE) && s == old(s).(channels := s.channels, tasks := s.tasks)
      ensures status != MSG_NOT_FOUND
      ensures Replied(old(s), s, t, c, ReplyCodes(valid, size, handlesOk, o), status)
    {
      hide Core, OwnedOk, UidsOk;
      PlaceFacts(s, c);
      OnlyServed(s, c);
      var client := s.channels[c].client;
      if !Alive(s.tasks, client) || !s.tasks[client].pause.InCall? {
        ServeKeepsCore(s, c, 0);
        s := Serve(s, c, 0);
        status := PEER_DISCONNECTED;
      } else {
        var code;
        if valid < 0 {
          status, code := valid, PeerError(valid);
        } else if size > MSG_MAX_LEN {
          status, code := TOO_LONG, PEER_INVALID_MSG;
        } else if !handlesOk {
          status, code := INVALID_HANDLES, PEER_INVALID_HANDLES;
        } else if !o.Copied? {
          status := SenderStatus(o);
          code := if ReceiverStatus(o) < 0 then ReceiverStatus(o) else PeerError(SenderStatus(o));
        } else {
          status, code := 0, o.bytes;
        }
        FinishKeepsCore(s, c, code);
        s := Finish(s, c, code);
        if status == 0 {
          EbxKeepsCore(s, t, code);
          s := SetEbx(s, t, code);
        }
      }
    }

    /** `find_channel` */
    method FindChannel(p: int, c: int) returns (k: int)
      requires p in s.ports && c != NONE
      ensures k == NONE ==> c !in s.ports[p].slots
      ensures k != NONE ==> 0 <= k < |s.ports[p].slots| && s.ports[p].slots[k] == c
    {
      k := NONE;
      var i: nat := 0;
      while i < |s.ports[p].slots|
        invariant i <= |s.ports[p].slots| && c !in s.ports[p].slots[..i]
      {
        if s.ports[p].slots[i] != NONE && s.ports[p].slots[i] == c {
          return i;
        }
        i := i + 1;
      }
    }

    /** `port_close_connection` by the server, or by the kernel. */
    method CloseByServer(p: int, c: int, k: int)
      requires InSlot(s, p, c, k)
      modifies this
      ensures s == ServerClosed(old(s), p, c, k)
    {
      var client := s.channels[c].client;
      if s.channels[c].clientUp && Alive(s.tasks, client) {
        if s.tasks[client].pause.InCall? && Recorded(s.channels[c]) {
          s := Finish(s, c, PEER_DISCONNECTED);
        }
      }
      ghost var mid := s;
      s := ServerDown(s, c);
      if !s.channels[c].clientUp {
        assert s.channels - {c} == mid.channels - {c};
        s := FreeChannel(s, c, p, k);
      }
    }

    /** `port_close_connection` by the client. */
    method CloseByClient(p: int, c: int, k: int)
      requires InSlot(s, p, c, k)
      modifies this
      ensures s == ClientClosed(old(s), p, c, k)
    {
      ghost var was := s;
      s := ClientDown(s, c);
      if !s.channels[c].serverUp {
        assert s.channels - {c} == was.channels - {c};
        s := FreeChannel(s, c, p, k);
      }
    }

    /** `port_disconnect` */
    method Disconnect(t: int, p: int, c: int) returns (ok: bool)
      requires Inv(s) && Alive(s.tasks, t) && s.tasks[t].pause == Running && c >= 0
      modifies this
      ensures Inv(s) && Step(old(s), s, NONE)
      ensures ok == HasSide(old(s), t, p, c) && DisconnectDone(old(s), s, t, p, c)
    {
      hide Core, OwnedOk, DisconnectDone, ServerClosed, ClientClosed;
      ok := false;
      if p in s.ports {
        var k := FindChannel(p, c);
        SlotOf(s, p, c, k);
        if k != NONE && (t == s.channels[c].server || t == s.channels[c].client) {
          ghost var was := s;
          if t == s.channels[c].server {
            NotMine(s, t, c); // so there is nothing to forget
            ServerClosedKeepsCore(s, p, c, k);
            ServerLeft(s, p, c, k, t);
            CloseByServer(p, c, k);
          } else {
            ClientMayClose(s, t, p, c, k);
            ClientLeft(s, p, c, k, t);
            s := ForgetChannel(s, t, c);
            ClientClosedKeepsCore(s, p, c, k);
            CloseByClient(p, c, k);
            StepTrans(was, ForgetChannel(was, t, c), s, NONE);
          }
          OwnedSame(was, s);
          ok := true;
        }
      }
      if !ok {
        NoSide(s, t, p, c);
      }
    }

    /** `destroy_port`: its connections are closed and freed, its receivers woken. */
    method DestroyPort(p: int)
      requires Core(s, NONE) && p in s.ports
      modifies this
      ensures Core(s, NONE) && Step(old(s), s, NONE) && Gone(old(s), s, {p}) && s == old(s).(tasks := s.tasks, channels := s.channels, ports := s.ports)
    {
      hide Core, Closing, Waking, Gone, ServerClosed;
      ghost var was := s;
      ClosingStart(s, p);
      var i: nat := 0;
      while i < |s.ports[p].slots|
        invariant Closing(was, s, p, i) && p in s.ports && i <= |s.ports[p].slots|
        decreases |s.ports[p].slots| - i
      {
        var c := s.ports[p].slots[i];
        ClosingStep(was, s, p, i);
        if c != NONE {
          CloseByServer(p, c, i);
          if s.ports[p].slots[i] != NONE {
            s := FreeChannel(s, c, p, i);
          }
        }
        i := i + 1;
      }
      ghost var mid := s;
      WakingStart(was, s, p);
      i := 0;
      while i < MAX_TASK_THREADS
        invariant Waking(mid, s, p, i) && p in s.ports && i <= MAX_TASK_THREADS == |s.ports[p].waiters|
      {
        var w := s.ports[p].waiters[i];
        WakingStep(mid, s, p, i);
        if w.active {
          if !Alive(s.tasks, w.task) || !s.tasks[w.task].pause.InReceive? {
            s := Drop(s, p, i);
          } else {
            s := WakeReceiver(s, p, i, PORT_NOT_FOUND);
          }
        }
        i := i + 1;
      }
      WakingEnd(was, mid, s, p);
      s := RemovePort(s, p);
    }

    /** `process_forget_port`, then `destroy_port`. */
    method StrikePort(p: int)
      requires Inv(s) && p in s.ports
      modifies this
      ensures Inv(s) && Step(old(s), s, NONE) && Gone(old(s), s, {p})
      ensures s.owned == old(s).owned[old(s).ports[p].process := Forget(old(s).owned[old(s).ports[p].process], p)]
    {
      hide Core, Gone, Forget, OwnedOk;
      ghost var was := s;
      var r := s.ports[p].process;
      OwnedIrrelevant(s, p);
      s := s.(owned := s.owned[r := Forget(s.owned[r], p)]);
      DestroyPort(p);
      PortStruck(was, s, p);
    }

    /** `close_port` */
    method ClosePort(t: int, p: int) returns (ok: bool)
      requires Inv(s) && t in s.tasks
      modifies this
      ensures Inv(s) && Step(old(s), s, NONE)
      ensures ok == MayClose(old(s), t, p) && if ok then Gone(old(s), s, {p}) else s == old(s)
    {
      hide Core, Gone, Forget, OwnedOk;
      ok := false;
      if p in s.ports && s.ports[p].process == s.tasks[t].process {
        StrikePort(p);
        ok := true;
      }
    }

    /** The first loop of `msg_cleanup_task`. */
    method CloseChannels(t: int, ghost was: State)
      requires Dropping(was, s, t)
      modifies this
      ensures Dropping(was, s, t) && s.tasks[t].channels == []
    {
      hide Dropping, Forget, ClientClosed;
      DroppingHere(was, s, t);
      while |s.tasks[t].channels| > 0
        invariant t in s.tasks && Dropping(was, s, t)
        decreases |s.tasks[t].channels|
      {
        var c := s.tasks[t].channels[0];
        var before := |s.tasks[t].channels|;
        DroppingHere(was, s, t);
        var p := s.channels[c].port;
        var k := FindChannel(p, c);
        DroppingStep(was, s, t, k);
        CloseByClient(p, c, k);
        if |s.tasks[t].channels| == before {
          s := ForgetChannel(s, t, c);
        }
      }
    }

    /** `msg_remove_waiter` */
    method RemoveWaiter(p: int, t: int, ghost was: State)
      requires Shed(was, s, t) && p in s.ports
      modifies this
      ensures Shed(was, s, t) && Unwaited(s, p, t) && s.ports.Keys == old(s).ports.Keys && s.owned == old(s).owned
      ensures s.tasks == old(s).tasks && forall q | Unwaited(old(s), q, t) :: Unwaited(s, q, t)
    {
      hide Shed;
      ghost var s0 := s;
      var i: nat := 0;
      ShedFacts(was, s, t, p);
      while i < MAX_TASK_THREADS
        invariant i <= MAX_TASK_THREADS && Shed(was, s, t) && s.ports.Keys == s0.ports.Keys && s.owned == s0.owned
        invariant p in s.ports && |s.ports[p].waiters| == MAX_TASK_THREADS
        invariant forall j | 0 <= j < i :: s.ports[p].waiters[j] != Waiter(true, t)
        invariant s.tasks == s0.tasks && forall q | Unwaited(s0, q, t) :: Unwaited(s, q, t)
      {
        var w := s.ports[p].waiters[i];
        if w.active && w.task == t {
          ShedStep(was, s, t, p, i);
          s := Drop(s, p, i);
        }
        i := i + 1;
      }
    }

    /** The second loop of `msg_cleanup_task`. */
    method LeaveWaiters(t: int)
      requires Inv(s) && t in s.tasks && !s.tasks[t].alive && s.tasks[t].process in s.owned
      modifies this
      ensures Shed(old(s), s, t) && forall p | p in s.ports :: Unwaited(s, p, t)
    {
      hide Core, Shed, Unwaited, OwnedOk;
      ghost var was := s;
      ShedStart(s, t);
      var r := s.tasks[t].process;
      var i: nat := 0;
      while i < |s.owned[r]|
        invariant Shed(was, s, t) && s.owned == was.owned && s.tasks == was.tasks && s.ports.Keys == was.ports.Keys && i <= |s.owned[r]|
        invariant forall j | 0 <= j < i :: Unwaited(s, s.owned[r][j], t)
      {
        OwnedFacts(was.ports, was.owned, r, s.owned[r][i]);
        RemoveWaiter(s.owned[r][i], t, was);
        i := i + 1;
      }
      ShedEnd(was, s, t, r);
    }

    /** The last loop of `msg_cleanup_task`, from the end of the list backwards. */
    method CloseOwnPorts(t: int)
      requires Inv(s) && t in s.tasks && s.tasks[t].process in s.owned
      modifies this
      ensures Inv(s) && Step(old(s), s, NONE) && Gone(old(s), s, OwnedBy(old(s).ports, t))
    {
      hide Core, Gone, Forget, OwnedOk, OwnedBy;
      ghost var was := s;
      var r := s.tasks[t].process;
      var n: int := |s.owned[r]| - 1;
      ghost var gone: set<int> := {};
      GoneNothing(s);
      while n >= 0
        invariant Inv(s) && Step(was, s, NONE) && Gone(was, s, gone) && r in s.owned && -1 <= n < |s.owned[r]|
        invariant forall p | p in gone :: p in was.ports && was.ports[p].owner == t
        invariant forall j | n < j < |s.owned[r]| :: s.owned[r][j] in s.ports && s.ports[s.owned[r][j]].owner != t
      {
        var p := s.owned[r][n];
        OwnedFacts(s.ports, s.owned, r, p);
        if s.ports[p].owner == t {
          ghost var s0 := s;
          StrikePort(p);
          GoneMore(was, s0, s, gone, p, n, r, t);
          gone := gone + {p};
        }
        n := n - 1;
      }
      GoneAll(was, s, gone, r, t);
    }

    /** The end of a thread: `end_task_helper` marks it dead, `msg_cleanup_task` takes it out of every structure. */
    method CleanupTask(t: int)
      requires Inv(s) && Alive(s.tasks, t) && s.tasks[t].process in s.owned
      modifies this
      ensures Inv(s) && Step(old(s), s, t) && ExitDone(old(s), s, t)
    {
      hide Core, Dropping, Shed, Gone, Unwaited, OwnedOk, OwnedBy, Released, Departed, ExitDone;
      ghost var s0 := s;
      DroppingStart(s, t);
      s := Ended(s, t);
      CloseChannels(t, s0);
      ghost var s1 := s;
      DroppingEnd(s0, s, t);
      LeaveWaiters(t);
      ghost var s2 := s;
      ShedInv(s1, s, t);
      CloseOwnPorts(t);
      TaskGone(s0, s1, s2, s, t);
      ExitIs(s0, s1, s2, s, t);
    }

    /** `port_connect` on the port found by its name; `memory` is whether the channel could be allocated. */
    method Connect(t: int, p: int, memory: bool) returns (c: int)
      requires Inv(s) && Alive(s.tasks, t)
      modifies this
      ensures Inv(s) && Step(old(s), s, NONE)
      ensures ConnectDone(old(s), s, t, p, memory, c)
    {
      hide Core, OwnedOk;
      if p !in s.ports {
        c := PORT_NOT_FOUND;
      } else if s.ports[p].owner == t {
        c := SELF;
      } else if |s.tasks[t].channels| >= TASK_MAX_CHANNELS {
        c := LIMIT;
      } else if s.nextChannel >= MSG_ERR_BASE {
        c := NOMEM;
      } else if |s.ports[p].slots| >= MSG_MAX_CHANNELS && NONE !in s.ports[p].slots {
        c := PORT_FULL;
      } else if !memory {
        c := NOMEM;
      } else {
        var slots := s.ports[p].slots;
        slots := if |slots| < MSG_MAX_CHANNELS then slots + [s.nextChannel] else slots[IndexOf(slots, NONE) := s.nextChannel];
        c := s.nextChannel;
        ConnectedKeepsInv(s, t, p, slots);
        s := Connected(s, t, p, slots);
      }
    }

    /** `create_port`, once name and privilege have been checked; `memory` as above. */
    method CreatePort(t: int, memory: bool) returns (p: int)
      requires Inv(s) && Alive(s.tasks, t) && s.tasks[t].process in s.owned
      modifies this
      ensures Inv(s) && Step(old(s), s, NONE)
      ensures PortDone(old(s), s, t, memory, p)
    {
      hide Core, OwnedOk;
      if |s.owned[s.tasks[t].process]| >= PROCESS_MAX_PORTS {
        p := LIMIT;
      } else if s.nextPort >= MSG_ERR_BASE || !memory {
        p := NOMEM;
      } else {
        p := s.nextPort;
        OpenedKeepsInv(s, t);
        s := Opened(s, t);
      }
    }

    // ---------------------------------------------------------------- whole runs

    /** One step of a run: a thread that is not running takes none of its own.  The invariant survives exactly the steps
        that are not `Breaks`. */
    method Perform(op: Op)
      requires Good(s) && Proper(op)
      modifies this
      ensures Did(old(s), op, s) && (Good(s) <==> !Breaks(old(s), op)) && (Good(s) ==> Moves(old(s), op, s))
    {
      hide Core, OwnedOk, Step, Acted, Departed, Released, OwnedBy, CallMayStart;
      ghost var was := s;
      match op {
      case NewProcess(r) =>
        if r !in s.owned {
          NewProcessKeeps(s, r);
          s := s.(owned := s.owned[r := []]);
        }
      case NewThread(t, r, wakers) =>
        if t !in s.tasks && r in s.owned {
          NewThreadKeeps(s, t, r, wakers);
          s := Spawned(s, t, r, wakers);
        }
      case Sleep(t) =>
        if Active(s, t) {
          s := Paused(s, t, Elsewhere, s.tasks[t].wakers);
        }
      case Block(t, w) =>
        if Active(s, t) {
          s := Paused(s, t, Waiting, s.tasks[t].wakers + {w});
        }
      case Register(t, w) =>
        if Active(s, t) {
          s := Paused(s, t, Running, s.tasks[t].wakers + {w});
        }
      case Awaken(t) =>
        if Alive(s.tasks, t) && s.tasks[t].pause.Elsewhere? {
          s := Paused(s, t, Running, s.tasks[t].wakers);
        }
      case Fire(t, w, ebx) =>
        if Alive(s.tasks, t) && w in s.tasks[t].wakers {
          s := Fired(s, t, w, ebx);
        }
      case Exit(t) =>
        StepSelf(s, t);
        if Alive(s.tasks, t) {
          CleanupTask(t);
        }
        StepMoves(was, op, s);
      case _ =>
        StepSelf(s, Mover(op));
        if Active(s, op.t) {
          Act(op);
        }
        if !Loses(was, op) {
          StepMoves(was, op, s);
        }
      }
      if !Messaging(op) && !op.Exit? {
        PauseMoves(was, op, s);
      }
    }

    /** A running thread's own step in `msg.c`. */
    method Act(op: Op)
      requires Good(s) && Proper(op) && Messaging(op) && Active(s, op.t)
      modifies this
      ensures (Inv(s) <==> !Loses(old(s), op)) && Acted(old(s), op, s) && Step(old(s), s, Mover(op))
      ensures op.Receive? ==> op.t in s.tasks && s.tasks[op.t].alive && s.tasks[op.t].calls == old(s.tasks[op.t].calls)
    {
      hide Core, OwnedOk, Met, ReceiveDone, ReplyDone, DisconnectDone, ConnectDone, PortDone, Gone, Step, CallMayStart;
      match op
      case Connect(t, p, memory) => var c := Connect(t, p, memory);
      case CreatePort(t, memory) => var p := CreatePort(t, memory);
      case Call(t, c, size, buffer, handles, handlesOk, o) =>
        var status := Call(t, c, size, buffer, handles, handlesOk, o);
        assert CallMayStart(old(s), t, c, size, handles, handlesOk) ==> CallDone(old(s), s, op, status);
      case Receive(t, p, copy) =>
        var status, call := Receive(t, p, copy);
        assert ReceiveDone(old(s), s, t, p, copy, status, call);
      case Reply(t, uid, valid, size, handlesOk, o) => var status := Reply(t, uid, valid, size, handlesOk, o);
      case Disconnect(t, p, c) => var ok := Disconnect(t, p, c);
      case ClosePort(t, p) => var ok := ClosePort(t, p);
    }

    /** Any interleaving of threads that come, call, receive, reply, connect, disconnect, close ports, wait for other things
        and end, from any good state and so from boot.  It ends early only behind a step that breaks the invariant. */
    method Run(ops: seq<Op>) returns (ghost trace: seq<State>, n: nat)
      requires Good(s) && forall k | 0 <= k < |ops| :: Proper(ops[k])
      modifies this
      ensures n <= |ops| && IsRun(trace, ops[..n]) && trace[0] == old(s) && trace[n] == s
      ensures n < |ops| ==> n > 0 && Breaks(trace[n - 1], ops[n - 1])
    {
      hide Good, Did, Moves, Breaks;
      n := 0;
      trace := [s];
      var broken := false;
      while n < |ops| && !broken
        invariant n <= |ops| && IsRun(trace, ops[..n]) && trace[0] == old(s) && trace[n] == s
        invariant if broken then n > 0 && Breaks(trace[n - 1], ops[n - 1]) else Good(s)
      {
        broken := Breaks(s, ops[n]);
        Perform(ops[n]);
        trace := trace + [s];
        n := n + 1;
      }
    }
  }

  /** `Block` is a wait that somebody ends who has the thread on record as waker `w`: a pipe, a timer, a futex, a dialog,
      the peer of a channel.  `Register` leaves the record without the wait: a read of an empty pipe into a buffer that is
      not mapped.  `Fire` is that waker: it resumes the thread without a look at what it is paused for.  A new thread may
      take over the wakers of the one whose slot it gets. */
  datatype Op =
    | NewProcess(r: int)
    | NewThread(t: nat, r: int, wakers: set<int>)
    | Exit(t: nat)
    | Sleep(t: nat)
    | Awaken(t: nat)
    | Block(t: nat, w: int)
    | Register(t: nat, w: int)
    | Fire(t: nat, w: int, ebx: int)
    | Connect(t: nat, p: int, memory: bool)
    | CreatePort(t: nat, memory: bool)
    | Call(t: nat, c: int, size: nat, buffer: bool, handles: nat, handlesOk: bool, o: Copy)
    | Receive(t: nat, p: int, copy: int -> Copy)
    | Reply(t: nat, uid: int, valid: int, length: int, handlesOk: bool, o: Copy)
    | Disconnect(t: nat, p: int, d: nat)
    | ClosePort(t: nat, p: int)

  /** Steps that a running thread takes in `msg.c`. */
  predicate Messaging(op: Op) {
    op.Connect? || op.CreatePort? || op.Call? || op.Receive? || op.Reply? || op.Disconnect? || op.ClosePort?
  }

  predicate Proper(op: Op) { op.Reply? ==> SendVerdict(op.valid) }

  /** The thread whose calls a step may begin, or which it ends. */
  function Who(op: Op): int { if op.Call? || op.Exit? then op.t else NONE }

  /** The thread that a step may pause. */
  function Mover(op: Op): int {
    if op.Call? || op.Exit? || op.Receive? || op.Sleep? || op.Block? || op.Register? || op.Fire? then op.t else NONE
  }

  predicate Active(s: State, t: int) { Alive(s.tasks, t) && s.tasks[t].pause == Running }

  /** A call that would be stored though it is nothing but a NULL buffer. */
  predicate Loses(s: State, op: Op) {
    && op.Call? && Active(s, op.t)
    && CallMayStart(s, op.t, op.c, op.size, op.handles, op.handlesOk) && WaiterFor(s, op.c) == NONE && !op.buffer && op.handles == 0
  }

  /** A waker that finds its thread in a call or a receive. */
  predicate Hits(s: State, op: Op) {
    && op.Fire? && Alive(s.tasks, op.t) && op.w in s.tasks[op.t].wakers
    && (s.tasks[op.t].pause.InCall? || s.tasks[op.t].pause.InReceive?)
  }

  predicate Breaks(s: State, op: Op) { Loses(s, op) || Hits(s, op) }

  /** A thread that is about to wait for a message while a waker still has it on record. */
  predicate Exposed(s: State, op: Op) {
    && (op.Receive? || op.Call?) && Active(s, op.t) && s.tasks[op.t].wakers != {}
    && (op.Receive? || (op.Call? && CallMayStart(s, op.t, op.c, op.size, op.handles, op.handlesOk)))
  }

  /** Nobody waits for a message with a waker on record. */
  ghost predicate Guarded(s: State) {
    forall t | t in s.tasks && s.tasks[t].alive && (s.tasks[t].pause.InCall? || s.tasks[t].pause.InReceive?) :: s.tasks[t].wakers == {}
  }

  /** The invariant, and every thread's process is known. */
  ghost predicate Good(s: State) { Inv(s) && forall t | t in s.tasks :: s.tasks[t].process in s.owned }

  // ---------------------------------------------------------------- what each step does

  /** A receive by `t` serves the first stored send whose copy succeeds; before that, clients whose copy failed are told so, and
      one that fails on the receiver's side ends the scan.  With nothing to serve the thread waits, unless every slot is taken. */
  ghost predicate ReceiveDone(s: State, r: State, t: int, p: int, copy: int -> Copy, status: int, call: int)
    requires t in s.tasks
  {
    && t in r.tasks && r.tasks[t].alive == s.tasks[t].alive && r.tasks[t].calls == s.tasks[t].calls
    && if p !in s.ports then status == PORT_NOT_FOUND && call == 0 && r == s
       else if s.ports[p].process != s.tasks[t].process then status == DENIED && call == 0 && r == s
       else
         var c := Stop(s, p, copy);
         && ScanDone(s, r, t, p, copy, call)
         && if c != NONE && copy(c).Copied? then
              status == 0 && s.nextCall <= call < r.nextCall && call != 0 && r.tasks[t] == s.tasks[t].(ebx := copy(c).bytes) && r.ports == s.ports
            else if c != NONE then status == ReceiverStatus(copy(c)) < 0 && call == 0 && r.tasks[t] == s.tasks[t] && r.ports == s.ports
            else
              && call == 0 && (forall d :: !Deliverable(r, p, d))
              && if forall i | 0 <= i < |s.ports[p].waiters| :: !Vacant(s.tasks, s.ports[p].waiters[i])
                 then status == LIMIT && r.tasks[t] == s.tasks[t] && r.ports == s.ports
                 else status == 0 && exists i | 0 <= i < |s.ports[p].waiters| :: Parked(s, r, t, p, i)
  }

  /** A waiter slot that is not in use, or whose thread is gone. */
  ghost predicate Vacant(tasks: map<int, Task>, w: Waiter) { !w.active || !Alive(tasks, w.task) }

  /** Thread `t` waits in slot `i` of the port, the first that was vacant. */
  ghost predicate Parked(s: State, r: State, t: int, p: int, i: int)
    requires p in s.ports && 0 <= i < |s.ports[p].waiters| && t in s.tasks && t in r.tasks
  {
    && Vacant(s.tasks, s.ports[p].waiters[i]) && (forall j | 0 <= j < i :: !Vacant(s.tasks, s.ports[p].waiters[j]))
    && r.ports == s.ports[p := s.ports[p].(waiters := s.ports[p].waiters[i := Waiter(true, t)])]
    && r.tasks[t] == s.tasks[t].(pause := InReceive(p, i))
  }

  ghost predicate Waits(s: State, r: State, t: int, p: int, status: int)
    requires p in s.ports && t in s.tasks
  {
    && r == s.(tasks := r.tasks, ports := r.ports) && t in r.tasks && r.tasks == s.tasks[t := r.tasks[t]]
    && if forall i | 0 <= i < |s.ports[p].waiters| :: !Vacant(s.tasks, s.ports[p].waiters[i]) then status == LIMIT && r == s
       else status == 0 && exists i | 0 <= i < |s.ports[p].waiters| :: Parked(s, r, t, p, i)
  }

  /** A running thread is in no waiter slot. */
  lemma NoSlotYet(s: State, p: int, t: int)
    requires Core(s, NONE) && p in s.ports && Alive(s.tasks, t) && s.tasks[t].pause == Running
    ensures forall i | 0 <= i < |s.ports[p].waiters| :: s.ports[p].waiters[i].active ==> s.ports[p].waiters[i].task != t
  {
    assert WaitersOk(s, p);
  }

  /** Whom the scan told something lives as before, so the same slots are vacant. */
  lemma SameVacancies(was: State, s: State, r: State, p: int, t: int)
    requires p in s.ports && s.ports == was.ports && forall x :: Alive(s.tasks, x) <==> Alive(was.tasks, x)
    requires t in was.tasks && t in s.tasks && t in r.tasks && s.tasks[t] == was.tasks[t]
    ensures forall i | 0 <= i < |s.ports[p].waiters| :: Vacant(s.tasks, s.ports[p].waiters[i]) <==> Vacant(was.tasks, s.ports[p].waiters[i])
    ensures forall i | 0 <= i < |s.ports[p].waiters| :: Parked(s, r, t, p, i) ==> Parked(was, r, t, p, i)
    ensures forall i | 0 <= i < |s.ports[p].waiters| :: Parked(was, r, t, p, i) ==> r.tasks[t].alive == s.tasks[t].alive && r.tasks[t].calls == s.tasks[t].calls
  {
  }

  /** What the scan leaves of channels and of threads other than the receiver. */
  ghost predicate ScanDone(s: State, r: State, t: int, p: int, copy: int -> Copy, call: int)
    requires p in s.ports
  {
    var n := Upto(s, p, copy, 0);
    && r == s.(channels := r.channels, tasks := r.tasks, ports := r.ports, nextCall := r.nextCall)
    && r.channels.Keys == s.channels.Keys && r.tasks.Keys == s.tasks.Keys
    && s.nextCall <= r.nextCall && (call != 0 ==> call == r.nextCall - 1)
    && (forall c | c in s.channels ::
          r.channels[c] == if Failed(s, p, copy, n, c) then s.channels[c].(stored := false, callUid := 0)
                           else if call != 0 && n > 0 && c == s.ports[p].slots[n - 1] then s.channels[c].(stored := false, callUid := call)
                           else s.channels[c])
    && (forall u | u in s.tasks && u != t ::
          r.tasks[u] == if s.tasks[u].alive && s.tasks[u].pause.InCall? && Failed(s, p, copy, n, s.tasks[u].pause.via)
                        then Told(s.tasks[u], SenderStatus(copy(s.tasks[u].pause.via))) else s.tasks[u])
  }

  ghost predicate ReplyDone(s: State, r: State, t: int, uid: int, codes: (int, int), status: int)
    requires t in s.tasks
  {
    && r == s.(channels := r.channels, tasks := r.tasks) && (status == MSG_NOT_FOUND ==> r == s)
    && (forall c | c in s.channels && s.channels[c].callUid == uid && uid != 0 && ServedBy(s, c, s.tasks[t].process) ::
          Replied(s, r, t, c, codes, status))
    && ((forall c | c in s.channels && ServedBy(s, c, s.tasks[t].process) :: s.channels[c].callUid != uid || uid == 0)
        ==> status == MSG_NOT_FOUND)
  }

  predicate HasSide(s: State, t: int, p: int, c: int) {
    && p in s.ports && c in s.channels && s.channels[c].port == p
    && (t == s.channels[c].client || t == s.channels[c].server)
  }

  /** The slot of channel `c` is free again, and nothing else on any port has changed. */
  ghost predicate SlotFreed(s: State, r: State, p: int, c: int) {
    && p in s.ports && p in r.ports && r.ports == s.ports[p := s.ports[p].(slots := r.ports[p].slots)]
    && |r.ports[p].slots| == |s.ports[p].slots|
    && forall k | 0 <= k < |s.ports[p].slots| :: r.ports[p].slots[k] == if s.ports[p].slots[k] == c then NONE else s.ports[p].slots[k]
  }

  /** Thread `x` has channel `c` no longer in its list; nothing else about any thread of `tasks` has changed. */
  ghost predicate Struck(tasks: map<int, Task>, r: State, x: int, c: int) {
    && x in tasks && x in r.tasks && r.tasks == tasks[x := tasks[x].(channels := r.tasks[x].channels)]
    && c !in r.tasks[x].channels && forall d | d != c :: d in r.tasks[x].channels <==> d in tasks[x].channels
  }

  /** One side of channel `c` goes: the channel stays, without any call, for the other side, or is freed when that had gone
      before.  Only a client whose server goes in the middle of its call is told; a client that goes forgets the channel. */
  ghost predicate DisconnectDone(s: State, r: State, t: int, p: int, c: int)
    requires t in s.tasks
  {
    if !HasSide(s, t, p, c) then r == s
    else
      var ch := s.channels[c];
      var x := ch.client;
      if t == ch.server then
        if ch.clientUp then
          r == s.(channels := s.channels[c := ch.(serverUp := false, stored := false, callUid := 0)],
                  tasks := if Alive(s.tasks, x) && s.tasks[x].pause == InCall(c) then s.tasks[x := Told(s.tasks[x], PEER_DISCONNECTED)] else s.tasks)
        else
          && r == s.(channels := s.channels - {c}, tasks := r.tasks, ports := r.ports) && SlotFreed(s, r, p, c)
          && if Alive(s.tasks, x) then Struck(s.tasks, r, x, c) else r.tasks == s.tasks
      else
        && Struck(s.tasks, r, t, c)
        && if ch.serverUp then
             r == s.(channels := s.channels[c := ch.(clientUp := false, stored := false, callUid := 0)], tasks := r.tasks)
           else r == s.(channels := s.channels - {c}, tasks := r.tasks, ports := r.ports) && SlotFreed(s, r, p, c)
  }

  lemma NoSide(s: State, t: int, p: int, c: int)
    requires t in s.tasks && !HasSide(s, t, p, c)
    ensures DisconnectDone(s, s, t, p, c)
  {
  }

  lemma ServerLeft(s: State, p: int, c: int, k: int, t: int)
    requires Core(s, NONE) && InSlot(s, p, c, k) && Alive(s.tasks, t) && s.channels[c].server == t
    ensures DisconnectDone(s, ServerClosed(s, p, c, k), t, p, c)
  {
    PlaceFacts(s, c);
    RecordOwner(s, c);
    OnlySlot(s, p, c, k);
    hide Core, IndexOf;
    if !s.channels[c].clientUp && Alive(s.tasks, s.channels[c].client) {
      ForgotOne(s, s.channels[c].client, c);
    }
  }

  lemma ClientLeft(s: State, p: int, c: int, k: int, t: int)
    requires Core(s, NONE) && InSlot(s, p, c, k) && Alive(s.tasks, t) && s.tasks[t].pause == Running && s.channels[c].client == t
    requires s.channels[c].server != t
    ensures DisconnectDone(s, ClientClosed(ForgetChannel(s, t, c), p, c, k), t, p, c)
  {
    OnlySlot(s, p, c, k);
    ForgotOne(s, t, c);
    ForgotOne(ForgetChannel(s, t, c), t, c);
    hide Core, IndexOf;
  }

  lemma ForgotOne(s: State, t: int, c: int)
    requires t in s.tasks && Distinct(s.tasks[t].channels)
    ensures Distinct(ForgetChannel(s, t, c).tasks[t].channels) && Struck(s.tasks, ForgetChannel(s, t, c), t, c)
  {
    hide IndexOf;
  }

  lemma OnlySlot(s: State, p: int, c: int, k: int)
    requires Core(s, NONE) && InSlot(s, p, c, k)
    ensures c != NONE && forall j | 0 <= j < |s.ports[p].slots| && s.ports[p].slots[j] == c :: j == k
    ensures forall t | t in s.tasks && s.tasks[t].alive :: Distinct(s.tasks[t].channels)
  {
    PlaceFacts(s, c);
    assert SlotsOk(s, p);
    forall t | t in s.tasks && s.tasks[t].alive ensures Distinct(s.tasks[t].channels) {
      assert ListOk(s, t);
    }
  }

  predicate MayClose(s: State, t: int, p: int)
    requires t in s.tasks
  {
    p in s.ports && s.ports[p].process == s.tasks[t].process
  }

  /** A new slot while the port may have more, else the first free one. */
  ghost predicate FirstSlotTaken(was: seq<int>, slots: seq<int>, c: int) {
    if |was| < MSG_MAX_CHANNELS then slots == was + [c]
    else exists k :: 0 <= k < |was| && was[k] == NONE && NONE !in was[..k] && slots == was[k := c]
  }

  ghost predicate ConnectDone(s: State, r: State, t: int, p: int, memory: bool, c: int)
    requires t in s.tasks
  {
    && (c >= 0 <==> p in s.ports && s.ports[p].owner != t && |s.tasks[t].channels| < TASK_MAX_CHANNELS && memory
                    && s.nextChannel < MSG_ERR_BASE && (|s.ports[p].slots| < MSG_MAX_CHANNELS || NONE in s.ports[p].slots))
    && if c < 0 then
         && r == s
         && c == if p !in s.ports then PORT_NOT_FOUND else if s.ports[p].owner == t then SELF
                 else if |s.tasks[t].channels| >= TASK_MAX_CHANNELS then LIMIT
                 else if s.nextChannel < MSG_ERR_BASE && |s.ports[p].slots| >= MSG_MAX_CHANNELS && NONE !in s.ports[p].slots then PORT_FULL
                 else NOMEM
       else
         && c == s.nextChannel && c !in s.channels && p in r.ports && FirstSlotTaken(s.ports[p].slots, r.ports[p].slots, c)
         && r == s.(channels := s.channels[c := Channel(p, t, s.ports[p].owner, true, true, false, 0)],
                    tasks := s.tasks[t := s.tasks[t].(channels := s.tasks[t].channels + [c])],
                    ports := s.ports[p := s.ports[p].(slots := r.ports[p].slots)], nextChannel := c + 1)
  }

  ghost predicate PortDone(s: State, r: State, t: int, memory: bool, p: int)
    requires t in s.tasks && s.tasks[t].process in s.owned
  {
    && (p >= 0 <==> |s.owned[s.tasks[t].process]| < PROCESS_MAX_PORTS && s.nextPort < MSG_ERR_BASE && memory)
    && if p < 0 then r == s && p == (if |s.owned[s.tasks[t].process]| < PROCESS_MAX_PORTS then NOMEM else LIMIT)
       else
         var o := s.tasks[t].process;
         && p == s.nextPort && p !in s.ports && p in r.ports && |r.ports[p].waiters| == MAX_TASK_THREADS
         && (forall i | 0 <= i < MAX_TASK_THREADS :: r.ports[p].waiters[i] == Waiter(false, NONE))
         && r == s.(ports := s.ports[p := Port(o, t, [], r.ports[p].waiters)], owned := s.owned[o := s.owned[o] + [p]], nextPort := p + 1)
  }

  /** A thread has ended: nothing depends on it, everybody who did has been told, and nothing else has changed. */
  ghost predicate ExitDone(s: State, r: State, t: int) {
    && !Alive(r.tasks, t) && Departed(r, t) && t in s.tasks && r.tasks.Keys == s.tasks.Keys
    && r.nextCall == s.nextCall && r.nextChannel == s.nextChannel && r.nextPort == s.nextPort
    && r.tasks[t] == s.tasks[t].(alive := false, channels := [])
    && (forall u | u in s.tasks && u != t ::
          if s.tasks[u].alive then Released(s, s.tasks[u], r.tasks[u], OwnedBy(s.ports, t)) else r.tasks[u] == s.tasks[u])
    && (forall c :: c in r.channels <==> c in s.channels && s.channels[c].server != t && (s.channels[c].client == t ==> s.channels[c].serverUp))
    && (forall c | c in r.channels ::
          r.channels[c] == if s.channels[c].client == t then s.channels[c].(clientUp := false, stored := false, callUid := 0) else s.channels[c])
    && (forall p :: p in r.ports <==> p in s.ports && s.ports[p].owner != t)
    && (forall p | p in r.ports :: PortLeft(s, s.ports[p], r, r.ports[p], t))
  }

  /** A port of somebody else after `t` has ended: slots of freed channels and of `t` as a receiver are empty. */
  ghost predicate PortLeft(s: State, q: Port, r: State, q': Port, t: int) {
    && q' == q.(slots := q'.slots, waiters := q'.waiters) && |q'.slots| == |q.slots|
    && (forall k | 0 <= k < |q.slots| :: q'.slots[k] == if q.slots[k] in r.channels then q.slots[k] else NONE)
    && q'.waiters == Left(q.waiters, t)
  }

  function Left(ws: seq<Waiter>, t: int): (r: seq<Waiter>)
    ensures |r| == |ws| && forall i | 0 <= i < |ws| :: r[i] == if ws[i] == Waiter(true, t) then Waiter(false, t) else ws[i]
  {
    seq(|ws|, i requires 0 <= i < |ws| => if ws[i] == Waiter(true, t) then Waiter(false, t) else ws[i])
  }

  ghost predicate CallDone(s: State, r: State, op: Op, status: int)
    requires op.Call?
  {
    Met(s, r, op.t, op.c, op.buffer || op.handles > 0, op.o, status)
  }

  /** What a running thread's step in `msg.c` does. */
  ghost predicate Acted(s: State, op: Op, r: State)
    requires Proper(op) && Messaging(op) && op.t in s.tasks && s.tasks[op.t].process in s.owned
  {
    match op
    case Connect(t, p, memory) => exists c :: ConnectDone(s, r, t, p, memory, c)
    case CreatePort(t, memory) => exists p :: PortDone(s, r, t, memory, p)
    case Call(t, c, size, _, handles, handlesOk, _) =>
      if CallMayStart(s, t, c, size, handles, handlesOk) then exists status :: CallDone(s, r, op, status) else r == s
    case Receive(t, p, copy) => exists status, call :: ReceiveDone(s, r, t, p, copy, status, call)
    case Reply(t, uid, valid, size, handlesOk, o) =>
      exists status :: ReplyDone(s, r, t, uid, ReplyCodes(valid, size, handlesOk, o), status)
    case Disconnect(t, p, c) => DisconnectDone(s, r, t, p, c)
    case ClosePort(t, p) => if MayClose(s, t, p) then Gone(s, r, {p}) else r == s
  }

  ghost predicate Did(s: State, op: Op, r: State)
    requires Good(s) && Proper(op)
  {
    match op
    case NewProcess(o) => r == if o in s.owned then s else s.(owned := s.owned[o := []])
    case NewThread(t, o, wakers) => 
      r == if t in s.tasks || o !in s.owned then s else s.(tasks := s.tasks[t := Task(true, o, Running, 0, [], 0, [], wakers)])
    case Exit(t) => if Alive(s.tasks, t) then ExitDone(s, r, t) else r == s
    case Awaken(t) =>
      r == if Alive(s.tasks, t) && s.tasks[t].pause.Elsewhere? then s.(tasks := s.tasks[t := s.tasks[t].(pause := Running)]) else s
    case Sleep(t) => r == if Active(s, t) then s.(tasks := s.tasks[t := s.tasks[t].(pause := Elsewhere)]) else s
    case Block(t, w) =>
      r == if !Active(s, t) then s
           else s.(tasks := s.tasks[t := s.tasks[t].(pause := Waiting, wakers := s.tasks[t].wakers + {w})])
    case Register(t, w) =>
      r == if !Active(s, t) then s else s.(tasks := s.tasks[t := s.tasks[t].(wakers := s.tasks[t].wakers + {w})])
    case Fire(t, w, ebx) =>
      r == if !Alive(s.tasks, t) || w !in s.tasks[t].wakers then s
           else s.(tasks := s.tasks[t := s.tasks[t].(pause := Running, wakers := s.tasks[t].wakers - {w}, ebx := ebx)])
    case _ => if Active(s, op.t) then Acted(s, op, r) else r == s
  }

  /** Thread `t` lives on, starts no call, and has all results it had. */
  ghost predicate Carried(s: State, r: State, t: int)
    requires t in s.tasks
  {
    && t in r.tasks && r.tasks[t].alive == s.tasks[t].alive && r.tasks[t].calls == s.tasks[t].calls
    && Prefix(s.tasks[t].results, r.tasks[t].results)
  }

  /** Thread `t` has its wakers, and is paused as it was or not at all. */
  ghost predicate Stays(s: State, r: State, t: int)
    requires t in s.tasks
  {
    t in r.tasks && r.tasks[t].wakers == s.tasks[t].wakers && (r.tasks[t].pause == s.tasks[t].pause || r.tasks[t].pause == Running)
  }

  ghost predicate Moves(s: State, op: Op, r: State) {
    && Good(s) && Good(r)
    && (forall t | t in s.tasks && (t != Who(op) || Who(op) == NONE) :: Carried(s, r, t))
    && (forall t | t in s.tasks && (t != Mover(op) || Mover(op) == NONE) :: Stays(s, r, t))
    && (forall t | t in r.tasks && t !in s.tasks :: r.tasks[t].pause == Running)
    && ((op.Call? || op.Receive?) && op.t in s.tasks ==> op.t in r.tasks && r.tasks[op.t].wakers == s.tasks[op.t].wakers)
    && (op.Exit? ==> !Alive(r.tasks, op.t))
  }

  lemma StepMoves(s: State, op: Op, r: State)
    requires Good(s) && Inv(r) && Proper(op) && Step(s, r, Mover(op)) && (Messaging(op) || op.Exit?)
    requires op.Receive? && op.t in s.tasks ==> op.t in r.tasks && r.tasks[op.t].alive == s.tasks[op.t].alive && r.tasks[op.t].calls == s.tasks[op.t].calls
    requires op.Exit? ==> !Alive(r.tasks, op.t)
    ensures Moves(s, op, r)
  {
    hide Inv;
  }

  lemma PauseIs(s: State, op: Op, r: State)
    requires Good(s) && Proper(op) && Did(s, op, r) && !Messaging(op) && !op.Exit? && r != s
    ensures op.NewProcess? ==> op.r !in s.owned && r == s.(owned := s.owned[op.r := []])
    ensures op.NewThread? ==> op.t !in s.tasks && op.r in s.owned && r == Spawned(s, op.t, op.r, op.wakers)
    ensures op.Fire? ==> Alive(s.tasks, op.t) && op.w in s.tasks[op.t].wakers && r == Fired(s, op.t, op.w, op.ebx)
    ensures op.Sleep? || op.Awaken? || op.Block? || op.Register? ==>
      && Alive(s.tasks, op.t) && (Active(s, op.t) || s.tasks[op.t].pause.Elsewhere?) && (op.Awaken? || Active(s, op.t))
      && r == Paused(s, op.t, if op.Sleep? then Elsewhere else if op.Block? then Waiting else Running,
                     if op.Block? || op.Register? then s.tasks[op.t].wakers + {op.w} else s.tasks[op.t].wakers)
  {
    hide Inv, Acted, ExitDone;
  }

  /** The steps outside `msg.c`. */
  lemma PauseMoves(s: State, op: Op, r: State)
    requires Good(s) && Proper(op) && Did(s, op, r) && !Messaging(op) && !op.Exit?
    ensures (Good(r) <==> !Breaks(s, op)) && (Good(r) ==> Moves(s, op, r))
  {
    if r != s {
      PauseIs(s, op, r);
    }
    hide Inv, Acted, ExitDone, Paused, Fired, PauseOnly, Did;
    if op.NewProcess? && r != s {
      NewProcessKeeps(s, op.r);
    } else if op.NewThread? && r != s {
      NewThreadKeeps(s, op.t, op.r, op.wakers);
    } else if op.Fire? && Alive(s.tasks, op.t) && r != s {
      FireMoves(s, op, r);
    } else if r != s {
      SleepMoves(s, op, r);
    }
  }

  lemma FireMoves(s: State, op: Op, r: State)
    requires Good(s) && op.Fire? && Alive(s.tasks, op.t) && op.w in s.tasks[op.t].wakers && r == Fired(s, op.t, op.w, op.ebx)
    ensures (Good(r) <==> !Breaks(s, op)) && (Good(r) ==> Moves(s, op, r))
  {
    hide Inv, Fired, PauseOnly;
    FireKeepsIff(s, op.t, op.w, op.ebx);
    OnlyPaused(s, op.t);
    if !Breaks(s, op) {
      PausedMoves(s, op, r, op.t, s.tasks[op.t].wakers - {op.w});
    }
  }

  lemma SleepMoves(s: State, op: Op, r: State)
    requires Good(s) && (op.Sleep? || op.Awaken? || op.Block? || op.Register?)
    requires Alive(s.tasks, op.t) && (Active(s, op.t) || s.tasks[op.t].pause.Elsewhere?)
    requires r == Paused(s, op.t, if op.Sleep? then Elsewhere else if op.Block? then Waiting else Running,
                         if op.Block? || op.Register? then s.tasks[op.t].wakers + {op.w} else s.tasks[op.t].wakers)
    ensures Good(r) && Moves(s, op, r)
  {
    hide Inv, Paused, PauseOnly;
    var pause := if op.Sleep? then Elsewhere else if op.Block? then Waiting else Running;
    var wakers := if op.Block? || op.Register? then s.tasks[op.t].wakers + {op.w} else s.tasks[op.t].wakers;
    PauseKeeps(s, op.t, pause, wakers);
    OnlyPaused(s, op.t);
    PausedMoves(s, op, r, op.t, wakers);
  }

  lemma PausedMoves(s: State, op: Op, r: State, t: int, wakers: set<int>)
    requires Good(s) && Inv(r) && t in s.tasks && PauseOnly(s, r, t, wakers) && !Messaging(op) && !op.Exit?
    requires if Mover(op) == NONE then r.tasks[t].pause == Running && wakers == s.tasks[t].wakers else t == Mover(op)
    ensures Moves(s, op, r)
  {
    hide Inv;
  }

  lemma OnlyPaused(s: State, t: int)
    requires t in s.tasks
    ensures forall pause, wakers :: PauseOnly(s, Paused(s, t, pause, wakers), t, wakers) && Paused(s, t, pause, wakers).tasks[t].pause == pause
    ensures forall w, ebx :: PauseOnly(s, Fired(s, t, w, ebx), t, s.tasks[t].wakers - {w})
  {
  }

  ghost predicate PauseOnly(s: State, r: State, t: int, wakers: set<int>)
    requires t in s.tasks
  {
    && r.tasks.Keys == s.tasks.Keys && r.owned == s.owned && (forall u | u in s.tasks && u != t :: r.tasks[u] == s.tasks[u])
    && r.tasks[t].process == s.tasks[t].process && r.tasks[t].alive == s.tasks[t].alive && r.tasks[t].calls == s.tasks[t].calls
    && r.tasks[t].results == s.tasks[t].results && r.tasks[t].wakers == wakers
  }

  function Paused(s: State, t: int, pause: Pause, wakers: set<int>): State
    requires t in s.tasks
  {
    s.(tasks := s.tasks[t := s.tasks[t].(pause := pause, wakers := wakers)])
  }

  lemma PauseKeeps(s: State, t: int, pause: Pause, wakers: set<int>)
    requires Inv(s) && Alive(s.tasks, t) && !s.tasks[t].pause.InCall? && !s.tasks[t].pause.InReceive?
    requires pause == Running || pause == Waiting || pause == Elsewhere
    ensures Inv(Paused(s, t, pause, wakers))
  {
  }

  /** `fs_pipe_wake_reader` and its like */
  function Fired(s: State, t: int, w: int, ebx: int): State
    requires t in s.tasks
  {
    s.(tasks := s.tasks[t := s.tasks[t].(pause := Running, wakers := s.tasks[t].wakers - {w}, ebx := ebx)])
  }

  /** A waker keeps the invariant if and only if it does not find its thread in a call or a receive. */
  lemma FireKeepsIff(s: State, t: int, w: int, ebx: int)
    requires Inv(s) && Alive(s.tasks, t)
    ensures Inv(Fired(s, t, w, ebx)) <==> !s.tasks[t].pause.InCall? && !s.tasks[t].pause.InReceive?
  {
    hide Inv;
    if s.tasks[t].pause.InCall? || s.tasks[t].pause.InReceive? {
      FireBreaks(s, t, w, ebx);
    } else {
      PauseKeeps(s, t, Running, s.tasks[t].wakers - {w});
      EbxKeeps(Paused(s, t, Running, s.tasks[t].wakers - {w}), t, ebx);
      assert Fired(s, t, w, ebx).tasks == Paused(s, t, Running, s.tasks[t].wakers - {w}).tasks[t := Fired(s, t, w, ebx).tasks[t]];
    }
  }

  lemma EbxKeeps(s: State, t: int, ebx: int)
    requires Inv(s) && Alive(s.tasks, t) && s.tasks[t].pause == Running
    ensures Inv(s.(tasks := s.tasks[t := s.tasks[t].(ebx := ebx)]))
  {
    hide Core;
    EbxKeepsCore(s, t, ebx);
    assert SetEbx(s, t, ebx) == s.(tasks := s.tasks[t := s.tasks[t].(ebx := ebx)]);
  }

  lemma FireBreaks(s: State, t: int, w: int, ebx: int)
    requires Inv(s) && Alive(s.tasks, t) && (s.tasks[t].pause.InCall? || s.tasks[t].pause.InReceive?)
    ensures !Inv(Fired(s, t, w, ebx))
  {
    hide ListOk, SlotsOk, MetOk, OwnedOk, UidsOk, PlaceOk, Listed;
    var r := Fired(s, t, w, ebx);
    assert CallOk(s, t) && ReceiveOk(s, t);
    if s.tasks[t].pause.InCall? {
      assert !CallOk(r, t);
    } else {
      assert !WaiterOk(r.tasks, r.ports[s.tasks[t].pause.port], t, s.tasks[t].pause);
    }
  }

  /** `create_task_entry`: a thread with a fresh uid. */
  function Spawned(s: State, t: int, r: int, wakers: set<int>): State {
    s.(tasks := s.tasks[t := Task(true, r, Running, 0, [], 0, [], wakers)])
  }

  lemma NewThreadKeeps(s: State, t: int, r: int, wakers: set<int>)
    requires Good(s) && t !in s.tasks && t != NONE && r in s.owned
    ensures Good(Spawned(s, t, r, wakers)) && forall u | u in s.tasks :: Carried(s, Spawned(s, t, r, wakers), u)
  {
  }

  lemma NewProcessKeeps(s: State, r: int)
    requires Good(s) && r !in s.owned
    ensures var u := s.(owned := s.owned[r := []]); Good(u) && forall t | t in s.tasks :: Carried(s, u, t)
  {
  }

  /** A step of a run from a good state. */
  ghost predicate Follows(s: State, op: Op, r: State) {
    Good(s) && Proper(op) ==> Did(s, op, r) && (Good(r) <==> !Breaks(s, op)) && (Good(r) ==> Moves(s, op, r))
  }

  ghost predicate IsRun(trace: seq<State>, ops: seq<Op>) {
    && |trace| == |ops| + 1 && Good(trace[0])
    && forall k | 0 <= k < |ops| :: Proper(ops[k]) && Follows(trace[k], ops[k], trace[k + 1])
  }

  /** The invariant holds up to the first step that breaks it, and no longer. */
  lemma {:induction false} RunKeepsInv(trace: seq<State>, ops: seq<Op>, k: nat)
    requires IsRun(trace, ops) && k <= |ops| && forall i | 0 <= i < k :: !Breaks(trace[i], ops[i])
    ensures Good(trace[k]) && (k < |ops| ==> (Good(trace[k + 1]) <==> !Breaks(trace[k], ops[k])))
  {
    hide Good;
    if k > 0 {
      RunKeepsInv(trace, ops, k - 1);
    }
    assert k < |ops| ==> Follows(trace[k], ops[k], trace[k + 1]);
  }

  lemma GuardKept(s: State, op: Op, r: State)
    requires Moves(s, op, r) && Guarded(s) && !Exposed(s, op) && Proper(op) && Did(s, op, r)
    ensures Guarded(r)
  {
    hide Inv, Acted, ExitDone, CallMayStart;
    forall t | t in r.tasks && r.tasks[t].alive && (r.tasks[t].pause.InCall? || r.tasks[t].pause.InReceive?)
      ensures r.tasks[t].wakers == {}
    {
      assert t in s.tasks;
      if t == Mover(op) != NONE {
        MoverGuarded(s, op, r);
      } else {
        assert Stays(s, r, t) && Carried(s, r, t);
      }
    }
  }

  lemma MoverGuarded(s: State, op: Op, r: State)
    requires Moves(s, op, r) && Guarded(s) && !Exposed(s, op) && Proper(op) && Did(s, op, r)
    requires !op.NewProcess? && op.t == Mover(op) && op.t in s.tasks && op.t in r.tasks
    ensures Alive(r.tasks, op.t) && (r.tasks[op.t].pause.InCall? || r.tasks[op.t].pause.InReceive?) ==> r.tasks[op.t].wakers == {}
  {
    hide Inv, ExitDone, CallMayStart, Met, ReceiveDone;
    if r != s {
      match op
      case Call(_, _, _, _, _, _, _) =>
      case Receive(_, _, _) =>
      case Exit(_) =>
      case _ =>
    }
  }

  /** Runs in which nobody waits for a message with a waker on record, and no NULL buffer is sent, are sound throughout. */
  lemma {:induction false} GuardedRunsAreGood(trace: seq<State>, ops: seq<Op>, k: nat)
    requires IsRun(trace, ops) && k <= |ops| && Guarded(trace[0])
    requires forall i | 0 <= i < k :: !Exposed(trace[i], ops[i]) && !Loses(trace[i], ops[i])
    ensures Good(trace[k]) && Guarded(trace[k])
  {
    hide Good, Did, Moves, Exposed, Loses;
    if k > 0 {
      GuardedRunsAreGood(trace, ops, k - 1);
      assert Follows(trace[k - 1], ops[k - 1], trace[k - 1 + 1]);
      GuardKept(trace[k - 1], ops[k - 1], trace[k]);
    }
  }

  lemma {:induction false} CarriedOverRuns(trace: seq<State>, ops: seq<Op>, t: int, i: nat, j: nat)
    requires IsRun(trace, ops) && i <= j <= |ops| && t in trace[i].tasks && forall k | i <= k < j :: Who(ops[k]) != t
    requires forall k | 0 <= k < j :: !Breaks(trace[k], ops[k])
    ensures Carried(trace[i], trace[j], t)
    decreases j - i
  {
    hide Good, Did, Breaks;
    if i < j {
      CarriedOverRuns(trace, ops, t, i, j - 1);
      RunKeepsInv(trace, ops, j - 1);
      assert Follows(trace[j - 1], ops[j - 1], trace[j - 1 + 1]);
      assert Carried(trace[j - 1], trace[j], t);
    }
  }

  /** Exactly once, over whole runs: however many steps other threads, closing ports and ending peers take, a thread that
      is in a call and lives has either no result for it and is still in it, or exactly one, and has left it. */
  lemma ExactlyOnceOverRuns(trace: seq<State>, ops: seq<Op>, t: int, i: nat, j: nat)
    requires IsRun(trace, ops) && i <= j <= |ops| && Alive(trace[i].tasks, t) && forall k | i <= k < j :: Who(ops[k]) != t
    requires forall k | 0 <= k < j :: !Breaks(trace[k], ops[k])
    ensures Alive(trace[j].tasks, t)
    ensures trace[i].tasks[t].pause.InCall? ==>
              |trace[j].tasks[t].results| == |trace[i].tasks[t].results| + (if trace[j].tasks[t].pause.InCall? then 0 else 1)
    ensures !trace[i].tasks[t].pause.InCall? ==>
              !trace[j].tasks[t].pause.InCall? && trace[j].tasks[t].results == trace[i].tasks[t].results
  {
    CarriedOverRuns(trace, ops, t, i, j);
    RunKeepsInv(trace, ops, i);
    RunKeepsInv(trace, ops, j);
    InCallOrNot(trace[i], t);
    InCallOrNot(trace[j], t);
  }

  /** The same under the guard, which threads can keep by themselves. */
  lemma ExactlyOnceUnderGuard(trace: seq<State>, ops: seq<Op>, t: int, i: nat, j: nat)
    requires IsRun(trace, ops) && i <= j <= |ops| && Alive(trace[i].tasks, t) && forall k | i <= k < j :: Who(ops[k]) != t
    requires Guarded(trace[0]) && forall k | 0 <= k < j :: !Exposed(trace[k], ops[k]) && !Loses(trace[k], ops[k])
    ensures Alive(trace[j].tasks, t)
    ensures trace[i].tasks[t].pause.InCall? ==>
              |trace[j].tasks[t].results| == |trace[i].tasks[t].results| + (if trace[j].tasks[t].pause.InCall? then 0 else 1)
    ensures !trace[i].tasks[t].pause.InCall? ==>
              !trace[j].tasks[t].pause.InCall? && trace[j].tasks[t].results == trace[i].tasks[t].results
  {
    hide Good, Did, Moves, Exposed, Loses, Follows;
    forall k | 0 <= k < j ensures !Breaks(trace[k], ops[k]) {
      GuardedRunsAreGood(trace, ops, k);
    }
    ExactlyOnceOverRuns(trace, ops, t, i, j);
  }

  method TwoThreads() returns (ipc: Ipc)
    ensures fresh(ipc) && Good(ipc.s) && Active(ipc.s, 1) && Active(ipc.s, 2)
    ensures ipc.s == State(map[1 := NewTask(1), 2 := NewTask(2)], map[], map[], map[1 := [], 2 := []], 1, 0, 0)
  {
    hide Inv, Moves, Step, Acted, ExitDone;
    ipc := new Ipc();
    ipc.Perform(NewProcess(1));
    ipc.Perform(NewProcess(2));
    ipc.Perform(NewThread(1, 1, {}));
    ipc.Perform(NewThread(2, 2, {}));
    assert ipc.s.tasks == map[1 := NewTask(1), 2 := NewTask(2)];
  }

  function NewTask(r: int): Task { Task(true, r, Running, 0, [], 0, [], {}) }

  /** Thread 2 of one process with a port, and thread 1 of another, connected to it. */
  method ConnectedPair() returns (ipc: Ipc, p: int, c: int)
    ensures fresh(ipc) && Good(ipc.s) && Active(ipc.s, 1) && ipc.s.tasks[1] == NewTask(1).(channels := [c])
    ensures c in ipc.s.channels && ipc.s.channels[c] == Channel(p, 1, 2, true, true, false, 0)
    ensures p in ipc.s.ports && forall i | 0 <= i < |ipc.s.ports[p].waiters| :: !ipc.s.ports[p].waiters[i].active
  {
    hide Inv, Step;
    ipc := TwoThreads();
    ghost var s0 := ipc.s;
    p := ipc.CreatePort(2, true);
    ghost var s1 := ipc.s;
    StepGood(s0, s1, NONE);
    c := ipc.Connect(1, p, true);
    StepGood(s1, ipc.s, NONE);
    assert [] + [c] == [c];
  }

  lemma StepGood(s: State, r: State, who: int)
    requires Good(s) && Inv(r) && Step(s, r, who)
    ensures Good(r)
  {
    hide Inv;
  }

  /** A client reads an empty pipe into a buffer that is not mapped, which leaves it on record there, and then calls: the
      next write to the pipe takes it out of its call, without a result and with its send still stored. */
  method StrayWakeExample(o: Copy) returns (ipc: Ipc, c: int)
    ensures fresh(ipc) && !Inv(ipc.s) && c in ipc.s.channels && ipc.s.channels[c].client == 1 && ipc.s.channels[c].stored
    ensures 1 in ipc.s.tasks && ipc.s.tasks[1].pause == Running && ipc.s.tasks[1].calls == 1 && ipc.s.tasks[1].results == []
  {
    hide Inv, Moves, Acted, ExitDone;
    var p;
    ipc, p, c := ConnectedPair();
    ipc.Perform(Register(1, 7));
    assert FirstWaiter(ipc.s.tasks, ipc.s.ports[p].waiters, 0) == NONE;
    var status := ipc.Call(1, c, 1, true, 0, true, o);
    ipc.Perform(Fire(1, 7, 1));
  }

  lemma InCallOrNot(s: State, t: int)
    requires Inv(s) && Alive(s.tasks, t)
    ensures s.tasks[t].calls == |s.tasks[t].results| + (if s.tasks[t].pause.InCall? then 1 else 0)
  {
    assert CallOk(s, t);
  }

  function Connected(s: State, t: int, p: int, slots: seq<int>): (r: State)
    requires t in s.tasks && p in s.ports
  {
    var c := s.nextChannel;
    s.(channels := s.channels[c := Channel(p, t, s.ports[p].owner, true, true, false, 0)],
       tasks := s.tasks[t := s.tasks[t].(channels := s.tasks[t].channels + [c])],
       ports := s.ports[p := s.ports[p].(slots := slots)], nextChannel := c + 1)
  }

  function Opened(s: State, t: int): (r: State)
    requires t in s.tasks && s.tasks[t].process in s.owned
  {
    var o := s.tasks[t].process;
    s.(ports := s.ports[s.nextPort := Port(o, t, [], seq(MAX_TASK_THREADS, i => Waiter(false, NONE)))],
       owned := s.owned[o := s.owned[o] + [s.nextPort]], nextPort := s.nextPort + 1)
  }

  ghost predicate SlotTaken(was: seq<int>, slots: seq<int>, c: int) {
    || slots == was + [c]
    || exists k :: 0 <= k < |was| && was[k] == NONE && slots == was[k := c]
  }

  lemma ConnectedKeepsInv(s: State, t: int, p: int, slots: seq<int>)
    requires Inv(s) && Alive(s.tasks, t) && p in s.ports && s.ports[p].owner != t && SlotTaken(s.ports[p].slots, slots, s.nextChannel)
    ensures Inv(Connected(s, t, p, slots)) && Step(s, Connected(s, t, p, slots), NONE) && s.nextChannel >= 0 && s.nextChannel !in s.channels
  {
    hide CallOk, ReceiveOk, ListOk, RecordOk, PlaceOk, MetOk, Listed, SlotsOk, WaitersOk, OwnedOk, SlotTaken;
    var r := Connected(s, t, p, slots);
    var c := s.nextChannel;
    NewChannel(s);
    OwnedSame(s, r);
    ConnectedSlots(s, t, p, slots);
    forall u | u in r.tasks && r.tasks[u].alive ensures CallOk(r, u) && ReceiveOk(r, u) && ListOk(r, u) {
      ConnectedTask(s, t, p, slots, u);
    }
    forall d | d in r.channels ensures RecordOk(r, d) && PlaceOk(r, d) && MetOk(r, d) && Listed(r, d) {
      ConnectedChannel(s, t, p, slots, d);
    }
    forall q | q in r.ports ensures SlotsOk(r, q) && WaitersOk(r, q) {
      ConnectedPort(s, t, p, slots, q);
    }
  }

  lemma NewChannel(s: State)
    requires Core(s, NONE)
    ensures s.nextChannel !in s.channels && s.nextChannel >= 0
  {
  }

  lemma ConnectedTask(s: State, t: int, p: int, slots: seq<int>, u: int)
    requires Core(s, NONE) && t in s.tasks && p in s.ports && u in s.tasks && s.tasks[u].alive && s.nextChannel !in s.channels
    ensures var r := Connected(s, t, p, slots); CallOk(r, u) && ReceiveOk(r, u) && ListOk(r, u)
  {
  }

  lemma ConnectedChannel(s: State, t: int, p: int, slots: seq<int>, d: int)
    requires Core(s, NONE) && Alive(s.tasks, t) && p in s.ports && s.ports[p].owner != t && s.nextChannel !in s.channels && s.nextChannel in slots
    requires d in s.channels || d == s.nextChannel
    requires forall x | x in s.ports[p].slots && x != NONE :: x in slots
    ensures var r := Connected(s, t, p, slots); RecordOk(r, d) && PlaceOk(r, d) && MetOk(r, d) && Listed(r, d)
  {
  }

  lemma ConnectedPort(s: State, t: int, p: int, slots: seq<int>, q: int)
    requires Core(s, NONE) && t in s.tasks && p in s.ports && q in s.ports && s.nextChannel !in s.channels
    requires SlotsOk(Connected(s, t, p, slots), p)
    ensures var r := Connected(s, t, p, slots); SlotsOk(r, q) && WaitersOk(r, q)
  {
  }

  lemma OpenedKeepsInv(s: State, t: int)
    requires Inv(s) && Alive(s.tasks, t) && s.tasks[t].process in s.owned
    ensures Inv(Opened(s, t)) && Step(s, Opened(s, t), NONE) && s.nextPort >= 0 && s.nextPort !in s.ports
  {
    hide OwnedOk;
    var r := Opened(s, t);
    assert s.nextPort !in s.ports;
    OpenedOwned(s, t);
    forall u | u in r.tasks && r.tasks[u].alive ensures CallOk(r, u) && ReceiveOk(r, u) && ListOk(r, u) {
      assert CallOk(s, u) && ReceiveOk(s, u) && ListOk(s, u);
    }
    forall d | d in r.channels ensures RecordOk(r, d) && PlaceOk(r, d) && MetOk(r, d) && Listed(r, d) {
      assert RecordOk(s, d) && PlaceOk(s, d) && MetOk(s, d) && Listed(s, d);
    }
    forall q | q in r.ports ensures SlotsOk(r, q) && WaitersOk(r, q) {
      assert q != s.nextPort ==> SlotsOk(s, q) && WaitersOk(s, q);
    }
  }

  lemma OpenedOwned(s: State, t: int)
    requires OwnedOk(s.ports, s.owned) && t in s.tasks && s.tasks[t].process in s.owned && s.nextPort !in s.ports
    ensures OwnedOk(Opened(s, t).ports, Opened(s, t).owned)
  {
  }

  /** The new channel has a slot, and the others keep theirs. */
  lemma ConnectedSlots(s: State, t: int, p: int, slots: seq<int>)
    requires Core(s, NONE) && t in s.tasks && p in s.ports && s.nextChannel !in s.channels && s.nextChannel >= 0
    requires SlotTaken(s.ports[p].slots, slots, s.nextChannel)
    ensures s.nextChannel in slots && SlotsOk(Connected(s, t, p, slots), p)
    ensures forall d | d in s.ports[p].slots && d != NONE :: d in slots
  {
    hide TasksOk, ChannelsOk;
    assert SlotsOk(s, p);
    var was := s.ports[p].slots;
    if slots != was + [s.nextChannel] {
      var k :| 0 <= k < |was| && was[k] == NONE && slots == was[k := s.nextChannel];
      assert slots[k] == s.nextChannel;
      forall d | d in was && d != NONE ensures d in slots {
        var j :| 0 <= j < |was| && was[j] == d;
        assert slots[j] == d;
      }
    } else {
      assert slots[|was|] == s.nextChannel;
    }
  }

  ghost function OwnedBy(ports: map<int, Port>, t: int): set<int> {
    set p | p in ports && ports[p].owner == t
  }

  /** Nothing in the system waits on, calls through or serves for the dead thread. */
  ghost predicate Departed(s: State, t: int) {
    && (forall c | c in s.channels :: s.channels[c].server != t)
    && (forall c | c in s.channels && s.channels[c].client == t :: !s.channels[c].clientUp && !Recorded(s.channels[c]))
    && (forall p | p in s.ports :: s.ports[p].owner != t && Unwaited(s, p, t))
  }

  ghost predicate Unwaited(s: State, p: int, t: int) {
    p in s.ports ==> forall i | 0 <= i < |s.ports[p].waiters| :: s.ports[p].waiters[i] != Waiter(true, t)
  }

  lemma OwnedIrrelevant(s: State, p: int)
    requires Inv(s) && p in s.ports
    ensures var r := s.ports[p].process; r in s.owned && Core(s.(owned := s.owned[r := Forget(s.owned[r], p)]), NONE)
  {
  }

  lemma PortStruck(s: State, r: State, p: int)
    requires OwnedOk(s.ports, s.owned) && p in s.ports && Gone(s.(owned := r.owned), r, {p})
    requires var o := s.ports[p].process; r.owned == s.owned[o := Forget(s.owned[o], p)]
    ensures OwnedOk(r.ports, r.owned) && Gone(s, r, {p})
  {
  }

  /** While the dead thread's channels are closed, nobody else's are touched. */
  ghost predicate Dropping(was: State, s: State, t: int) {
    && Core(s, NONE) && Step(was, s, t) && SamePorts(was, s) && t in s.tasks && !s.tasks[t].alive && ListOk(s, t)
    && s == was.(tasks := s.tasks, channels := s.channels, ports := s.ports)
    && (forall u | u in was.tasks && u != t :: u in s.tasks && s.tasks[u] == was.tasks[u])
    && t in was.tasks && s.tasks[t] == was.tasks[t].(alive := false, channels := s.tasks[t].channels)
    && (forall c | c in was.channels && was.channels[c].client != t :: c in s.channels && s.channels[c] == was.channels[c])
    && (forall c | c in s.channels :: c in was.channels && s.channels[c].client == was.channels[c].client)
    && (forall c | c in was.channels && was.channels[c].client == t :: Dropped(was, s, c))
    && (forall p | p in s.ports :: SlotsLeft(was, s, p))
  }

  /** A channel of the dead thread is as it was, without its client, or freed since the server had gone before. */
  ghost predicate Dropped(was: State, s: State, c: int)
    requires c in was.channels
  {
    var ch := was.channels[c];
    if c in s.channels then s.channels[c] == ch || s.channels[c] == ch.(clientUp := false, stored := false, callUid := 0) else !ch.serverUp
  }

  ghost predicate SlotsLeft(was: State, s: State, p: int)
    requires p in s.ports
  {
    && p in was.ports && s.ports[p] == was.ports[p].(slots := s.ports[p].slots) && |s.ports[p].slots| == |was.ports[p].slots|
    && forall k | 0 <= k < |was.ports[p].slots| ::
         s.ports[p].slots[k] == if was.ports[p].slots[k] in s.channels then was.ports[p].slots[k] else NONE
  }

  lemma EndedKeepsCore(s: State, t: int)
    requires Core(s, NONE) && Alive(s.tasks, t)
    ensures Core(Ended(s, t), NONE) && Step(s, Ended(s, t), t) && ListOk(Ended(s, t), t)
  {
  }

  lemma DroppingStart(s: State, t: int)
    requires Core(s, NONE) && Alive(s.tasks, t)
    ensures Dropping(s, Ended(s, t), t)
  {
    EndedKeepsCore(s, t);
    AllSlots(s);
    hide Core;
  }

  lemma AllSlots(s: State)
    requires Core(s, NONE)
    ensures forall p | p in s.ports :: SlotsOk(s, p)
  {
  }

  lemma DroppingHere(was: State, s: State, t: int)
    requires Dropping(was, s, t)
    ensures t in s.tasks
    ensures s.tasks[t].channels != [] ==>
      var c := s.tasks[t].channels[0];
      c in s.channels && c >= 0 && s.channels[c].port in s.ports && c in s.ports[s.channels[c].port].slots
  {
  }

  lemma DroppingStep(was: State, s: State, t: int, k: int)
    requires Dropping(was, s, t) && s.tasks[t].channels != []
    requires var c := s.tasks[t].channels[0]; c in s.channels && InSlot(s, s.channels[c].port, c, k)
    ensures var c := s.tasks[t].channels[0]; var u := ClientClosed(s, s.channels[c].port, c, k);
      && t in u.tasks && u.tasks[t] == s.tasks[t]
      && |Forget(s.tasks[t].channels, c)| < |s.tasks[t].channels| && Dropping(was, ForgetChannel(u, t, c), t)
  {
    var c := s.tasks[t].channels[0];
    var u := ClientClosed(s, s.channels[c].port, c, k);
    DroppingSlots(was, s, t, k);
    hide Core, Forget, SlotsLeft, Dropped, Step;
    UnlistCore(s, c);
    ClientClosedKeepsCore(s, s.channels[c].port, c, k);
    ForgetKeepsCore(u, t, c);
    StepWiden(s, u, t);
    StepWiden(u, ForgetChannel(u, t, c), t);
    StepTrans(was, s, u, t);
    StepTrans(was, u, ForgetChannel(u, t, c), t);
    DroppingRest(was, s, u, ForgetChannel(u, t, c), t, k);
  }

  lemma DroppingRest(was: State, s: State, u: State, r: State, t: int, k: int)
    requires Dropping(was, s, t) && s.tasks[t].channels != [] && Core(r, NONE) && Step(was, r, t) && SamePorts(s, u)
    requires var c := s.tasks[t].channels[0];
      c in s.channels && s.channels[c].client == t && InSlot(s, s.channels[c].port, c, k)
      && u == ClientClosed(s, s.channels[c].port, c, k) && r == ForgetChannel(u, t, c) && t in u.tasks && Distinct(s.tasks[t].channels)
      && (c in r.channels ==> !r.channels[c].clientUp)
    requires forall p | p in u.ports :: SlotsLeft(was, u, p)
    requires forall d | d in was.channels && was.channels[d].client == t :: Dropped(was, u, d)
    ensures u.tasks[t] == s.tasks[t] && |Forget(s.tasks[t].channels, s.tasks[t].channels[0])| < |s.tasks[t].channels| && Dropping(was, r, t)
  {
    hide Core, Forget, Step, SlotsLeft, Dropped;
    assert forall p | p in r.ports :: SlotsLeft(was, u, p);
    SameSlotsLeft(was, u, r);
  }

  lemma SameSlotsLeft(was: State, u: State, r: State)
    requires r.ports == u.ports && r.channels == u.channels
    requires forall p | p in u.ports :: SlotsLeft(was, u, p)
    ensures forall p | p in r.ports :: SlotsLeft(was, r, p)
    ensures forall d | d in was.channels && Dropped(was, u, d) :: Dropped(was, r, d)
  {
  }

  lemma DroppingSlots(was: State, s: State, t: int, k: int)
    requires Dropping(was, s, t) && s.tasks[t].channels != []
    requires var c := s.tasks[t].channels[0]; c in s.channels && InSlot(s, s.channels[c].port, c, k)
    ensures s.channels[s.tasks[t].channels[0]].client == t && Distinct(s.tasks[t].channels)
    ensures var c := s.tasks[t].channels[0]; var u := ClientClosed(s, s.channels[c].port, c, k);
      && (forall p | p in u.ports :: SlotsLeft(was, u, p))
      && (forall d | d in was.channels && was.channels[d].client == t :: Dropped(was, u, d))
  {
    var c := s.tasks[t].channels[0];
    var p := s.channels[c].port;
    assert ListOk(s, t);
    OnlySlot(s, p, c, k);
    PlaceFacts(s, c);
    OtherSlots(s, p, c);
    hide Core, Step, Forget;
    var u := ClientClosed(s, p, c, k);
    forall d | d in was.channels && was.channels[d].client == t ensures Dropped(was, u, d) {
      assert Dropped(was, s, d);
    }
    forall q | q in u.ports ensures SlotsLeft(was, u, q) {
      assert SlotsLeft(was, s, q);
    }
  }

  lemma OtherSlots(s: State, p: int, c: int)
    requires Core(s, NONE) && c in s.channels && s.channels[c].port == p
    ensures forall q, j | q in s.ports && q != p && 0 <= j < |s.ports[q].slots| :: s.ports[q].slots[j] != c
  {
    PlaceFacts(s, c);
    AllSlots(s);
    hide Core;
  }

  lemma StepWiden(s: State, r: State, who: int)
    requires Step(s, r, NONE)
    ensures Step(s, r, who)
  {
  }

  lemma DroppingEnd(was: State, s: State, t: int)
    requires Dropping(was, s, t) && s.tasks[t].channels == [] && OwnedOk(was.ports, was.owned)
    ensures Inv(s) && t in s.tasks && !s.tasks[t].alive && t in was.tasks && s.tasks[t].process == was.tasks[t].process
    ensures s.owned == was.owned
    ensures forall c | c in s.channels && s.channels[c].client == t :: !s.channels[c].clientUp && !Recorded(s.channels[c])
  {
  }

  /** While the dead thread's waiter slots are dropped, nothing else changes. */
  ghost predicate Shed(was: State, s: State, t: int) {
    && Core(s, NONE) && SamePorts(was, s) && s == was.(ports := s.ports) && t in s.tasks && !s.tasks[t].alive
    && forall p | p in s.ports :: WaitersLeft(was, s, p, t)
  }

  /** Only slots of the dead thread have been emptied. */
  ghost predicate WaitersLeft(was: State, s: State, p: int, t: int)
    requires p in s.ports
  {
    && p in was.ports && s.ports[p] == was.ports[p].(waiters := s.ports[p].waiters) && |s.ports[p].waiters| == |was.ports[p].waiters|
    && forall i | 0 <= i < |was.ports[p].waiters| ::
         s.ports[p].waiters[i] == was.ports[p].waiters[i]
         || (was.ports[p].waiters[i] == Waiter(true, t) && s.ports[p].waiters[i] == Waiter(false, t))
  }

  lemma ShedStart(s: State, t: int)
    requires Core(s, NONE) && t in s.tasks && !s.tasks[t].alive
    ensures Shed(s, s, t)
  {
  }

  lemma ShedFacts(was: State, s: State, t: int, p: int)
    requires Shed(was, s, t) && p in s.ports
    ensures |s.ports[p].waiters| == MAX_TASK_THREADS
  {
  }

  lemma ShedStep(was: State, s: State, t: int, p: int, i: nat)
    requires Shed(was, s, t) && p in s.ports && i < |s.ports[p].waiters| && s.ports[p].waiters[i] == Waiter(true, t)
    ensures Shed(was, Drop(s, p, i), t)
  {
  }

  lemma ShedEnd(was: State, s: State, t: int, r: int)
    requires Shed(was, s, t) && OwnedOk(was.ports, was.owned) && r in s.owned && s.owned == was.owned && s.tasks[t].process == r
    requires forall j | 0 <= j < |s.owned[r]| :: Unwaited(s, s.owned[r][j], t)
    ensures forall p | p in s.ports :: Unwaited(s, p, t)
  {
  }

  lemma ShedInv(was: State, s: State, t: int)
    requires Shed(was, s, t) && OwnedOk(was.ports, was.owned)
    ensures Inv(s) && s == was.(ports := s.ports) && SamePorts(was, s)
  {
  }

  lemma GoneNothing(s: State)
    ensures Gone(s, s, {}) && Step(s, s, NONE)
  {
  }

  lemma GoneTrans(s: State, m: State, r: State, ps: set<int>, p: int)
    requires Gone(s, m, ps) && Gone(m, r, {p})
    ensures Gone(s, r, ps + {p})
  {
  }

  lemma GoneMore(was: State, s: State, r: State, gone: set<int>, p: int, n: int, o: int, t: int)
    requires OwnedOk(s.ports, s.owned) && o in s.owned && 0 <= n < |s.owned[o]| && s.owned[o][n] == p && p in s.ports
    requires s.ports[p].owner == t && Gone(was, s, gone) && Gone(s, r, {p}) && r.owned == s.owned[o := Forget(s.owned[o], p)]
    requires Step(was, s, NONE) && Step(s, r, NONE)
    requires forall j | n < j < |s.owned[o]| :: s.owned[o][j] in s.ports && s.ports[s.owned[o][j]].owner != t
    ensures Step(was, r, NONE) && Gone(was, r, gone + {p}) && p in was.ports && was.ports[p].owner == t
    ensures n - 1 < |r.owned[o]| && forall j | n - 1 < j < |r.owned[o]| :: r.owned[o][j] in r.ports && r.ports[r.owned[o][j]].owner != t
  {
    hide Forget;
    StepTrans(was, s, r, NONE);
    GoneTrans(was, s, r, gone, p);
    ForgetAt(s.owned[o], n);
  }

  lemma ForgetAt(q: seq<int>, n: nat)
    requires Distinct(q) && n < |q|
    ensures Forget(q, q[n]) == q[n := q[|q| - 1]][..|q| - 1]
  {
  }

  lemma GoneAll(was: State, s: State, gone: set<int>, r: int, t: int)
    requires Inv(was) && Inv(s) && Gone(was, s, gone) && t in was.tasks && was.tasks[t].process == r && r in s.owned
    requires forall p | p in gone :: p in was.ports && was.ports[p].owner == t
    requires forall j | 0 <= j < |s.owned[r]| :: s.owned[r][j] in s.ports && s.ports[s.owned[r][j]].owner != t
    ensures gone == OwnedBy(was.ports, t)
  {
    hide TasksOk, ChannelsOk;
    forall p | p in s.ports ensures s.ports[p].owner != t {
      assert s.ports[p] == was.ports[p] && WaitersOk(was, p);
      if s.ports[p].process == r {
        assert p in s.owned[r];
      }
    }
    assert forall p :: p in gone <==> p in OwnedBy(was.ports, t);
  }

  lemma TaskGone(s0: State, s1: State, s2: State, s: State, t: int)
    requires Core(s0, NONE) && Dropping(s0, s1, t) && SamePorts(s1, s2) && s2 == s1.(ports := s2.ports)
    requires forall c | c in s1.channels && s1.channels[c].client == t :: !s1.channels[c].clientUp && !Recorded(s1.channels[c])
    requires forall p | p in s2.ports :: Unwaited(s2, p, t)
    requires Core(s, NONE) && Step(s2, s, NONE) && Gone(s2, s, OwnedBy(s2.ports, t))
    ensures Step(s0, s, t) && !Alive(s.tasks, t) && Departed(s, t)
    ensures forall p :: p in s.ports <==> p in s0.ports && s0.ports[p].owner != t
    ensures forall u | u in s0.tasks && s0.tasks[u].alive && u != t ::
              u in s.tasks && s.tasks[u].alive && Released(s0, s0.tasks[u], s.tasks[u], OwnedBy(s0.ports, t))
  {
    hide Core, Step;
    TaskGoneStep(s0, s1, s2, s, t);
    assert forall p :: p in OwnedBy(s2.ports, t) <==> p in OwnedBy(s0.ports, t);
    forall c | c in s.channels ensures s.channels[c].server != t {
      PlaceFacts(s, c);
    }
    forall u | u in s0.tasks && s0.tasks[u].alive && u != t
      ensures u in s.tasks && s.tasks[u].alive && Released(s0, s0.tasks[u], s.tasks[u], OwnedBy(s0.ports, t))
    {
      CallHolds(s0, u);
      assert Released(s2, s2.tasks[u], s.tasks[u], OwnedBy(s2.ports, t));
    }
  }

  lemma ExitIs(s0: State, s1: State, s2: State, s: State, t: int)
    requires Core(s0, NONE) && Dropping(s0, s1, t) && Shed(s1, s2, t) && s1.tasks[t].channels == []
    requires forall c | c in s1.channels && s1.channels[c].client == t :: !s1.channels[c].clientUp && !Recorded(s1.channels[c])
    requires forall p | p in s2.ports :: Unwaited(s2, p, t)
    requires Core(s, NONE) && Step(s2, s, NONE) && Step(s0, s, t) && Gone(s2, s, OwnedBy(s2.ports, t)) && Departed(s, t) && !Alive(s.tasks, t)
    requires forall p :: p in s.ports <==> p in s0.ports && s0.ports[p].owner != t
    requires forall u | u in s0.tasks && s0.tasks[u].alive && u != t ::
              u in s.tasks && s.tasks[u].alive && Released(s0, s0.tasks[u], s.tasks[u], OwnedBy(s0.ports, t))
    ensures ExitDone(s0, s, t)
  {
    ExitChannels(s0, s1, s2, s, t);
    ExitPorts(s0, s1, s2, s, t);
    hide Core, Departed, Released, Step;
    assert s.tasks.Keys == s0.tasks.Keys by { SameTasks(s0, s, t); }
  }

  lemma SameTasks(s: State, r: State, who: int)
    requires Step(s, r, who)
    ensures r.tasks.Keys == s.tasks.Keys
  {
  }

  lemma ExitChannels(s0: State, s1: State, s2: State, s: State, t: int)
    requires Core(s0, NONE) && Dropping(s0, s1, t) && Shed(s1, s2, t) && Gone(s2, s, OwnedBy(s2.ports, t))
    requires forall c | c in s1.channels && s1.channels[c].client == t :: !s1.channels[c].clientUp && !Recorded(s1.channels[c])
    ensures forall c :: c in s.channels <==> c in s0.channels && s0.channels[c].server != t && (s0.channels[c].client == t ==> s0.channels[c].serverUp)
    ensures forall c | c in s.channels ::
              s.channels[c] == if s0.channels[c].client == t then s0.channels[c].(clientUp := false, stored := false, callUid := 0) else s0.channels[c]
  {
    hide Released;
    forall c
      ensures c in s.channels <==> c in s0.channels && s0.channels[c].server != t && (s0.channels[c].client == t ==> s0.channels[c].serverUp)
      ensures c in s.channels ==>
        s.channels[c] == if s0.channels[c].client == t then s0.channels[c].(clientUp := false, stored := false, callUid := 0) else s0.channels[c]
    {
      if c in s0.channels {
        ExitChannel(s0, s1, t, c);
        if c in s1.channels {
          PlaceFacts(s1, c);
        }
      }
    }
  }

  lemma ExitChannel(s0: State, s1: State, t: int, c: int)
    requires Core(s0, NONE) && Dropping(s0, s1, t) && c in s0.channels
    requires c in s1.channels && s1.channels[c].client == t ==> !s1.channels[c].clientUp && !Recorded(s1.channels[c])
    ensures c in s1.channels <==> s0.channels[c].client == t ==> s0.channels[c].serverUp
    ensures c in s1.channels ==>
      s1.channels[c] == if s0.channels[c].client == t then s0.channels[c].(clientUp := false, stored := false, callUid := 0) else s0.channels[c]
  {
    if c in s1.channels {
      PlaceFacts(s1, c);
    }
    hide Core, Step, SlotsLeft;
    assert s0.channels[c].client == t ==> Dropped(s0, s1, c);
  }

  lemma ExitPorts(s0: State, s1: State, s2: State, s: State, t: int)
    requires Core(s0, NONE) && Dropping(s0, s1, t) && Shed(s1, s2, t) && Gone(s2, s, OwnedBy(s2.ports, t))
    requires forall p | p in s2.ports :: Unwaited(s2, p, t)
    ensures forall p | p in s.ports :: p in s0.ports && PortLeft(s0, s0.ports[p], s, s.ports[p], t)
  {
    forall p | p in s.ports ensures p in s0.ports && PortLeft(s0, s0.ports[p], s, s.ports[p], t) {
      ExitPort(s0, s1, s2, s, t, p);
    }
  }

  lemma ExitPort(s0: State, s1: State, s2: State, s: State, t: int, p: int)
    requires Core(s0, NONE) && Dropping(s0, s1, t) && Shed(s1, s2, t) && Gone(s2, s, OwnedBy(s2.ports, t)) && p in s.ports
    requires Unwaited(s2, p, t)
    ensures p in s0.ports && PortLeft(s0, s0.ports[p], s, s.ports[p], t)
  {
    AllSlots(s0);
    hide Core, Step, Released, Dropped;
    assert SlotsLeft(s0, s1, p) && WaitersLeft(s1, s2, p, t) && SlotsOk(s0, p);
    assert s.ports[p].waiters == Left(s0.ports[p].waiters, t);
    forall k | 0 <= k < |s0.ports[p].slots|
      ensures s.ports[p].slots[k] == if s0.ports[p].slots[k] in s.channels then s0.ports[p].slots[k] else NONE
    {
      var c := s0.ports[p].slots[k];
      assert c in s1.channels && c != NONE ==> c in s0.channels && s0.channels[c].port == p && s1.channels[c].port == p;
    }
  }

  lemma TaskGoneStep(s0: State, s1: State, s2: State, s: State, t: int)
    requires Dropping(s0, s1, t) && s2 == s1.(ports := s2.ports) && Step(s2, s, NONE)
    ensures Step(s0, s, t) && !Alive(s.tasks, t)
  {
    hide Core;
    StepWiden(s2, s, t);
    StepTrans(s0, s2, s, t);
  }

  lemma CallHolds(s: State, t: int)
    requires Core(s, NONE) && Alive(s.tasks, t)
    ensures CallOk(s, t)
  {
  }

  /** The ports `ps` and their channels are gone: every live thread in a call through them has been failed, every one
      receiving on them woken, and nothing else in the system has changed. */
  ghost predicate Gone(s: State, r: State, ps: set<int>) {
    && (forall p :: p in r.ports <==> p in s.ports && p !in ps)
    && (forall p | p in r.ports :: r.ports[p] == s.ports[p])
    && (forall c :: c in r.channels <==> c in s.channels && s.channels[c].port !in ps)
    && (forall c | c in r.channels :: r.channels[c] == s.channels[c])
    && r.nextCall == s.nextCall && r.nextChannel == s.nextChannel && r.nextPort == s.nextPort
    && (forall t | t in s.tasks :: t in r.tasks && if s.tasks[t].alive then Released(s, s.tasks[t], r.tasks[t], ps) else r.tasks[t] == s.tasks[t])
  }

  ghost predicate Released(s: State, k: Task, k': Task, ps: set<int>) {
    if k.pause.InCall? && k.pause.via in s.channels && s.channels[k.pause.via].port in ps then SameButList(Told(k, PEER_DISCONNECTED), k')
    else if k.pause.InReceive? && k.pause.port in ps then SameButList(k.(pause := Running, ebx := PORT_NOT_FOUND), k')
    else SameButList(k, k')
  }

  /** The channels in the first `i` slots of `p` have been closed and freed. */
  ghost predicate Closing(was: State, s: State, p: int, i: nat) {
    && Core(was, NONE) && Core(s, NONE) && Step(was, s, NONE) && p in was.ports && p in s.ports
    && i <= |was.ports[p].slots| == |s.ports[p].slots|
    && s == was.(tasks := s.tasks, channels := s.channels, ports := was.ports[p := was.ports[p].(slots := s.ports[p].slots)])
    && (forall j | 0 <= j < i :: s.ports[p].slots[j] == NONE)
    && (forall j | i <= j < |s.ports[p].slots| :: s.ports[p].slots[j] == was.ports[p].slots[j])
    && (forall c :: c in s.channels <==> c in was.channels && c !in Occupants(was.ports[p].slots[..i]))
    && (forall c | c in s.channels :: s.channels[c] == was.channels[c])
    && CutOff(was, s, Occupants(was.ports[p].slots[..i]))
  }

  ghost function Occupants(slots: seq<int>): set<int> {
    set c | c in slots && c != NONE
  }

  lemma ClosingStart(s: State, p: int)
    requires Core(s, NONE) && p in s.ports
    ensures Closing(s, s, p, 0)
  {
  }

  /** Closed by the server and then freed, the channel is simply freed. */
  function Evicted(s: State, p: int, c: int, k: int): (r: State)
    requires c in s.channels && p in s.ports && 0 <= k < |s.ports[p].slots|
  {
    FreeChannel(CallFailed(s, c), c, p, k)
  }

  lemma ClosingStep(was: State, s: State, p: int, i: nat)
    requires p in s.ports && i < |s.ports[p].slots| && Closing(was, s, p, i)
    ensures var c := s.ports[p].slots[i];
      if c == NONE then Closing(was, s, p, i + 1)
      else
        && InSlot(s, p, c, i)
        && var u := ServerClosed(s, p, c, i);
        && p in u.ports && i < |u.ports[p].slots| && (u.ports[p].slots[i] != NONE ==> c in u.channels)
        && var r := if u.ports[p].slots[i] == NONE then u else FreeChannel(u, c, p, i);
        && p in r.ports && |r.ports[p].slots| == |s.ports[p].slots| && Closing(was, r, p, i + 1)
  {
    hide Core, Closing, CutOff, Forget;
    var c := s.ports[p].slots[i];
    assert Core(s, NONE) by { ClosingParts(was, s, p, i); }
    if c == NONE {
      ClosingSkip(was, s, p, i);
    } else {
      SlotFacts(s, p, i);
      PlaceFacts(s, c);
      var u := ServerClosed(s, p, c, i);
      assert u.ports[p].slots[i] != NONE ==> FreeChannel(u, c, p, i).channels == Evicted(s, p, c, i).channels;
      assert (if u.ports[p].slots[i] == NONE then u else FreeChannel(u, c, p, i)) == Evicted(s, p, c, i);
      EvictedKeepsCore(s, p, c, i);
      ClosingEvict(was, s, p, i);
    }
  }

  lemma ClosingParts(was: State, s: State, p: int, i: nat)
    requires Closing(was, s, p, i)
    ensures Core(was, NONE) && Core(s, NONE)
  {
  }

  lemma ClosingSkip(was: State, s: State, p: int, i: nat)
    requires Closing(was, s, p, i) && i < |s.ports[p].slots| && s.ports[p].slots[i] == NONE
    ensures Closing(was, s, p, i + 1)
  {
    hide Core, CutOff;
    var slots := was.ports[p].slots;
    assert slots[..i + 1] == slots[..i] + [NONE];
    assert Occupants(slots[..i + 1]) == Occupants(slots[..i]);
  }

  lemma EvictedKeepsCore(s: State, p: int, c: int, k: int)
    requires Core(s, NONE) && InSlot(s, p, c, k)
    ensures var r := Evicted(s, p, c, k); Core(r, NONE) && Step(s, r, NONE) && CutOff(s, r, {c})
  {
    hide Core, Forget;
    var u := CallFailed(s, c);
    CallFailedKeepsCore(s, c);
    UnlistCore(u, c);
    FreeKeepsCore(u, c, p, k);
    StepTrans(s, u, Evicted(s, p, c, k), NONE);
  }

  lemma ClosingEvict(was: State, s: State, p: int, i: nat)
    requires Closing(was, s, p, i) && i < |s.ports[p].slots| && InSlot(s, p, s.ports[p].slots[i], i) && s.ports[p].slots[i] != NONE
    requires var r := Evicted(s, p, s.ports[p].slots[i], i);
      Core(r, NONE) && Step(s, r, NONE) && CutOff(s, r, {s.ports[p].slots[i]})
    ensures Closing(was, Evicted(s, p, s.ports[p].slots[i], i), p, i + 1)
  {
    hide Core, CutOff, Forget;
    var c := s.ports[p].slots[i];
    var slots := was.ports[p].slots;
    var r := Evicted(s, p, c, i);
    assert slots[..i + 1] == slots[..i] + [c];
    assert Occupants(slots[..i + 1]) == Occupants(slots[..i]) + {c};
    StepTrans(was, s, r, NONE);
    CutOffTrans(was, s, r, Occupants(slots[..i]), c);
  }

  lemma CutOffTrans(was: State, s: State, r: State, gone: set<int>, c: int)
    requires CutOff(was, s, gone) && CutOff(s, r, {c})
    ensures CutOff(was, r, gone + {c})
  {
  }

  /** The first `i` waiter slots of `p` have been emptied and their threads woken. */
  ghost predicate Waking(mid: State, s: State, p: int, i: nat) {
    && Core(s, NONE) && Step(mid, s, NONE) && p in mid.ports && p in s.ports
    && i <= |s.ports[p].waiters| == |mid.ports[p].waiters| == MAX_TASK_THREADS
    && s == mid.(tasks := s.tasks, ports := mid.ports[p := mid.ports[p].(waiters := s.ports[p].waiters)])
    && (forall j | 0 <= j < i :: !s.ports[p].waiters[j].active)
    && (forall t | t in mid.tasks ::
          && t in s.tasks
          && (s.tasks[t] == mid.tasks[t] || (
                && mid.tasks[t].alive && mid.tasks[t].pause.InReceive? && mid.tasks[t].pause.port == p
                && s.tasks[t] == mid.tasks[t].(pause := Running, ebx := PORT_NOT_FOUND))))
  }

  lemma WakingStart(was: State, s: State, p: int)
    requires p in s.ports && Closing(was, s, p, |s.ports[p].slots|)
    ensures Waking(s, s, p, 0) && |s.ports[p].waiters| == MAX_TASK_THREADS
  {
  }

  lemma WakingStep(mid: State, s: State, p: int, i: nat)
    requires Waking(mid, s, p, i) && i < |s.ports[p].waiters|
    ensures var w := s.ports[p].waiters[i];
      Waking(mid, if !w.active then s
        else if !Alive(s.tasks, w.task) || !s.tasks[w.task].pause.InReceive? then Drop(s, p, i)
        else WakeReceiver(s, p, i, PORT_NOT_FOUND), p, i + 1)
  {
    hide Core;
    var w := s.ports[p].waiters[i];
    WaiterFacts(s, p, i);
    if w.active {
      if !Alive(s.tasks, w.task) || !s.tasks[w.task].pause.InReceive? {
        DropKeepsCore(s, p, i);
        StepTrans(mid, s, Drop(s, p, i), NONE);
      } else {
        WakeKeepsCore(s, p, i, PORT_NOT_FOUND);
        StepTrans(mid, s, WakeReceiver(s, p, i, PORT_NOT_FOUND), NONE);
      }
    }
  }

  lemma WakingEnd(was: State, mid: State, s: State, p: int)
    requires p in mid.ports && Closing(was, mid, p, |mid.ports[p].slots|) && Waking(mid, s, p, MAX_TASK_THREADS)
    ensures var r := RemovePort(s, p);
      && Core(r, NONE) && Step(was, r, NONE) && Gone(was, r, {p})
      && r == was.(tasks := r.tasks, channels := r.channels, ports := r.ports)
  {
    hide Core, CutOff;
    RemoveKeepsCore(s, p);
    var r := RemovePort(s, p);
    StepTrans(was, mid, s, NONE);
    StepTrans(was, s, r, NONE);
    var slots := was.ports[p].slots;
    assert slots[..|slots|] == slots;
    OccupantsAre(was, p);
    forall t | t in was.tasks
      ensures t in r.tasks && if was.tasks[t].alive then Released(was, was.tasks[t], r.tasks[t], {p}) else r.tasks[t] == was.tasks[t]
    {
      ReleasedAll(was, mid, s, p, t);
    }
  }

  lemma OccupantsAre(s: State, p: int)
    requires Core(s, NONE) && p in s.ports
    ensures forall c :: c in Occupants(s.ports[p].slots) <==> c in s.channels && s.channels[c].port == p
  {
  }

  lemma ReleasedAll(was: State, mid: State, s: State, p: int, t: int)
    requires p in mid.ports && Closing(was, mid, p, |mid.ports[p].slots|) && Waking(mid, s, p, MAX_TASK_THREADS)
    requires t in was.tasks
    ensures t in s.tasks && if was.tasks[t].alive then Released(was, was.tasks[t], s.tasks[t], {p}) else s.tasks[t] == was.tasks[t]
  {
  }

  ghost predicate InSlot(s: State, p: int, c: int, k: int) {
    c in s.channels && s.channels[c].port == p && p in s.ports && 0 <= k < |s.ports[p].slots| && s.ports[p].slots[k] == c
  }

  /** The call of a live client, if it has one on `c`, fails. */
  function CallFailed(s: State, c: int): (r: State)
    requires c in s.channels
  {
    var ch := s.channels[c];
    if ch.clientUp && Alive(s.tasks, ch.client) && s.tasks[ch.client].pause.InCall? && Recorded(ch) then Finish(s, c, PEER_DISCONNECTED)
    else s
  }

  function ServerClosed(s: State, p: int, c: int, k: int): (r: State)
    requires c in s.channels && p in s.ports && 0 <= k < |s.ports[p].slots|
  {
    var u := CallFailed(s, c);
    if s.channels[c].clientUp then ServerDown(u, c) else FreeChannel(u, c, p, k)
  }

  function ClientClosed(s: State, p: int, c: int, k: int): (r: State)
    requires c in s.channels && p in s.ports && 0 <= k < |s.ports[p].slots|
  {
    if s.channels[c].serverUp then ClientDown(s, c) else FreeChannel(s, c, p, k)
  }

  /** The same thread but for channels struck from its list. */
  ghost predicate SameButList(k: Task, k': Task) {
    k' == k.(channels := k'.channels) && forall c | c in k'.channels :: c in k.channels
  }

  /** Live threads in calls on the channels `gone` have been failed; all other threads are as they were. */
  ghost predicate CutOff(s: State, r: State, gone: set<int>) {
    forall t | t in s.tasks :: t in r.tasks &&
      if !s.tasks[t].alive then r.tasks[t] == s.tasks[t]
      else if s.tasks[t].pause.InCall? && s.tasks[t].pause.via in gone then SameButList(Told(s.tasks[t], PEER_DISCONNECTED), r.tasks[t])
      else SameButList(s.tasks[t], r.tasks[t])
  }

  lemma CallFailedKeepsCore(s: State, c: int)
    requires Core(s, NONE) && c in s.channels
    ensures var u := CallFailed(s, c);
      Core(u, NONE) && Step(s, u, NONE) && CutOff(s, u, {c}) && (Recorded(u.channels[c]) ==> !Alive(s.tasks, u.channels[c].client))
  {
    hide Core;
    PlaceFacts(s, c);
    RecordOwner(s, c);
    var ch := s.channels[c];
    if ch.clientUp && Alive(s.tasks, ch.client) && s.tasks[ch.client].pause.InCall? && Recorded(ch) {
      FinishKeepsCore(s, c, PEER_DISCONNECTED);
    }
  }

  lemma RecordOwner(s: State, c: int)
    requires Core(s, NONE) && c in s.channels
    ensures forall t | t in s.tasks && s.tasks[t].alive ::
              s.tasks[t].pause == InCall(c) <==> s.channels[c].client == t && Recorded(s.channels[c])
  {
  }

  lemma ServerClosedKeepsCore(s: State, p: int, c: int, k: int)
    requires Core(s, NONE) && InSlot(s, p, c, k)
    ensures var r := ServerClosed(s, p, c, k);
      Core(r, NONE) && Step(s, r, NONE) && SamePorts(s, r) && CutOff(s, r, {c}) && (c in r.channels ==> !r.channels[c].serverUp)
  {
    hide Core, Forget;
    var u := CallFailed(s, c);
    CallFailedKeepsCore(s, c);
    PlaceFacts(u, c);
    var r := ServerClosed(s, p, c, k);
    UnlistCore(u, c);
    if s.channels[c].clientUp {
      DownKeepsCore(u, r, c);
    } else {
      FreeKeepsCore(u, c, p, k);
    }
    StepTrans(s, u, r, NONE);
  }

  lemma UnlistCore(s: State, c: int)
    requires Core(s, NONE)
    ensures Core(s, c)
  {
  }

  lemma ClientClosedKeepsCore(s: State, p: int, c: int, k: int)
    requires Core(s, c) && InSlot(s, p, c, k) && (Recorded(s.channels[c]) ==> !Alive(s.tasks, s.channels[c].client))
    ensures var r := ClientClosed(s, p, c, k);
      Core(r, NONE) && Step(s, r, NONE) && SamePorts(s, r) && (c in r.channels ==> !r.channels[c].clientUp)
  {
    hide Core, Forget;
    var r := ClientClosed(s, p, c, k);
    if s.channels[c].serverUp {
      DownKeepsCore(s, r, c);
    } else {
      FreeKeepsCore(s, c, p, k);
    }
  }

  lemma SlotOf(s: State, p: int, c: int, k: int)
    requires Core(s, NONE) && p in s.ports && c >= 0
    requires if k == NONE then c !in s.ports[p].slots else 0 <= k < |s.ports[p].slots| && s.ports[p].slots[k] == c
    ensures k != NONE <==> c in s.channels && s.channels[c].port == p
  {
  }

  /** A server has none of its own channels in its list of connections. */
  lemma NotMine(s: State, t: int, c: int)
    requires Core(s, NONE) && Alive(s.tasks, t) && c in s.channels && s.channels[c].server == t
    ensures c !in s.tasks[t].channels && s.channels[c].client != t
  {
  }

  lemma ClientMayClose(s: State, t: int, p: int, c: int, k: int)
    requires Core(s, NONE) && Alive(s.tasks, t) && s.tasks[t].pause == Running && InSlot(s, p, c, k) && s.channels[c].client == t
    ensures var r := ForgetChannel(s, t, c);
      && Core(r, c) && Step(s, r, NONE) && InSlot(r, p, c, k) && !Recorded(r.channels[c]) && c !in r.tasks[t].channels
  {
  }

  /** What `msg_validate_send` can return. */
  predicate SendVerdict(v: int) {
    v == 0 || v == INVALID_MSG || v == INVALID_BUF || v == TOO_MANY_HANDLES || v == INVALID_HANDLES
  }

  /** What the replying server and the client are told. */
  function ReplyCodes(valid: int, size: int, handlesOk: bool, o: Copy): (r: (int, int))
    requires SendVerdict(valid)
    ensures r.0 == 0 <==> r.1 >= 0 // both succeed or both fail
    ensures r.0 <= 0 && (r.1 >= 0 ==> o == Copied(r.1))
  {
    if valid == INVALID_BUF then (INVALID_BUF, PEER_INVALID_BUF)
    else if valid == INVALID_HANDLES then (INVALID_HANDLES, PEER_INVALID_HANDLES)
    else if valid < 0 then (valid, PEER_INVALID_MSG)
    else if size > MSG_MAX_LEN then (TOO_LONG, PEER_INVALID_MSG)
    else if !handlesOk then (INVALID_HANDLES, PEER_INVALID_HANDLES)
    else match o
      case Copied(n) => (0, n)
      case SenderBuffer => (INVALID_BUF, PEER_INVALID_BUF)
      case ReceiverBuffer => (PEER_INVALID_BUF, INVALID_BUF)
      case SenderHandles => (INVALID_HANDLES, PEER_INVALID_HANDLES)
      case ReceiverFull => (PEER_INVALID_HANDLES, LIMIT)
      case ReceiverHandles => (PEER_INVALID_HANDLES, INVALID_HANDLES)
      case ReceiverStruct => (PEER_INVALID_MSG, INVALID_MSG)
  }

  ghost predicate ServedBy(s: State, c: int, process: int)
    requires c in s.channels
  {
    s.channels[c].port in s.ports && s.ports[s.channels[c].port].process == process
  }

  /** After a reply to the call on `c`: the call is over, its client has its result, nobody else is touched. */
  ghost predicate Replied(s: State, r: State, t: int, c: int, codes: (int, int), status: int)
    requires c in s.channels && t in s.tasks
  {
    var x := s.channels[c].client;
    && r == s.(channels := s.channels[c := s.channels[c].(stored := false, callUid := 0)], tasks := r.tasks)
    && r.tasks.Keys == s.tasks.Keys && (forall u | u in s.tasks && u != t && u != x :: r.tasks[u] == s.tasks[u])
    && if !Alive(s.tasks, x) then status == PEER_DISCONNECTED && r.tasks == s.tasks
       else
         && status == codes.0 && x in r.tasks && t in r.tasks
         && r.tasks[x] == s.tasks[x].(pause := Running, ebx := codes.1, results := s.tasks[x].results + [codes.1])
         && r.tasks[t] == if codes.0 == 0 then s.tasks[t].(ebx := codes.1) else s.tasks[t]
  }

  ghost predicate NotServed(s: State, p: int, uid: int) {
    p in s.ports ==> forall k | 0 <= k < |s.ports[p].slots| && s.ports[p].slots[k] != NONE ::
      s.ports[p].slots[k] in s.channels ==> s.channels[s.ports[p].slots[k]].callUid != uid
  }

  lemma NotServedHere(s: State, r: int, uid: int)
    requires Inv(s) && r in s.owned && forall k | 0 <= k < |s.owned[r]| :: NotServed(s, s.owned[r][k], uid)
    ensures forall d | d in s.channels && ServedBy(s, d, r) :: s.channels[d].callUid != uid
  {
  }

  lemma OnlyServed(s: State, c: int)
    requires Core(s, NONE) && c in s.channels && s.channels[c].callUid != 0
    ensures forall d | d in s.channels && s.channels[d].callUid == s.channels[c].callUid :: d == c
    ensures var x := s.channels[c].client; Alive(s.tasks, x) ==> s.tasks[x].pause == InCall(c)
  {
  }

  lemma OwnedFacts(ports: map<int, Port>, owned: map<int, seq<int>>, r: int, p: int)
    requires OwnedOk(ports, owned) && r in owned && p in owned[r]
    ensures p in ports && ports[p].process == r
  {
  }

  lemma SlotFacts(s: State, p: int, i: int)
    requires Core(s, NONE) && p in s.ports && 0 <= i < |s.ports[p].slots| && s.ports[p].slots[i] != NONE
    ensures s.ports[p].slots[i] in s.channels && s.channels[s.ports[p].slots[i]].port == p
  {
  }

  /** `msg_add_waiter`: a slot already held by the thread, else the first that is inactive or stale. */
  method FindSlot(ws: seq<Waiter>, tasks: map<int, Task>, t: int) returns (slot: int)
    ensures slot == NONE || 0 <= slot < |ws|
    ensures (forall i | 0 <= i < |ws| :: ws[i].active ==> ws[i].task != t) && slot != NONE ==>
              Vacant(tasks, ws[slot]) && forall j | 0 <= j < slot :: !Vacant(tasks, ws[j])
    ensures (exists i | 0 <= i < |ws| :: ws[i] == Waiter(true, t)) ==>
              slot != NONE && ws[slot] == Waiter(true, t) && forall j | 0 <= j < slot :: ws[j] != Waiter(true, t)
    ensures slot == NONE <==> forall i | 0 <= i < |ws| :: ws[i].active && ws[i].task != t && Alive(tasks, ws[i].task)
    ensures slot != NONE && ws[slot].active && Alive(tasks, ws[slot].task) ==> ws[slot].task == t
  {
    slot := NONE;
    var i: nat := 0;
    while i < |ws|
      invariant i <= |ws| && (slot == NONE || 0 <= slot < i)
      invariant slot == NONE <==> forall j | 0 <= j < i :: ws[j].active && ws[j].task != t && Alive(tasks, ws[j].task)
      invariant forall j | 0 <= j < i :: ws[j] != Waiter(true, t)
      invariant slot != NONE ==> Vacant(tasks, ws[slot]) && forall j | 0 <= j < slot :: !Vacant(tasks, ws[j])
    {
      if ws[i].active && ws[i].task == t {
        slot := i;
        return;
      }
      if slot == NONE && (!ws[i].active || !Alive(tasks, ws[i].task)) {
        slot := i;
      }
      i := i + 1;
    }
  }

  /** A stored send that `msg_receive` on `p` would take. */
  ghost predicate Deliverable(s: State, p: int, c: int) {
    c in s.channels && s.channels[c].port == p && s.channels[c].serverUp && s.channels[c].stored && Alive(s.tasks, s.channels[c].client)
  }

  /** The scan ends at slot `i`: its copy succeeds, or fails on the receiver's side. */
  ghost predicate Stops(s: State, p: int, copy: int -> Copy, i: nat)
    requires p in s.ports && i < |s.ports[p].slots|
  {
    var d := s.ports[p].slots[i];
    Deliverable(s, p, d) && (copy(d).Copied? || ReceiverStatus(copy(d)) < 0)
  }

  /** How many slots the scan looks at, from `i` on. */
  ghost function Upto(s: State, p: int, copy: int -> Copy, i: nat): (n: nat)
    requires p in s.ports && i <= |s.ports[p].slots|
    ensures i <= n <= |s.ports[p].slots|
    ensures forall k | i <= k < n - 1 :: !Stops(s, p, copy, k)
    ensures n == |s.ports[p].slots| || (n > i && Stops(s, p, copy, n - 1))
    decreases |s.ports[p].slots| - i
  {
    if i == |s.ports[p].slots| then i else if Stops(s, p, copy, i) then i + 1 else Upto(s, p, copy, i + 1)
  }

  /** The channel at which the scan ends. */
  ghost function Stop(s: State, p: int, copy: int -> Copy): (c: int)
    requires p in s.ports
    ensures c != NONE ==> Deliverable(s, p, c) && (copy(c).Copied? || ReceiverStatus(copy(c)) < 0)
  {
    var n := Upto(s, p, copy, 0);
    if n > 0 && Stops(s, p, copy, n - 1) then s.ports[p].slots[n - 1] else NONE
  }

  /** A send within the first `n` slots that was to be copied, and could not be. */
  ghost predicate Failed(s: State, p: int, copy: int -> Copy, n: nat, c: int)
    requires p in s.ports && n <= |s.ports[p].slots|
  {
    Deliverable(s, p, c) && !copy(c).Copied? && c in s.ports[p].slots[..n]
  }

  function Told(k: Task, code: int): Task { k.(pause := Running, ebx := code, results := k.results + [code]) }

  /** The state after the first `n` slots: clients whose copy failed have been told and their records are gone, the one
      whose copy succeeded is served as `call`, and nothing else has changed. */
  ghost predicate Scanned(was: State, s: State, p: int, copy: int -> Copy, n: nat, call: int) {
    && Core(was, NONE) && Core(s, NONE) && Step(was, s, NONE) && p in was.ports && n <= |was.ports[p].slots|
    && s == was.(channels := s.channels, tasks := s.tasks, nextCall := s.nextCall)
    && was.nextCall <= s.nextCall && (call != 0 ==> call == s.nextCall - 1)
    && s.channels.Keys == was.channels.Keys && s.tasks.Keys == was.tasks.Keys
    && (forall c | c in was.channels ::
          s.channels[c] == if Failed(was, p, copy, n, c) then was.channels[c].(stored := false, callUid := 0)
                           else if call != 0 && n > 0 && c == was.ports[p].slots[n - 1] then was.channels[c].(stored := false, callUid := call)
                           else was.channels[c])
    && (forall t | t in was.tasks ::
          s.tasks[t] == if was.tasks[t].alive && was.tasks[t].pause.InCall? && Failed(was, p, copy, n, was.tasks[t].pause.via)
                        then Told(was.tasks[t], SenderStatus(copy(was.tasks[t].pause.via))) else was.tasks[t])
  }

  lemma ScanStart(s: State, p: int, copy: int -> Copy)
    requires Core(s, NONE) && p in s.ports
    ensures Scanned(s, s, p, copy, 0, 0)
  {
    hide Core;
  }

  lemma ScanFacts(was: State, s: State, p: int, copy: int -> Copy, n: nat, call: int, t: int)
    requires Scanned(was, s, p, copy, n, call) && Alive(was.tasks, t) && was.tasks[t].pause == Running
    ensures Core(s, NONE) && Step(was, s, NONE) && s.ports == was.ports && s.owned == was.owned
    ensures Alive(s.tasks, t) && s.tasks[t] == was.tasks[t] && forall x :: Alive(s.tasks, x) <==> Alive(was.tasks, x)
  {
    hide Core;
  }

  lemma StopAt(was: State, p: int, copy: int -> Copy, i: nat, n: nat, c: int)
    requires p in was.ports && n <= |was.ports[p].slots| && Upto(was, p, copy, 0) == n
    requires if c == NONE then n == |was.ports[p].slots| && (n > 0 ==> !Stops(was, p, copy, n - 1))
             else n > 0 && c == was.ports[p].slots[n - 1] && Stops(was, p, copy, n - 1)
    ensures c == Stop(was, p, copy)
  {
    hide Deliverable;
  }

  /** After a scan that did not stop, nothing is deliverable. */
  lemma NothingLeft(was: State, s: State, p: int, copy: int -> Copy)
    requires p in was.ports && Scanned(was, s, p, copy, Upto(was, p, copy, 0), 0) && Stop(was, p, copy) == NONE
    ensures forall c :: !Deliverable(s, p, c)
    ensures forall c | c in s.channels && s.channels[c].port == p && s.channels[c].stored :: !Alive(s.tasks, s.channels[c].client)
  {
    ScanCore(was, s, p, copy, Upto(was, p, copy, 0));
    hide Core, Scanned, Stops, Upto, Stop, Deliverable;
    forall c ensures !Deliverable(s, p, c) {
      NotLeft(was, s, p, copy, c);
    }
    forall c | c in s.channels && s.channels[c].port == p && s.channels[c].stored && Alive(s.tasks, s.channels[c].client)
      ensures Deliverable(s, p, c)
    {
      StoredIsDeliverable(was, s, p, copy, c);
    }
  }

  lemma ScanCore(was: State, s: State, p: int, copy: int -> Copy, n: nat)
    requires Scanned(was, s, p, copy, n, 0)
    ensures Core(was, NONE)
  {
  }

  lemma StoredIsDeliverable(was: State, s: State, p: int, copy: int -> Copy, c: int)
    requires p in was.ports && Scanned(was, s, p, copy, Upto(was, p, copy, 0), 0)
    requires c in s.channels && s.channels[c].port == p && s.channels[c].stored && Alive(s.tasks, s.channels[c].client)
    ensures Deliverable(s, p, c)
  {
    hide Core, Upto, Failed;
    PlaceFacts(s, c);
  }

  lemma NotLeft(was: State, s: State, p: int, copy: int -> Copy, c: int)
    requires Core(was, NONE)
    requires p in was.ports && Scanned(was, s, p, copy, Upto(was, p, copy, 0), 0) && Stop(was, p, copy) == NONE
    ensures !Deliverable(s, p, c)
  {
    hide Scanned, Deliverable, Upto;
    if Deliverable(s, p, c) {
      InSomeSlot(was, s, p, copy, c);
      var k :| 0 <= k < |was.ports[p].slots| && was.ports[p].slots[k] == c;
      var n := Upto(was, p, copy, 0);
      if n > 0 && Stops(was, p, copy, n - 1) {
        StopsAtChannel(was, p, copy, n - 1);
      }
      assert n == |was.ports[p].slots| && !Stops(was, p, copy, k);
      FailedAll(was, p, copy, n, c);
    }
  }

  lemma FailedAll(was: State, p: int, copy: int -> Copy, n: nat, c: int)
    requires p in was.ports && n == |was.ports[p].slots| && c in was.ports[p].slots && Deliverable(was, p, c) && !copy(c).Copied?
    ensures Failed(was, p, copy, n, c)
  {
    assert was.ports[p].slots[..n] == was.ports[p].slots;
  }

  lemma StopsAtChannel(was: State, p: int, copy: int -> Copy, i: nat)
    requires p in was.ports && Core(was, NONE) && i < |was.ports[p].slots| && Stops(was, p, copy, i)
    ensures was.ports[p].slots[i] != NONE
  {
    PlaceFacts(was, was.ports[p].slots[i]);
  }

  lemma InSomeSlot(was: State, s: State, p: int, copy: int -> Copy, c: int)
    requires p in was.ports && Scanned(was, s, p, copy, Upto(was, p, copy, 0), 0) && Deliverable(s, p, c)
    ensures Deliverable(was, p, c) && c in was.ports[p].slots && !Failed(was, p, copy, Upto(was, p, copy, 0), c) && c != NONE
  {
    hide Core, Step;
    PlaceFacts(s, c);
  }

  /** A slot not looked at yet is as it was. */
  lemma ScanSlot(was: State, s: State, p: int, copy: int -> Copy, i: nat)
    requires Scanned(was, s, p, copy, i, 0) && i < |s.ports[p].slots|
    ensures var d := s.ports[p].slots[i];
      && (d != NONE ==> d in s.channels && s.channels[d].port == p && s.channels[d] == was.channels[d] && d !in s.ports[p].slots[..i])
      && (Deliverable(s, p, d) <==>
            d != NONE && s.channels[d].serverUp && s.channels[d].stored && Alive(s.tasks, s.channels[d].client))
      && (Deliverable(s, p, d) <==> Deliverable(was, p, d))
      && (Deliverable(s, p, d) ==> d != NONE)
    ensures 0 < s.nextCall && was.nextCall <= s.nextCall
    ensures s.ports[p].slots[..i + 1] == s.ports[p].slots[..i] + [s.ports[p].slots[i]]
  {
    assert SlotsOk(was, p) && SlotsOk(s, p);
    assert forall c | c in s.channels :: PlaceOk(s, c);
  }

  lemma ScanSkip(was: State, s: State, p: int, copy: int -> Copy, i: nat)
    requires Scanned(was, s, p, copy, i, 0) && i < |s.ports[p].slots| && !Deliverable(was, p, s.ports[p].slots[i])
    ensures Scanned(was, s, p, copy, i + 1, 0) && !Stops(was, p, copy, i)
  {
    hide Core, Step, Deliverable;
    assert s.ports[p].slots[..i + 1] == s.ports[p].slots[..i] + [s.ports[p].slots[i]];
    assert forall c :: Failed(was, p, copy, i + 1, c) <==> Failed(was, p, copy, i, c);
  }

  lemma FailedNext(was: State, p: int, copy: int -> Copy, i: nat)
    requires p in was.ports && i < |was.ports[p].slots| && Deliverable(was, p, was.ports[p].slots[i])
    ensures var d := was.ports[p].slots[i];
      forall c :: Failed(was, p, copy, i + 1, c) <==> Failed(was, p, copy, i, c) || (c == d && !copy(d).Copied?)
  {
    hide Deliverable;
    var slots, d, n := was.ports[p].slots, was.ports[p].slots[i], i + 1;
    assert slots[..n] == slots[..i] + [d];
    forall c ensures Failed(was, p, copy, n, c) <==> Failed(was, p, copy, i, c) || (c == d && !copy(d).Copied?) {
      assert c in slots[..n] <==> c in slots[..i] || c == d;
    }
  }

  /** The client of a send that is still stored is in that call. */
  lemma ClientOf(was: State, s: State, p: int, copy: int -> Copy, i: nat)
    requires Scanned(was, s, p, copy, i, 0) && i < |s.ports[p].slots| && Deliverable(s, p, s.ports[p].slots[i])
    ensures var d := s.ports[p].slots[i];
      && d in was.channels && s.channels[d] == was.channels[d] && !Failed(was, p, copy, i, d)
      && var x := s.channels[d].client;
         && x in was.tasks && s.tasks[x] == was.tasks[x] && was.tasks[x].alive && was.tasks[x].pause == InCall(d)
         && Recorded(s.channels[d]) && Alive(s.tasks, x)
    ensures forall t | t in was.tasks && was.tasks[t].alive && was.tasks[t].pause == InCall(s.ports[p].slots[i]) ::
              t == s.channels[s.ports[p].slots[i]].client
  {
    ScanSlot(was, s, p, copy, i);
    PlaceFacts(s, s.ports[p].slots[i]);
    forall t | t in was.tasks && was.tasks[t].alive ensures CallOk(was, t) {
      CallHolds(was, t);
    }
  }

  /** A failed copy ends that client's call and no other. */
  lemma ScanFail(was: State, s: State, p: int, copy: int -> Copy, i: nat)
    requires Scanned(was, s, p, copy, i, 0) && i < |s.ports[p].slots| && Deliverable(s, p, s.ports[p].slots[i])
    requires !copy(s.ports[p].slots[i]).Copied?
    ensures Scanned(was, Finish(Tick(s), s.ports[p].slots[i], SenderStatus(copy(s.ports[p].slots[i]))), p, copy, i + 1, 0)
  {
    hide Core, Step, Deliverable, Failed;
    ClientOf(was, s, p, copy, i);
    ScanSlot(was, s, p, copy, i);
    FailedNext(was, p, copy, i);
    var d := s.ports[p].slots[i];
    TickKeepsCore(s);
    FinishKeepsCore(Tick(s), d, SenderStatus(copy(d)));
    StepTrans(was, s, Tick(s), NONE);
    StepTrans(was, Tick(s), Finish(Tick(s), d, SenderStatus(copy(d))), NONE);
  }

  lemma ScanServe(was: State, s: State, p: int, copy: int -> Copy, i: nat)
    requires Scanned(was, s, p, copy, i, 0) && i < |s.ports[p].slots| && Deliverable(s, p, s.ports[p].slots[i])
    requires copy(s.ports[p].slots[i]).Copied?
    ensures Scanned(was, Serve(Tick(s), s.ports[p].slots[i], s.nextCall), p, copy, i + 1, s.nextCall) && s.nextCall != 0
  {
    hide Core, Step, Failed;
    ClientOf(was, s, p, copy, i);
    ScanSlot(was, s, p, copy, i);
    FailedNext(was, p, copy, i);
    var d := s.ports[p].slots[i];
    TickKeepsCore(s);
    ServeKeepsCore(Tick(s), d, s.nextCall);
    StepTrans(was, s, Tick(s), NONE);
    StepTrans(was, Tick(s), Serve(Tick(s), d, s.nextCall), NONE);
  }

  function SetEbx(s: State, t: int, ebx: int): (r: State)
    requires t in s.tasks
  {
    s.(tasks := s.tasks[t := s.tasks[t].(ebx := ebx)])
  }

  lemma EbxKeepsCore(s: State, t: int, ebx: int)
    requires Core(s, NONE) && t in s.tasks
    ensures Core(SetEbx(s, t, ebx), NONE) && Step(s, SetEbx(s, t, ebx), NONE)
  {
    var r := SetEbx(s, t, ebx);
    forall u | u in r.tasks && r.tasks[u].alive ensures CallOk(r, u) && ReceiveOk(r, u) && ListOk(r, u) {
      assert CallOk(s, u) && ReceiveOk(s, u) && ListOk(s, u);
    }
    forall d | d in r.channels ensures RecordOk(r, d) && PlaceOk(r, d) && MetOk(r, d) && Listed(r, d) {
      assert RecordOk(s, d) && PlaceOk(s, d) && MetOk(s, d) && Listed(s, d);
    }
    forall p | p in r.ports ensures SlotsOk(r, p) && WaitersOk(r, p) {
      assert SlotsOk(s, p) && WaitersOk(s, p);
    }
  }

  lemma ScanSteps(was: State, s: State, p: int, copy: int -> Copy, n: nat, call: int)
    requires Scanned(was, s, p, copy, n, call)
    ensures Step(was, s, NONE)
  {
  }

  lemma ReceiveEnds(was: State, s: State, r: State, t: int, p: int, copy: int -> Copy, call: int)
    requires p in was.ports && Scanned(was, s, p, copy, Upto(was, p, copy, 0), call) && Step(s, r, t)
    requires t in was.tasks && t in s.tasks && s.tasks[t] == was.tasks[t]
    requires t in r.tasks && r.tasks[t].alive == s.tasks[t].alive && r.tasks[t].calls == s.tasks[t].calls
    requires r == s.(tasks := r.tasks, ports := r.ports)
    requires r.tasks.Keys == s.tasks.Keys && forall u | u in s.tasks && u != t :: r.tasks[u] == s.tasks[u]
    ensures Step(was, r, t) && ScanDone(was, r, t, p, copy, call) && forall c :: Deliverable(r, p, c) <==> Deliverable(s, p, c)
  {
    hide Core, Upto, Failed, Step, Scanned, ScanDone, Deliverable;
    ScanSteps(was, s, p, copy, Upto(was, p, copy, 0), call);
    StepWiden(was, s, t);
    StepTrans(was, s, r, t);
    ScanLasts(was, s, r, t, p, copy, call);
    SameDeliverable(s, r, t, p);
  }

  lemma ScanLasts(was: State, s: State, r: State, t: int, p: int, copy: int -> Copy, call: int)
    requires p in was.ports && Scanned(was, s, p, copy, Upto(was, p, copy, 0), call)
    requires r == s.(tasks := r.tasks, ports := r.ports)
    requires r.tasks.Keys == s.tasks.Keys && forall u | u in s.tasks && u != t :: r.tasks[u] == s.tasks[u]
    ensures ScanDone(was, r, t, p, copy, call)
  {
    hide Core, Upto, Failed, Step, Told;
    var n := Upto(was, p, copy, 0);
    forall u | u in was.tasks && u != t
      ensures u in r.tasks
      ensures r.tasks[u] == if was.tasks[u].alive && was.tasks[u].pause.InCall? && Failed(was, p, copy, n, was.tasks[u].pause.via)
                            then Told(was.tasks[u], SenderStatus(copy(was.tasks[u].pause.via))) else was.tasks[u]
    {
      assert r.tasks[u] == s.tasks[u];
    }
  }

  lemma SameDeliverable(s: State, r: State, t: int, p: int)
    requires t in s.tasks && t in r.tasks && r.tasks[t].alive == s.tasks[t].alive
    requires r.channels == s.channels && r.tasks.Keys == s.tasks.Keys && forall u | u in s.tasks && u != t :: r.tasks[u] == s.tasks[u]
    ensures forall c :: Deliverable(r, p, c) <==> Deliverable(s, p, c)
  {
  }

  predicate CallMayStart(s: State, t: int, c: int, size: nat, handles: nat, handlesOk: bool)
    requires t in s.tasks
  {
    && size <= MSG_MAX_LEN && (size > 0 || handles > 0) && handlesOk
    && c in s.tasks[t].channels && c in s.channels && s.channels[c].clientUp && s.channels[c].serverUp
  }

  /** Why a call may not start, the first reason that applies. */
  ghost function Refusal(s: State, t: int, c: int, size: nat, handles: nat): (code: int)
    requires t in s.tasks && (c in s.tasks[t].channels ==> c in s.channels)
  {
    if size > MSG_MAX_LEN then TOO_LONG
    else if size == 0 == handles then EMPTY_MSG
    else if c !in s.tasks[t].channels then CHANNEL_NOT_FOUND
    else if !s.channels[c].clientUp then DISCONNECTED
    else if !s.channels[c].serverUp then PEER_DISCONNECTED
    else INVALID_HANDLES
  }

  /** The slot of the receiver a call on `c` would meet. */
  function WaiterFor(s: State, c: int): (w: int) {
    if c in s.channels && s.channels[c].port in s.ports then FirstWaiter(s.tasks, s.ports[s.channels[c].port].waiters, 0)
    else NONE
  }

  /** The outcome, to the last thread and slot, of a call by `t` that was allowed to start: it is stored when nobody waits;
      otherwise the first waiting receiver, and nobody else, is given the message or told what is wrong with its buffer. */
  ghost predicate Met(s: State, r: State, t: int, c: int, present: bool, o: Copy, status: int) {
    && t in s.tasks && c in s.channels && s.channels[c].port in s.ports
    && var p, caller := s.channels[c].port, s.tasks[t].(pause := InCall(c), calls := s.tasks[t].calls + 1);
       var ws, w := s.ports[p].waiters, WaiterFor(s, c);
       if w == NONE then
         && status == 0
         && r == s.(channels := s.channels[c := s.channels[c].(stored := present, callUid := 0)], tasks := s.tasks[t := caller],
                    ports := s.ports[p := s.ports[p].(waiters := Cleared(ws, |ws|))])
       else
         && 0 <= w < |ws| && ws[w].task in s.tasks && ws[w].task != t && status == SenderStatus(o)
         && var x := ws[w].task;
            if o.Copied? then
              r == s.(channels := s.channels[c := s.channels[c].(stored := false, callUid := s.nextCall)], nextCall := s.nextCall + 1,
                      tasks := s.tasks[t := caller][x := s.tasks[x].(pause := Running, ebx := o.bytes)],
                      ports := s.ports[p := s.ports[p].(waiters := Cleared(ws, w + 1))])
            else if ReceiverStatus(o) < 0 then
              r == s.(nextCall := s.nextCall + 1, tasks := s.tasks[x := s.tasks[x].(pause := Running, ebx := ReceiverStatus(o))],
                      ports := s.ports[p := s.ports[p].(waiters := Cleared(ws, w + 1))])
            else r == s.(nextCall := s.nextCall + 1, ports := s.ports[p := s.ports[p].(waiters := Cleared(ws, w))])
  }

  lemma MetNow(s: State, mid: State, r: State, t: int, c: int, present: bool, w: int, o: Copy, status: int)
    requires Core(s, NONE) && Alive(s.tasks, t) && s.tasks[t].pause == Running && c in s.channels && w == WaiterFor(s, c)
    requires s.channels[c].port in s.ports
    requires var p := s.channels[c].port; var ws := s.ports[p].waiters;
      mid == s.(ports := s.ports[p := s.ports[p].(waiters := Cleared(ws, if w == NONE then |ws| else w))]) && w < |ws| && (w != NONE ==> w >= 0)
    requires
      if w == NONE then status == 0 && r == Begin(mid, t, c, present, 0)
      else var p := s.channels[c].port; var m := mid.ports[p].waiters[w].task in mid.tasks;
        m && if !o.Copied? then
          && status == SenderStatus(o)
          && r == (if ReceiverStatus(o) < 0 then WakeReceiver(Tick(mid), p, w, ReceiverStatus(o)) else Tick(mid))
        else status == 0 && r == WakeReceiver(Begin(Tick(mid), t, c, false, mid.nextCall), p, w, o.bytes)
    ensures Met(s, r, t, c, present, o, status)
  {
    hide FirstWaiter;
    var p := s.channels[c].port;
    var ws := s.ports[p].waiters;
    if w != NONE {
      WaiterFacts(s, p, w);
      assert Cleared(ws, w)[w := ws[w].(active := false)] == Cleared(ws, w + 1);
    }
  }

  lemma UnstoredBreaks(s: State, t: int, c: int)
    requires Core(s, NONE) && Alive(s.tasks, t) && s.tasks[t].pause == Running && c in s.channels
    ensures !Core(Begin(s, t, c, false, 0), NONE) && Step(s, Begin(s, t, c, false, 0), t)
  {
    assert t != NONE;
    assert !CallOk(Begin(s, t, c, false, 0), t);
  }

  lemma StepSelf(s: State, t: int)
    ensures Step(s, s, t)
  {
  }

  lemma ListFacts(s: State, t: int, c: int)
    requires Core(s, NONE) && Alive(s.tasks, t) && c in s.tasks[t].channels
    ensures c in s.channels && s.channels[c].client == t
  {
  }

  lemma PlaceFacts(s: State, c: int)
    requires Core(s, NONE) && c in s.channels
    ensures PlaceOk(s, c) && RecordOk(s, c) && Listed(s, c)
  {
  }

  /** The first `i` slots have been looked at and found, or made, inactive. */
  ghost predicate Swept(was: State, s: State, p: int, i: nat) {
    && Core(s, NONE) && p in was.ports && p in s.ports && i <= |s.ports[p].waiters| == |was.ports[p].waiters|
    && s == was.(ports := was.ports[p := was.ports[p].(waiters := s.ports[p].waiters)])
    && s.ports[p].waiters == Cleared(was.ports[p].waiters, i)
    && FirstWaiter(was.tasks, was.ports[p].waiters, 0) == FirstWaiter(was.tasks, was.ports[p].waiters, i)
  }

  lemma SweptStart(s: State, p: int)
    requires Core(s, NONE) && p in s.ports
    ensures Swept(s, s, p, 0) && |s.ports[p].waiters| == MAX_TASK_THREADS
  {
  }

  lemma SweptStep(was: State, s: State, p: int, i: nat)
    requires Swept(was, s, p, i) && i < |s.ports[p].waiters|
    ensures var x := s.ports[p].waiters[i];
      if !x.active then Swept(was, s, p, i + 1)
      else if !Alive(s.tasks, x.task) || !s.tasks[x.task].pause.InReceive? then
        Swept(was, Drop(s, p, i), p, i + 1) && |Drop(s, p, i).ports[p].waiters| == |s.ports[p].waiters|
      else i == FirstWaiter(was.tasks, was.ports[p].waiters, 0)
  {
    hide Core;
    var x := s.ports[p].waiters[i];
    if x.active && (!Alive(s.tasks, x.task) || !s.tasks[x.task].pause.InReceive?) {
      WaiterFacts(s, p, i);
      DropKeepsCore(s, p, i);
    }
  }

  lemma SweptEnd(was: State, s: State, p: int, i: nat)
    requires Swept(was, s, p, i)
    ensures Core(s, NONE) && Step(was, s, NONE) && SamePorts(was, s) && p in s.ports && i <= |was.ports[p].waiters|
    ensures s == was.(ports := was.ports[p := was.ports[p].(waiters := Cleared(was.ports[p].waiters, i))])
    ensures i == |was.ports[p].waiters| ==>
              NobodyWaits(s.tasks, s.ports[p].waiters) && FirstWaiter(was.tasks, was.ports[p].waiters, 0) == NONE
  {
  }

  lemma WaiterFacts(s: State, p: int, i: int)
    requires Core(s, NONE) && p in s.ports
    ensures |s.ports[p].waiters| == MAX_TASK_THREADS
    ensures 0 <= i < |s.ports[p].waiters| ==>
              var w := s.ports[p].waiters[i];
              w.active && Alive(s.tasks, w.task) ==> s.tasks[w.task].pause == InReceive(p, i)
  {
  }
}
