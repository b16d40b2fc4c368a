/**
 * Asynchronous messages on one channel (`port_send`, `port_receive`, `msg_wait_on_receive` in `msg.c`): two bounded
 * ring queues, and the reply slots a `client_reserves` port holds back for the server's answers.
 */
module MsgQueue {
  import opened MsgCodes
  import opened Machine
  import opened Ring

  const MSG_QUEUE_DEPTH: nat := 14

  /** `MSG_EXPECT_REPLY` and `MSG_REPLY`, the two flags a queued message keeps. */
  datatype Message = Message(data: seq<Byte>, expectReply: bool, reply: bool)

  function Expecting(q: seq<Message>): (n: nat)
    ensures n <= |q|
  {
    if q == [] then 0 else (if q[0].expectReply then 1 else 0) + Expecting(q[1..])
  }

  lemma ExpectingHead(q: seq<Message>)
    requires q != []
    ensures Expecting(q) == Expecting(q[1..]) + (if q[0].expectReply then 1 else 0) && q == [q[0]] + q[1..]
  {
  }

  lemma {:induction false} ExpectingAppend(q: seq<Message>, m: Message)
    ensures Expecting(q + [m]) == Expecting(q) + if m.expectReply then 1 else 0
  {
    if q != [] {
      assert (q + [m])[1..] == q[1..] + [m];
      ExpectingAppend(q[1..], m);
    }
  }

  /** `msg_queue_t`, which a channel holds by value. */
  datatype Queue = Queue(slots: seq<Message>, head: nat, tail: nat, count: nat, reserved: nat) {
    ghost predicate Valid() {
      && |slots| == MSG_QUEUE_DEPTH && count <= MSG_QUEUE_DEPTH
      && (count > 0 ==> head < MSG_QUEUE_DEPTH && tail == Slot(head, count - 1, MSG_QUEUE_DEPTH))
    }

    /** The messages waiting, oldest first. */
    ghost function Contents(): (q: seq<Message>)
      requires Valid()
      ensures |q| == count
    {
      if count == 0 then [] else Window(slots, head, count)
    }

    function Reserve(n: nat): (q: Queue)
      requires Valid()
      ensures q.Valid() && q.Contents() == Contents() && q.reserved == n && q.count == count
    {
      this.(reserved := n)
    }

    function Push(m: Message): (q: Queue)
      requires Valid() && count < MSG_QUEUE_DEPTH
      ensures q.Valid() && q.Contents() == Contents() + [m] && q.reserved == reserved && q.count == count + 1
    {
      WindowPush(slots, if count == 0 then 0 else head, count, m);
      if count == 0 then Queue(slots[0 := m], 0, 0, 1, reserved)
      else
        var i := (tail + 1) % MSG_QUEUE_DEPTH;
        Queue(slots[i := m], head, i, count + 1, reserved)
    }

    function First(): (m: Message)
      requires Valid() && count > 0
      ensures m == Contents()[0]
    {
      slots[head]
    }

    function Pop(): (q: Queue)
      requires Valid() && count > 0
      ensures q.Valid() && q.Contents() == Contents()[1..] && q.reserved == reserved && q.count == count - 1
    {
      WindowPop(slots, head, count);
      this.(head := (head + 1) % MSG_QUEUE_DEPTH, count := count - 1)
    }
  }

  datatype Side = Client | Server | Neither

  // ---------------------------------------------------------------- one channel, as values

  /** `reserves` is the port's `client_reserves`; the queues are what they hold, oldest first; `clientPaused` and
      `serverPaused` stand for the two threads being paused until their queue is read. */
  datatype State = State(
    reserves: bool, toServer: seq<Message>, toClient: seq<Message>, serverUp: bool, clientUp: bool, unanswered: nat,
    clientBlocked: bool, serverBlocked: bool, clientPaused: bool, serverPaused: bool)

  /** The reply slots held back: requests read but not answered, and requests still unread. */
  function Held(s: State): (n: nat) { if s.reserves then s.unanswered + Expecting(s.toServer) else 0 }

  ghost predicate Sendable(q: seq<Message>) {
    forall i | 0 <= i < |q| :: 0 < |q[i].data| <= MSG_MAX_LEN
  }

  /** What is queued and what is held back fit. */
  ghost predicate Sound(s: State) {
    && |s.toServer| <= MSG_QUEUE_DEPTH && |s.toClient| + Held(s) <= MSG_QUEUE_DEPTH
    && Sendable(s.toServer) && Sendable(s.toClient) && (!s.reserves ==> s.unanswered == 0)
    && (s.clientPaused ==> s.clientBlocked) && (s.serverPaused ==> s.serverBlocked)
  }

  /** A thread paused until its queue is read is connected, and so is its peer, which has something to read: reading it
      and closing both wake the thread. */
  predicate Waiting(s: State) {
    && (s.clientPaused ==> s.clientUp && s.serverUp && s.toServer != [])
    && (s.serverPaused ==> s.clientUp && s.serverUp && s.toClient != [])
  }

  predicate Paused(s: State, who: Side) {
    (who == Client && s.clientPaused) || (who == Server && s.serverPaused)
  }

  /** A server's reply to a request it has read. */
  predicate Owed(s: State, who: Side, reply: bool) { s.reserves && who == Server && reply && s.unanswered > 0 }

  /** When `port_send` accepts.  A reply that is owed needs no room of its own. */
  predicate Accepts(s: State, who: Side, m: Message, handles: nat, alive: bool) {
    && handles == 0 && 0 < |m.data| <= MSG_MAX_LEN && s.clientUp && s.serverUp && alive
    && match who
       case Client =>
         |s.toServer| < MSG_QUEUE_DEPTH && (s.reserves && m.expectReply ==> |s.toClient| + Held(s) < MSG_QUEUE_DEPTH)
       case Server => Owed(s, who, m.reply) || |s.toClient| + Held(s) < MSG_QUEUE_DEPTH
       case Neither => false
  }

  /** What `port_send` returns: 0 exactly when it accepts, else what is wrong first. */
  function SendCode(s: State, who: Side, m: Message, handles: nat, alive: bool): (code: int)
    ensures code <= 0 && (Sound(s) ==> (code == 0 <==> Accepts(s, who, m, handles, alive)))
  {
    if handles > 0 then INVALID_MSG
    else if |m.data| > MSG_MAX_LEN then TOO_LONG
    else if m.data == [] then EMPTY_MSG
    else if who == Neither then DENIED
    else if !Up(s, if who == Server then Client else Server) then PEER_DISCONNECTED
    else if !Up(s, who) then DISCONNECTED
    else if (if who == Client then |s.toServer| else |s.toClient| + Held(s) - (if Owed(s, who, m.reply) then 1 else 0)) >= MSG_QUEUE_DEPTH
    then QUEUE_FULL
    else if !alive then INVALID_TASK
    else if who == Client && s.reserves && m.expectReply && |s.toClient| + Held(s) >= MSG_QUEUE_DEPTH then RECEIVE_QUEUE_FULL
    else 0
  }

  function Sent(s: State, who: Side, m: Message): State {
    if who == Client then s.(toServer := s.toServer + [m])
    else s.(toClient := s.toClient + [m], unanswered := if Owed(s, who, m.reply) then s.unanswered - 1 else s.unanswered)
  }

  predicate Up(s: State, who: Side) { if who == Server then s.serverUp else who == Client && s.clientUp }

  function Incoming(s: State, who: Side): seq<Message> { if who == Server then s.toServer else s.toClient }

  /** What `port_receive` returns: the length of the oldest message, 0 without one, or an error. */
  function ReceiveCode(s: State, who: Side, size: nat): (n: int) {
    if who == Neither then DENIED
    else if !Up(s, who) then DISCONNECTED
    else if Incoming(s, who) == [] then 0
    else if |Incoming(s, who)[0].data| > size then BUF_TOO_SMALL
    else |Incoming(s, who)[0].data|
  }

  /** The message that a receive takes. */
  function Taken(s: State, who: Side, size: nat): (q: seq<Message>) {
    if ReceiveCode(s, who, size) >= 0 && Incoming(s, who) != [] then [Incoming(s, who)[0]] else []
  }

  /** The oldest message is gone; a request read on a reserving port is now unanswered, and a peer that waited for this
      runs on. */
  function ReadBy(s: State, who: Side): State
    requires Incoming(s, who) != []
  {
    if who == Server then
      s.(toServer := s.toServer[1..], unanswered := if s.reserves && s.toServer[0].expectReply then s.unanswered + 1 else s.unanswered,
         clientPaused := false, clientBlocked := false)
    else s.(toClient := s.toClient[1..], serverPaused := false, serverBlocked := false)
  }

  /** When `msg_wait_on_receive` pauses: the peer is connected and has something to read. */
  predicate MayWait(s: State, who: Side) {
    (who == Client && s.serverUp && s.toServer != []) || (who == Server && s.clientUp && s.toClient != [])
  }

  function Waited(s: State, who: Side): (r: State)
    ensures r.toServer == s.toServer && r.toClient == s.toClient
  {
    if !MayWait(s, who) then s
    else if who == Client then s.(clientBlocked := true, clientPaused := true)
    else s.(serverBlocked := true, serverPaused := true)
  }

  /** A connected peer that waits for this side is let go; a thread that waits on this side is not. */
  function Closed(s: State, who: Side): (r: State)
    ensures r.toServer == s.toServer && r.toClient == s.toClient
  {
    match who
    case Neither => s
    case Server =>
      if s.clientUp && s.clientBlocked then s.(serverUp := false, clientPaused := false, clientBlocked := false) else s.(serverUp := false)
    case Client =>
      if s.serverUp && s.serverBlocked then s.(clientUp := false, serverPaused := false, serverBlocked := false) else s.(clientUp := false)
  }

  /** Somebody else resumes a waiting thread: a pipe it was still registered with. */
  function Resumed(s: State, who: Side): (r: State)
    ensures r.toServer == s.toServer && r.toClient == s.toClient
  {
    match who
    case Client => s.(clientPaused := false)
    case Server => s.(serverPaused := false)
    case Neither => s
  }

  // ---------------------------------------------------------------- runs

  datatype Op =
    | Send(who: Side, m: Message, handles: nat, alive: bool)
    | Receive(who: Side, size: nat)
    | Wait(who: Side)
    | Close(who: Side)
    | Wake(who: Side)

  datatype Answer = Answer(code: int, read: seq<Message>)

  /** What an operation does, and what it answers. */
  ghost predicate Does(s: State, op: Op, r: State, a: Answer) {
    match op
    case Send(who, m, handles, alive) =>
      && a == Answer(SendCode(s, who, m, handles, alive), [])
      && r == if a.code == 0 then Sent(s, who, m) else s
    case Receive(who, size) =>
      a == Answer(ReceiveCode(s, who, size), Taken(s, who, size)) && r == if a.read == [] then s else ReadBy(s, who)
    case Wait(who) => a == Answer(if MayWait(s, who) then 1 else 0, []) && r == Waited(s, who)
    case Close(who) => a == Answer(0, []) && r == Closed(s, who)
    case Wake(who) => a == Answer(0, []) && r == Resumed(s, who)
  }

  /** The steps after which a thread is paused with nobody bound to wake it. */
  predicate Strands(s: State, op: Op) {
    match op
    case Wait(who) => MayWait(s, who) && !Up(s, who)
    case Close(who) => Paused(s, who)
    case _ => false
  }

  ghost predicate IsRun(trace: seq<State>, ops: seq<Op>, answers: seq<Answer>) {
    && |trace| == |ops| + 1 && |answers| == |ops| && Sound(trace[0])
    && forall k | 0 <= k < |ops| :: Does(trace[k], ops[k], trace[k + 1], answers[k])
  }

  /** Every operation keeps the reserved slots right and free; a waiting thread is bound to be woken, if and only if the
      operation is not one of the two that strand it. */
  lemma StepIsSound(s: State, op: Op, r: State, a: Answer)
    requires Sound(s) && Does(s, op, r, a)
    ensures Sound(r) && (Waiting(s) ==> (Waiting(r) <==> !Strands(s, op)))
  {
    hide Sound, Waiting, Accepts, Sent, ReadBy, ReceiveCode, Waited, Closed, Resumed, MayWait, Up;
    match op
    case Send(who, m, handles, alive) =>
      if a.code == 0 {
        SendIsSound(s, who, m, handles, alive);
      }
    case Receive(who, size) =>
      if a.read != [] {
        ReceiveIsSound(s, who);
      }
    case Wait(who) => WaitIsSound(s, who);
    case Close(who) => CloseIsSound(s, who);
    case Wake(who) => WakeIsSound(s, who);
  }

  lemma WaitIsSound(s: State, who: Side)
    requires Sound(s)
    ensures Sound(Waited(s, who)) && (Waiting(s) ==> (Waiting(Waited(s, who)) <==> !MayWait(s, who) || Up(s, who)))
  {
  }

  lemma CloseIsSound(s: State, who: Side)
    requires Sound(s)
    ensures Sound(Closed(s, who)) && (Waiting(s) ==> (Waiting(Closed(s, who)) <==> !Paused(s, who)))
  {
  }

  lemma WakeIsSound(s: State, who: Side)
    requires Sound(s)
    ensures Sound(Resumed(s, who)) && (Waiting(s) ==> Waiting(Resumed(s, who)))
  {
  }

  lemma SendIsSound(s: State, who: Side, m: Message, handles: nat, alive: bool)
    requires Sound(s) && Accepts(s, who, m, handles, alive)
    ensures Sound(Sent(s, who, m)) && (Waiting(s) ==> Waiting(Sent(s, who, m)))
  {
    ExpectingAppend(s.toServer, m);
  }

  lemma ReceiveIsSound(s: State, who: Side)
    requires Sound(s) && Incoming(s, who) != []
    ensures Sound(ReadBy(s, who)) && (Waiting(s) ==> Waiting(ReadBy(s, who)))
  {
    if who == Server {
      ExpectingHead(s.toServer);
    }
  }

  lemma {:induction false} RunIsSound(trace: seq<State>, ops: seq<Op>, answers: seq<Answer>, k: nat)
    requires IsRun(trace, ops, answers) && k <= |ops|
    ensures Sound(trace[k])
  {
    hide Sound, Does;
    if k > 0 {
      RunIsSound(trace, ops, answers, k - 1);
      assert Does(trace[k - 1], ops[k - 1], trace[k - 1 + 1], answers[k - 1]);
      StepIsSound(trace[k - 1], ops[k - 1], trace[k], answers[k - 1]);
    }
  }

  /** A reply that is owed always has room: in every state of every run it is accepted while both sides live. */
  lemma OwedReplyHasRoom(trace: seq<State>, ops: seq<Op>, answers: seq<Answer>, k: nat, m: Message)
    requires IsRun(trace, ops, answers) && k <= |ops| && Owed(trace[k], Server, m.reply)
    ensures |trace[k].toClient| < MSG_QUEUE_DEPTH
    ensures Accepts(trace[k], Server, m, 0, true) <==> 0 < |m.data| <= MSG_MAX_LEN && trace[k].clientUp && trace[k].serverUp
  {
    RunIsSound(trace, ops, answers, k);
  }

  /** What was accepted from one side between two moments of a run. */
  function Accepted(ops: seq<Op>, answers: seq<Answer>, who: Side, i: nat, j: nat): (q: seq<Message>)
    requires i <= j <= |ops| == |answers|
  {
    if i == j then []
    else
      Accepted(ops, answers, who, i, j - 1)
      + (if ops[j - 1].Send? && ops[j - 1].who == who && answers[j - 1].code == 0 then [ops[j - 1].m] else [])
  }

  /** What one side received between two moments of a run. */
  function Received(ops: seq<Op>, answers: seq<Answer>, who: Side, i: nat, j: nat): (q: seq<Message>)
    requires i <= j <= |ops| == |answers|
  {
    if i == j then []
    else Received(ops, answers, who, i, j - 1) + (if ops[j - 1].Receive? && ops[j - 1].who == who then answers[j - 1].read else [])
  }

  /** First in, first out over any stretch of any run, in both directions: what was queued and what was accepted since is
      what was received and what is queued, in this order. */
  lemma {:induction false} Lossless(trace: seq<State>, ops: seq<Op>, answers: seq<Answer>, i: nat, j: nat)
    requires IsRun(trace, ops, answers) && i <= j <= |ops|
    ensures trace[i].toServer + Accepted(ops, answers, Client, i, j) == Received(ops, answers, Server, i, j) + trace[j].toServer
    ensures trace[i].toClient + Accepted(ops, answers, Server, i, j) == Received(ops, answers, Client, i, j) + trace[j].toClient
    decreases j
  {
    hide Sound, Does;
    if i < j {
      Lossless(trace, ops, answers, i, j - 1);
      assert Does(trace[j - 1], ops[j - 1], trace[j - 1 + 1], answers[j - 1]);
      OneStep(trace[j - 1], ops[j - 1], trace[j], answers[j - 1]);
      var s, c := NewFrom(ops[j - 1], answers[j - 1], Client), NewFrom(ops[j - 1], answers[j - 1], Server);
      var s', c' := ReadOf(ops[j - 1], answers[j - 1], Server), ReadOf(ops[j - 1], answers[j - 1], Client);
      Requeued(trace[i].toServer, Accepted(ops, answers, Client, i, j - 1), Received(ops, answers, Server, i, j - 1),
               trace[j - 1].toServer, s, s', trace[j].toServer);
      Requeued(trace[i].toClient, Accepted(ops, answers, Server, i, j - 1), Received(ops, answers, Client, i, j - 1),
               trace[j - 1].toClient, c, c', trace[j].toClient);
    }
  }

  function NewFrom(op: Op, a: Answer, who: Side): seq<Message> {
    if op.Send? && op.who == who && a.code == 0 then [op.m] else []
  }

  function ReadOf(op: Op, a: Answer, who: Side): seq<Message> { if op.Receive? && op.who == who then a.read else [] }

  lemma OneStep(s: State, op: Op, r: State, a: Answer)
    requires Does(s, op, r, a)
    ensures s.toServer + NewFrom(op, a, Client) == ReadOf(op, a, Server) + r.toServer
    ensures s.toClient + NewFrom(op, a, Server) == ReadOf(op, a, Client) + r.toClient
  {
    hide Does, NewFrom, ReadOf;
    match op
    case Send(who, m, _, _) => OneSend(s, op, r, a);
    case Receive(who, _) => OneReceive(s, op, r, a);
    case _ => OneOther(s, op, r, a);
  }

  lemma OneSend(s: State, op: Op, r: State, a: Answer)
    requires Does(s, op, r, a) && op.Send?
    ensures s.toServer + NewFrom(op, a, Client) == ReadOf(op, a, Server) + r.toServer
    ensures s.toClient + NewFrom(op, a, Server) == ReadOf(op, a, Client) + r.toClient
  {
    hide Held, Owed;
    assert a.code == 0 ==> op.who != Neither;
  }

  lemma OneReceive(s: State, op: Op, r: State, a: Answer)
    requires Does(s, op, r, a) && op.Receive?
    ensures s.toServer + NewFrom(op, a, Client) == ReadOf(op, a, Server) + r.toServer
    ensures s.toClient + NewFrom(op, a, Server) == ReadOf(op, a, Client) + r.toClient
  {
    if a.read != [] {
      assert op.who != Neither;
      assert Incoming(s, op.who) == a.read + Incoming(s, op.who)[1..];
    }
  }

  lemma OneOther(s: State, op: Op, r: State, a: Answer)
    requires Does(s, op, r, a) && !op.Send? && !op.Receive?
    ensures s.toServer + NewFrom(op, a, Client) == ReadOf(op, a, Server) + r.toServer
    ensures s.toClient + NewFrom(op, a, Server) == ReadOf(op, a, Client) + r.toClient
  {
    hide Waited, Closed, Resumed, MayWait;
    assert r.toServer == s.toServer && r.toClient == s.toClient;
  }

  lemma Requeued(was: seq<Message>, to: seq<Message>, got: seq<Message>, mid: seq<Message>, more: seq<Message>, read: seq<Message>, now: seq<Message>)
    requires was + to == got + mid && mid + more == read + now
    ensures was + (to + more) == (got + read) + now
  {
    assert was + (to + more) == (was + to) + more == got + (mid + more);
  }

  /** Over any stretch without a stranding step, whoever waits can be woken; at the first one, somebody cannot. */
  lemma {:induction false} WaitersAreWoken(trace: seq<State>, ops: seq<Op>, answers: seq<Answer>, i: nat, j: nat)
    requires IsRun(trace, ops, answers) && i <= j <= |ops| && Waiting(trace[i])
    requires forall k | i <= k < j :: !Strands(trace[k], ops[k])
    ensures Waiting(trace[j]) && (j < |ops| ==> (Waiting(trace[j + 1]) <==> !Strands(trace[j], ops[j])))
    decreases j
  {
    hide Sound, Does, Waiting, Strands;
    if i < j {
      WaitersAreWoken(trace, ops, answers, i, j - 1);
    }
    RunIsSound(trace, ops, answers, j);
    if j < |ops| {
      StepIsSound(trace[j], ops[j], trace[j + 1], answers[j]);
    }
  }

  // ---------------------------------------------------------------- msg.c

  class Channel {
    const reserves: bool
    var toServer: Queue
    var toClient: Queue
    var serverUp: bool
    var clientUp: bool
    var unanswered: nat
    var clientBlocked: bool
    var serverBlocked: bool
    var clientPaused: bool
    var serverPaused: bool

    ghost predicate Valid()
      reads this
    {
      && toServer.Valid() && toClient.Valid() && toServer.reserved == 0 && toClient.reserved == Held(View()) && Sound(View())
    }

    ghost function View(): State
      requires toServer.Valid() && toClient.Valid()
      reads this
    {
      State(reserves, toServer.Contents(), toClient.Contents(), serverUp, clientUp, unanswered,
            clientBlocked, serverBlocked, clientPaused, serverPaused)
    }

    /** The part of `port_connect` that sets up the queues. */
    constructor (reserves: bool)
      ensures Valid() && View() == State(reserves, [], [], true, true, 0, false, false, false, false)
    {
      this.reserves := reserves;
      var slots := seq(MSG_QUEUE_DEPTH, _ => Message([], false, false));
      toServer := Queue(slots, 0, 0, 0, 0);
      toClient := Queue(slots, 0, 0, 0, 0);
      serverUp, clientUp, unanswered := true, true, 0;
      clientBlocked, serverBlocked, clientPaused, serverPaused := false, false, false, false;
    }

    /** `port_send`; `alive` is whether the recipient's thread still exists. */
    method Send(who: Side, m: Message, handles: nat, alive: bool) returns (status: int)
      requires Valid()
      modifies this
      ensures Valid() && Does(old(View()), Op.Send(who, m, handles, alive), View(), Answer(status, []))
      ensures Owed(old(View()), who, m.reply) ==> status != QUEUE_FULL
    {
      hide Slot, Window, Queue.Valid, Queue.Contents, Queue.Push, Queue.Pop, Queue.Reserve, Expecting, Sound, Sendable;
      ghost var s := View();
      ViewFacts();
      status := 0;
      var serverToClient := who == Server;
      var inReserved := reserves && serverToClient && m.reply && unanswered > 0;
      if handles > 0 {
        status := INVALID_MSG;
      } else if |m.data| > MSG_MAX_LEN {
        status := TOO_LONG;
      } else if |m.data| == 0 {
        status := EMPTY_MSG;
      } else if who == Neither {
        status := DENIED;
      } else if (serverToClient && !clientUp) || (!serverToClient && !serverUp) {
        status := PEER_DISCONNECTED;
      } else if (serverToClient && !serverUp) || (!serverToClient && !clientUp) {
        status := DISCONNECTED;
      } else {
        var queue := if serverToClient then toClient else toServer;
        if queue.count + queue.reserved - (if inReserved then 1 else 0) >= MSG_QUEUE_DEPTH {
          status := QUEUE_FULL;
        } else if !alive {
          status := INVALID_TASK;
        } else if reserves && !serverToClient && m.expectReply && toClient.count + toClient.reserved >= MSG_QUEUE_DEPTH {
          status := RECEIVE_QUEUE_FULL;
        } else {
          SendIsSound(s, who, m, handles, alive);
          if serverToClient {
            toClient := toClient.Push(m);
            if inReserved {
              toClient := toClient.Reserve(toClient.reserved - 1);
              unanswered := unanswered - 1;
            }
          } else {
            if reserves && m.expectReply {
              toClient := toClient.Reserve(toClient.reserved + 1);
            }
            ExpectingAppend(toServer.Contents(), m);
            toServer := toServer.Push(m);
          }
        }
      }
    }

    lemma ViewFacts()
      requires Valid()
      ensures toServer.count == |View().toServer| && toClient.count == |View().toClient|
      ensures toClient.count + toClient.reserved <= MSG_QUEUE_DEPTH && (View().unanswered > 0 && reserves ==> toClient.reserved > 0)
    {
    }

    /** `port_receive` into a buffer of `size` bytes: the oldest message, or 0 when there is none. */
    method Receive(who: Side, size: nat) returns (n: int, m: Message, last: bool)
      requires Valid()
      modifies this
      ensures Valid() && n == ReceiveCode(old(View()), who, size)
      ensures if Taken(old(View()), who, size) == [] then View() == old(View())
              else View() == ReadBy(old(View()), who) && [m] == Taken(old(View()), who, size) && (last <==> Incoming(View(), who) == [])
    {
      hide Slot, Window, Queue.Valid, Queue.Contents, Queue.Push, Queue.Pop, Queue.First, Expecting, Sound;
      m, last := Message([], false, false), false;
      if who == Neither {
        n := DENIED;
      } else if (who == Server && !serverUp) || (who == Client && !clientUp) {
        n := DISCONNECTED;
      } else {
        var server := who == Server;
        var queue := if server then toServer else toClient;
        n := 0;
        if queue.count > 0 {
          if |queue.First().data| > size {
            n := BUF_TOO_SMALL;
          } else {
            last := queue.count == 1;
            if server {
              m := ServerReads();
            } else {
              m := ClientReads();
            }
            n := |m.data|;
          }
        }
      }
    }

    /** The server takes its oldest message; a request on a reserving port is now unanswered. */
    method ServerReads() returns (m: Message)
      requires Valid() && toServer.count > 0
      modifies this
      ensures Valid() && m == old(toServer.Contents())[0] && View() == ReadBy(old(View()), Server)
      ensures toServer.count == old(toServer.count) - 1
    {
      hide Slot, Window, Queue.Valid, Queue.Contents, Queue.Pop, Queue.First, Expecting, Sound;
      ghost var s := View();
      ReceiveIsSound(s, Server);
      m := toServer.First();
      ExpectingHead(toServer.Contents());
      unanswered := unanswered + if reserves && m.expectReply then 1 else 0;
      toServer := toServer.Pop();
      PausedBlocked(s);
      if clientBlocked {
        clientPaused, clientBlocked := false, false;
      }
    }

    method ClientReads() returns (m: Message)
      requires Valid() && toClient.count > 0
      modifies this
      ensures Valid() && m == old(toClient.Contents())[0] && View() == ReadBy(old(View()), Client)
      ensures toClient.count == old(toClient.count) - 1
    {
      hide Slot, Window, Queue.Valid, Queue.Contents, Queue.Pop, Queue.First, Expecting, Sound;
      ghost var s := View();
      ReceiveIsSound(s, Client);
      m := toClient.First();
      toClient := toClient.Pop();
      PausedBlocked(s);
      if serverBlocked {
        serverPaused, serverBlocked := false, false;
      }
    }

    /** `msg_wait_on_receive`: pause until the peer has read something, if there is anything to wait for.  A side that
        has itself disconnected may pause too, and then no close wakes it; see `Close` for the other way to be forgotten. */
    method WaitOnReceive(who: Side) returns (waits: bool)
      requires Valid()
      modifies this
      ensures Valid() && waits == MayWait(old(View()), who) && View() == Waited(old(View()), who)
      ensures Waiting(old(View())) ==> (Waiting(View()) <==> !waits || Up(View(), who))
    {
      hide Slot, Window, Queue.Valid, Queue.Contents, Expecting;
      waits := false;
      if who != Neither {
        var server := who == Server;
        var queue := if server then toClient else toServer;
        if !(queue.count == 0 || (server && !clientUp) || (!server && !serverUp)) {
          if server {
            serverBlocked, serverPaused := true, true;
          } else {
            clientBlocked, clientPaused := true, true;
          }
          waits := true;
        }
      }
    }

    /** The async half of `port_close_connection`: a peer that waits for this side to read is let go.  A thread that waits
        on the side which closes is not: the owner of a port that another thread of its process closes, or a client
        that has just ended itself. */
    method Close(who: Side)
      requires Valid()
      modifies this
      ensures Valid() && View() == Closed(old(View()), who)
      ensures Waiting(old(View())) ==> (Waiting(View()) <==> !Paused(old(View()), who))
    {
      hide Slot, Window, Queue.Valid, Queue.Contents, Expecting;
      if who == Server {
        if clientUp && clientBlocked {
          clientPaused, clientBlocked := false, false;
        }
        serverUp := false;
      } else if who == Client {
        if serverUp && serverBlocked {
          serverPaused, serverBlocked := false, false;
        }
        clientUp := false;
      }
    }

    method StrayWake(who: Side)
      requires Valid()
      modifies this
      ensures Valid() && View() == Resumed(old(View()), who)
    {
      hide Slot, Window, Queue.Valid, Queue.Contents, Expecting;
      if who == Client {
        clientPaused := false;
      } else if who == Server {
        serverPaused := false;
      }
    }

    /** One operation of a run. */
    method Perform(op: Op) returns (a: Answer)
      requires Valid()
      modifies this
      ensures Valid() && Does(old(View()), op, View(), a)
    {
      hide Slot, Window, Queue.Valid, Queue.Contents, Sound, Held, Accepts, Sent, ReadBy, Waited, Closed, Resumed;
      a := Answer(0, []);
      match op
      case Send(who, m, handles, alive) =>
        var status := Send(who, m, handles, alive);
        a := Answer(status, []);
      case Receive(who, size) =>
        var any := (if who == Server then toServer.count else toClient.count) > 0;
        var n, m, last := Receive(who, size);
        a := Answer(n, if any && n >= 0 then [m] else []);
      case Wait(who) =>
        var waits := WaitOnReceive(who);
        a := Answer(if waits then 1 else 0, []);
      case Close(who) => Close(who);
      case Wake(who) => StrayWake(who);
    }

    /** Any sequence of operations by both sides: `trace` are the states passed through, `answers` what they returned. */
    method Run(ops: seq<Op>) returns (answers: seq<Answer>, ghost trace: seq<State>)
      requires Valid()
      modifies this
      ensures Valid() && IsRun(trace, ops, answers) && trace[0] == old(View()) && trace[|ops|] == View()
    {
      hide Slot, Window, Queue.Valid, Queue.Contents, Sound, Held, Does;
      answers, trace := [], [View()];
      while |answers| < |ops|
        invariant |answers| <= |ops| && Valid() && IsRun(trace, ops[..|answers|], answers)
        invariant trace[0] == old(View()) && trace[|answers|] == View()
        decreases |ops| - |answers|
      {
        var a := Perform(ops[|answers|]);
        assert ops[..|answers| + 1] == ops[..|answers|] + [ops[|answers|]];
        answers, trace := answers + [a], trace + [View()];
      }
      assert ops[..|ops|] == ops;
    }
  }

  lemma PausedBlocked(s: State)
    requires Sound(s)
    ensures (s.clientPaused ==> s.clientBlocked) && (s.serverPaused ==> s.serverBlocked)
  {
  }

  /** The owner of a port waits until its client reads, and another thread of its process closes the port: the owner stays
      paused on a channel that is gone. */
  method SiblingCloseExample(m: Message) returns (c: Channel, waits: bool)
    requires 0 < |m.data| <= MSG_MAX_LEN
    ensures fresh(c) && c.Valid() && waits && c.View() == State(false, [], [m], false, true, 0, false, true, false, true) && !Waiting(c.View())
  {
    c := new Channel(false);
    var status := c.Send(Server, m, 0, true);
    waits := c.WaitOnReceive(Server);
    assert Waiting(c.View());
    c.Close(Server);
  }

  /** A client that sends one message, disconnects and then waits for it to be read is paused on a channel that is no
      longer its own: no close wakes it, only a read that need not come. */
  method DisconnectedWaitExample(m: Message) returns (c: Channel, waits: bool)
    requires 0 < |m.data| <= MSG_MAX_LEN
    ensures fresh(c) && c.Valid() && waits && c.View() == State(false, [m], [], true, false, 0, true, false, true, false) && !Waiting(c.View())
  {
    c := new Channel(false);
    var status := c.Send(Client, m, 0, true);
    c.Close(Client);
    waits := c.WaitOnReceive(Client);
  }
}
