/**
 * Task switching and callbacks (`tasks.c`), among tasks that are not parked inside the kernel.
 *
 * `regs` is the trap frame: what the current task resumes with.  The logical context of a task is what it will have in
 * its registers once it runs outside callbacks again.
 */
module TaskSwitch {
  import opened Machine
  import opened Events

  const TOTAL_TASKS: nat := 16
  const EVENT_QUEUE_SIZE: nat := 64

  /** The registers that the kernel looks at, and all the others. */
  datatype Regs = Regs(eip: int, useresp: int, rest: seq<int>)

  datatype Pause = Running | Snoozed | Held

  datatype Routine = Outside | Inside(kind: Kind)

  /** `sides` are the task's sides of its channels, in the order a retry visits them; `func` is its `msg_func`. */
  datatype Task = Task(enabled: bool, pause: Pause, crashed: bool, registers: Regs, routine: Routine, returnRegs: Regs,
    events: seq<Event>, func: int, sides: seq<Endpoint>)

  /** `current` is -1 while no task can run, until the idle process has been launched. */
  datatype State = State(tasks: seq<Task>, current: int, regs: Regs)

  /** The channels, by port and channel uid, that a task no longer reads from, and those with nothing to read. */
  datatype Channels = Channels(gone: set<(int, int)>, drained: set<(int, int)>)

  /** `task_resumable` */
  predicate Resumable(t: Task) { t.enabled && t.pause.Running? }

  ghost predicate Formed(q: seq<Event>) { AllFormed(q) && |q| <= EVENT_QUEUE_SIZE }

  ghost predicate Sound(s: State) {
    && |s.tasks| == TOTAL_TASKS && -1 <= s.current < TOTAL_TASKS
    && (s.current >= 0 ==> s.tasks[s.current].enabled) && forall t | 0 <= t < TOTAL_TASKS :: Formed(s.tasks[t].events)
  }

  ghost function Frame(s: State, t: nat): Regs
    requires t < |s.tasks|
  {
    if t == s.current then s.regs else s.tasks[t].registers
  }

  ghost function Context(s: State, t: nat): Regs
    requires t < |s.tasks|
  {
    if s.tasks[t].routine.Inside? then s.tasks[t].returnRegs else Frame(s, t)
  }

  // ---------------------------------------------------------------- round robin

  /** The tasks in the order they are tried after `c`, `c` itself last. */
  function Turn(c: nat, k: nat): (t: nat)
    requires c < TOTAL_TASKS
    ensures t < TOTAL_TASKS
  {
    (c + k) % TOTAL_TASKS
  }

  /** How many places after `c` task `t` is tried. */
  function Distance(c: nat, t: nat): (d: nat)
    requires c < TOTAL_TASKS && t < TOTAL_TASKS
    ensures 1 <= d <= TOTAL_TASKS && Turn(c, d) == t
  {
    if t > c then t - c else t - c + TOTAL_TASKS
  }

  ghost predicate IsNext(tasks: seq<Task>, c: nat, n: nat)
    requires |tasks| == TOTAL_TASKS && c < TOTAL_TASKS && n < TOTAL_TASKS
  {
    Resumable(tasks[n]) && forall t | 0 <= t < TOTAL_TASKS && Resumable(tasks[t]) :: Distance(c, n) <= Distance(c, t)
  }

  lemma Nearer(c: nat, n: nat, t: nat)
    requires c < TOTAL_TASKS && n < TOTAL_TASKS && t < TOTAL_TASKS && n != t && Distance(c, n) <= Distance(c, t)
    ensures Distance(n, t) < Distance(c, t)
  {
  }

  // ---------------------------------------------------------------- the events of one task

  /** `task_unsnooze` */
  function Woken(t: Task): Task { if t.pause.Snoozed? then t.(pause := Running) else t }

  /** `task_queue_subroutine` on an enabled task */
  function Queued(t: Task, e: Event): (r: (Task, bool))
    requires Formed(t.events) && WellFormed(e)
    ensures Formed(r.0.events) && r.0 == t.(events := r.0.events, pause := if t.pause == Snoozed then Running else t.pause)
  {
    var (q, ok) := Enqueued(t.events, EVENT_QUEUE_SIZE, e);
    (Woken(t).(events := q), ok)
  }

  /** `msg_retry_task_notifications` */
  function Renotified(t: Task): (r: Task)
    requires Formed(t.events)
    ensures Formed(r.events) && SameButMail(t, r) && |r.events| + Owed(r.sides) <= |t.events| + Owed(t.sides)
    ensures r.pause == Snoozed <==> t.pause == Snoozed && Owed(t.sides) == 0
  {
    var (q, sides) := Retried(t.events, EVENT_QUEUE_SIZE, t.func, t.sides);
    (if Owed(t.sides) > 0 then Woken(t) else t).(events := q, sides := sides)
  }

  /** The first event leaves the queue, which makes room for a notification that is owed. */
  function Advance(t: Task): (r: Task)
    requires Formed(t.events) && t.events != []
    ensures Formed(r.events) && SameButMail(t, r) && |r.events| + Owed(r.sides) < |t.events| + Owed(t.sides)
  {
    Renotified(t.(events := t.events[1..]))
  }

  lemma AdvanceElsewhere(a: Task, b: Task)
    requires Formed(a.events) && a.events != [] && b == a.(registers := b.registers, routine := b.routine, returnRegs := b.returnRegs)
    ensures Advance(b) == Advance(a).(registers := b.registers, routine := b.routine, returnRegs := b.returnRegs)
  {
  }

  lemma RenotifiedElsewhere(a: Task, b: Task)
    requires Formed(a.events) && SameButRegister(a, b)
    ensures SameButRegister(Renotified(a), Renotified(b))
  {
  }

  predicate Flagged(sides: seq<Endpoint>, key: (int, int)) {
    exists i | 0 <= i < |sides| :: (sides[i].port, sides[i].channel) == key && sides[i].flags != {}
  }

  /** `msg_notif_is_stale`, for an event that carries no flags itself */
  predicate Stale(t: Task, e: Event, ch: Channels)
    requires WellFormed(e)
  {
    && e.kind == Msg && e.flags == {}
    && var key := (e.args[0], e.args[1]); key in ch.gone || (key in ch.drained && !Flagged(t.sides, key))
  }

  /** The task after its stale events at the front have been dropped. */
  function Skipped(t: Task, ch: Channels): (r: Task)
    requires Formed(t.events)
    ensures Formed(r.events) && SameButMail(t, r) && (r.events != [] ==> !Stale(r, r.events[0], ch))
    decreases |t.events| + Owed(t.sides)
  {
    if t.events != [] && Stale(t, t.events[0], ch) then Skipped(Advance(t), ch) else t
  }

  /** What a task is to be told for a callback, port and channel: queued, or still to be queued. */
  ghost function Reported(t: Task, key: Event): set<nat>
    requires Formed(t.events) && WellFormed(key)
  {
    Flags(t.events, key) + SideFlags(t.sides, t.func, key)
  }

  lemma AdvanceKeepsFlags(t: Task, key: Event)
    requires Formed(t.events) && t.events != [] && WellFormed(key)
    ensures Reported(t, key) == Reported(Advance(t), key) + (if SameMsg(t.events[0], key) then t.events[0].flags else {})
  {
    FlagsTail(t.events, key);
    RetryKeepsFlags(t.events[1..], EVENT_QUEUE_SIZE, t.func, t.sides, key);
  }

  lemma {:induction false} SkippedKeepsFlags(t: Task, ch: Channels, key: Event)
    requires Formed(t.events) && WellFormed(key)
    ensures Reported(Skipped(t, ch), key) == Reported(t, key)
    decreases |t.events| + Owed(t.sides)
  {
    if t.events != [] && Stale(t, t.events[0], ch) {
      AdvanceKeepsFlags(t, key);
      SkippedKeepsFlags(Advance(t), ch, key);
    }
  }

  /** Flags reach the task's callback or stay reported: dropping stale events and refilling the queue lose none. */
  lemma DeliveryKeepsFlags(t: Task, ch: Channels, key: Event)
    requires Formed(t.events) && WellFormed(key)
    ensures var s := Skipped(t, ch);
      if s.events == [] then Reported(s, key) == Reported(t, key)
      else Reported(t, key) == Reported(Advance(s), key) + (if SameMsg(s.events[0], key) then s.events[0].flags else {})
  {
    SkippedKeepsFlags(t, ch, key);
    var s := Skipped(t, ch);
    if s.events != [] {
      AdvanceKeepsFlags(s, key);
    }
  }

  /** Nor do they lose an event that is not a message: only the first event that is not stale leaves, and all others
      stay in order. */
  lemma DeliveryKeepsEvents(t: Task, ch: Channels)
    requires Formed(t.events)
    ensures var s := Skipped(t, ch);
      && NoMessages(s.events) == NoMessages(t.events)
      && (s.events != [] ==> NoMessages(t.events) == (if s.events[0].kind == Msg then [] else [s.events[0]]) + NoMessages(Advance(s).events))
  {
    SkippedKeepsEvents(t, ch);
    var s := Skipped(t, ch);
    if s.events != [] {
      AdvanceKeepsEvents(s);
    }
  }

  lemma AdvanceKeepsEvents(t: Task)
    requires Formed(t.events) && t.events != []
    ensures Extends(t.events[1..], t.func, Advance(t).events)
    ensures NoMessages(t.events) == (if t.events[0].kind == Msg then [] else [t.events[0]]) + NoMessages(Advance(t).events)
  {
    NoMessagesTail(t.events);
    RetryExtends(t.events[1..], EVENT_QUEUE_SIZE, t.func, t.sides);
    ExtendsKeeps(t.events[1..], t.func, Advance(t).events);
  }

  lemma {:induction false} SkippedKeepsEvents(t: Task, ch: Channels)
    requires Formed(t.events)
    ensures NoMessages(Skipped(t, ch).events) == NoMessages(t.events)
    decreases |t.events| + Owed(t.sides)
  {
    if t.events != [] && Stale(t, t.events[0], ch) {
      AdvanceKeepsEvents(t);
      SkippedKeepsEvents(Advance(t), ch);
    }
  }

  /** What is skipped: a message without flags for a channel that the task has left, or that has nothing to read and no
      flags to report. */
  lemma SkipsExactly(t: Task, ch: Channels)
    requires Formed(t.events) && t.events != []
    ensures var e := t.events[0];
      Skipped(t, ch) != t <==>
        && e.kind == Msg && e.flags == {}
        && ((e.args[0], e.args[1]) in ch.gone
            || ((e.args[0], e.args[1]) in ch.drained
                && forall i | 0 <= i < |t.sides| && t.sides[i].port == e.args[0] && t.sides[i].channel == e.args[1] :: t.sides[i].flags == {}))
  {
    hide Advance;
    if Stale(t, t.events[0], ch) {
      SkippedLess(Advance(t), ch);
    }
  }

  lemma {:induction false} SkippedLess(t: Task, ch: Channels)
    requires Formed(t.events)
    ensures |Skipped(t, ch).events| + Owed(Skipped(t, ch).sides) <= |t.events| + Owed(t.sides)
    decreases |t.events| + Owed(t.sides)
  {
    if t.events != [] && Stale(t, t.events[0], ch) {
      SkippedLess(Advance(t), ch);
    }
  }

  /** `b` is `a` up to what notifications change. */
  ghost predicate SameButMail(a: Task, b: Task) {
    b == a.(events := b.events, sides := b.sides, pause := b.pause) && (b.pause == a.pause || (a.pause.Snoozed? && b.pause.Running?))
  }

  class Cpu {
    var tasks: seq<Task>
    var current: int
    var regs: Regs

    ghost predicate Valid()
      reads this
    {
      Sound(Now()) && current >= 0
    }

    ghost function Now(): State
      reads this
    {
      State(tasks, current, regs)
    }

    /** `tasks_alloc` */
    constructor (garbage: Regs)
      ensures Sound(Now()) && current == -1 && forall t | 0 <= t < TOTAL_TASKS :: !tasks[t].enabled
    {
      tasks := seq(TOTAL_TASKS, _ => Task(false, Running, false, garbage, Outside, garbage, [], 0, []));
      current, regs := -1, garbage;
    }

    /** Every task keeps its logical context. */
    twostate predicate Preserved()
      requires |tasks| == |old(tasks)| == TOTAL_TASKS
      reads this
    {
      forall t | 0 <= t < TOTAL_TASKS :: Context(Now(), t) == Context(old(Now()), t)
    }

    /** Every task but `x` also keeps the registers it will next run with, inside a callback or not. */
    twostate predicate FramesKept(x: int)
      requires |tasks| == |old(tasks)| == TOTAL_TASKS
      reads this
    {
      forall t | 0 <= t < TOTAL_TASKS && t != x :: Frame(Now(), t) == Frame(old(Now()), t)
    }

    /** `next_task`: the resumable task tried first after the current one, or -1. */
    method NextTask() returns (n: int)
      requires |tasks| == TOTAL_TASKS && 0 <= current < TOTAL_TASKS
      ensures n == -1 <==> forall t | 0 <= t < TOTAL_TASKS :: !Resumable(tasks[t])
      ensures n != -1 ==> 0 <= n < TOTAL_TASKS && IsNext(tasks, current, n)
    {
      var task := current;
      ghost var d: nat := 0;
      while true
        invariant d < TOTAL_TASKS && task == Turn(current, d)
        invariant forall t | 0 <= t < TOTAL_TASKS && Distance(current, t) <= d :: !Resumable(tasks[t])
        decreases TOTAL_TASKS - d
      {
        TurnNext(current, d);
        task := (task + 1) % TOTAL_TASKS;
        d := d + 1;
        if task == current && !Resumable(tasks[task]) {
          return -1;
        }
        if Resumable(tasks[task]) {
          return task;
        }
      }
    }

    /** `switch_task`: the frame is saved and another task's restored; without a resumable task the frame is saved and
        the idle process has to be launched. */
    method SwitchTask()
      requires |tasks| == TOTAL_TASKS && 0 <= current < TOTAL_TASKS && forall t | 0 <= t < TOTAL_TASKS :: Formed(tasks[t].events)
      modifies this
      ensures Sound(Now()) && Preserved() && FramesKept(-1) && Yields(old(tasks), old(current), Now())
    {
      var was := current;
      current := NextTask();
      if was != current {
        tasks := tasks[was := tasks[was].(registers := regs)];
      }
      if current != -1 && was != current {
        regs := tasks[current].registers;
      }
    }

    /** `switch_to_task` */
    method SwitchTo(index: int) returns (ok: bool)
      requires Valid()
      modifies this
      ensures Valid() && Preserved() && FramesKept(-1) && SameButRegisters(old(tasks), tasks)
      ensures ok <==> 0 <= index < TOTAL_TASKS && Resumable(old(tasks)[index])
      ensures if ok then current == index && tasks[index] == old(tasks)[index] else Now() == old(Now())
    {
      ok := 0 <= index < TOTAL_TASKS && tasks[index].enabled && tasks[index].pause.Running?;
      if ok {
        var was := current;
        current := index;
        if current != was {
          tasks := tasks[was := tasks[was].(registers := regs)];
          regs := tasks[current].registers;
        }
      }
    }

    /** `task_execute_subroutine` for the current task, which is in no callback; `copied` is whether the arguments
        could be put on its stack. */
    method Enter(e: Event, copied: bool) returns (ok: bool)
      requires Valid() && tasks[current].routine.Outside?
      modifies this
      ensures Valid() && Preserved() && FramesKept(current) && current == old(current) && ok == copied
      ensures if ok then
                && regs == CallFrame(old(regs), e)
                && tasks == old(tasks)[current := old(tasks)[current].(routine := Inside(e.kind), returnRegs := old(regs))]
              else Now() == old(Now())
    {
      ok := copied;
      if ok {
        tasks := tasks[current := tasks[current].(routine := Inside(e.kind), returnRegs := regs)];
        regs := regs.(useresp := (regs.useresp - FrameSize(e)) % TWO32, eip := e.addr);
      }
    }

    /** `crash_task` without a trap frame to switch with */
    method Crash(t: nat)
      requires Valid() && t < TOTAL_TASKS
      modifies this`tasks
      ensures Valid() && Preserved() && FramesKept(-1) && tasks == old(tasks)[t := Crashed(old(tasks)[t])]
    {
      tasks := tasks[t := tasks[t].(pause := Held, crashed := true)];
    }

    /** `task_queue_subroutine` */
    method Queue(t: nat, e: Event) returns (ok: bool)
      requires Valid() && t < TOTAL_TASKS && tasks[t].enabled && WellFormed(e)
      modifies this`tasks
      ensures Valid() && Preserved() && FramesKept(-1)
      ensures (tasks[t], ok) == Queued(old(tasks)[t], e) && tasks == old(tasks)[t := tasks[t]] && tasks[t].pause != Snoozed
    {
      var queued := Queued(tasks[t], e);
      tasks, ok := tasks[t := queued.0], queued.1;
    }

    /** The stale events at the front of a queue go, and the queue is refilled as they do. */
    method DropStale(t: nat, ch: Channels)
      requires Valid() && t < TOTAL_TASKS && tasks[t].enabled
      modifies this`tasks
      ensures Valid() && tasks == old(tasks)[t := Skipped(old(tasks)[t], ch)]
    {
      hide Advance, Stale;
      while tasks[t].events != [] && Stale(tasks[t], tasks[t].events[0], ch)
        invariant Valid() && tasks[t].enabled && tasks == old(tasks)[t := tasks[t]]
        invariant Skipped(tasks[t], ch) == Skipped(old(tasks)[t], ch)
        decreases |tasks[t].events| + Owed(tasks[t].sides)
      {
        tasks := tasks[t := Advance(tasks[t])];
      }
    }

    /** The first event of a task in no callback, which is not stale, is entered if the task can run. */
    method EnterFirst(t: nat, copied: bool) returns (ok: bool)
      requires Valid() && t < TOTAL_TASKS && tasks[t].routine.Outside? && tasks[t].events != []
      modifies this
      ensures Valid() && Preserved() && FramesKept(t)
      ensures FirstEntered(old(Now()), t, copied, Now(), ok)
    {
      hide Advance, Formed;
      ok := SwitchTo(t);
      if ok {
        var e := tasks[t].events[0];
        ok := Enter(e, copied);
        if ok {
          AdvanceElsewhere(old(tasks)[t], tasks[t]);
          tasks := tasks[t := Advance(tasks[t])];
        } else {
          Crash(t);
        }
      }
    }

    /** `task_execute_queued_subroutine`: from outside a callback the first event that is not stale is entered; a task
        that cannot take its arguments crashes. */
    method RunQueued(t: nat, ch: Channels, copied: bool) returns (ok: bool)
      requires Valid() && t < TOTAL_TASKS && tasks[t].enabled
      modifies this
      ensures Valid() && Preserved() && FramesKept(t) && Ran(old(Now()), t, ch, copied, Now(), ok)
    {
      hide Skipped, Advance, Formed;
      ok := false;
      if tasks[t].routine.Outside? && !tasks[t].crashed {
        DropStale(t, ch);
        if tasks[t].events != [] {
          ok := EnterFirst(t, copied);
        }
      }
    }

    /** `task_call_subroutine`: entered at once when the task is idle, otherwise queued; callbacks never nest. */
    method CallSubroutine(t: nat, e: Event, ch: Channels, copied: bool) returns (ok: bool)
      requires Valid() && t < TOTAL_TASKS && WellFormed(e)
      modifies this
      ensures Sound(Now()) && Preserved() && FramesKept(t) && Called(old(Now()), t, e, ch, copied, Now(), ok)
    {
      hide Queued, Skipped, Advance, Formed, Ran;
      ok := false;
      if tasks[t].enabled {
        tasks := tasks[t := Woken(tasks[t])];
        if !tasks[t].pause.Running? || tasks[t].routine.Inside? {
          ok := Queue(t, e);
        } else {
          ok := CallIdle(t, e, ch, copied);
        }
      }
    }

    /** Its second half: the task can run and is in no callback. */
    method CallIdle(t: nat, e: Event, ch: Channels, copied: bool) returns (ok: bool)
      requires Valid() && t < TOTAL_TASKS && WellFormed(e) && Resumable(tasks[t]) && tasks[t].routine.Outside?
      modifies this
      ensures Sound(Now()) && Preserved() && FramesKept(t) && CalledIdle(old(Now()), t, e, ch, copied, Now(), ok)
    {
      hide Queued, Skipped, Advance, Formed, Yields;
      ok := SwitchTo(t);
      if tasks[t].events != [] {
        ok := Queue(t, e);
        var ran := RunQueued(t, ch, copied);
        if !ran && tasks[t].crashed {
          ghost var left := tasks;
          SwitchTask();
          YieldsElsewhere(old(tasks)[t := left[t].(registers := old(tasks)[t].registers)], left, t, Now());
        }
      } else {
        ok := Enter(e, copied);
        if !ok {
          Crash(t);
          ghost var left := tasks;
          SwitchTask();
          YieldsElsewhere(old(tasks)[t := Crashed(old(tasks)[t])], left, t, Now());
        }
      }
    }

    /** `task_subroutine_end`: the interrupted registers come back, unless another queued callback is entered on top
        of them. */
    method SubroutineEnd(ch: Channels, copied: bool)
      requires Valid()
      modifies this
      ensures Sound(Now()) && Preserved() && FramesKept(old(current)) && Ended(old(Now()), ch, copied, Now())
    {
      hide Skipped, Advance, Renotified, Formed, Yields;
      if tasks[current].routine.Inside? {
        var t := current;
        regs := tasks[t].returnRegs;
        tasks := tasks[t := tasks[t].(routine := Outside)];
        var ran := RunQueued(t, ch, copied);
        ghost var x := tasks[t].(registers := old(tasks)[t].registers);
        ghost var left := tasks[t := Renotified(tasks[t])];
        RenotifiedElsewhere(x, tasks[t]);
        assert SameButRegisters(old(tasks)[t := Renotified(x)], left);
        Settle();
        if !left[t].pause.Running? {
          YieldsElsewhere(old(tasks)[t := Renotified(x)], left, t, Now());
        }
      }
    }

    /** Its end: dropped notifications are retried, and a task that was paused meanwhile yields. */
    method Settle()
      requires Valid()
      modifies this
      ensures Sound(Now()) && Preserved() && FramesKept(-1)
      ensures var left := old(tasks)[old(current) := Renotified(old(tasks)[old(current)])];
        if left[old(current)].pause.Running? then current == old(current) && regs == old(regs) && tasks == left
        else Yields(left, old(current), Now())
    {
      hide Renotified, Formed;
      tasks := tasks[current := Renotified(tasks[current])];
      if !tasks[current].pause.Running? {
        SwitchTask();
      }
    }

    /** Every return from an interrupt to user mode, and the start of `api_yield` and `api_snooze`: queued events of the
        current task are delivered, and if it crashes over that another task runs. */
    method Deliver(ch: Channels, copied: bool)
      requires Valid()
      modifies this
      ensures Sound(Now()) && Preserved() && FramesKept(old(current)) && Delivered(old(Now()), ch, copied, Now())
    {
      hide Skipped, Advance, Formed;
      var t := current;
      var ok := RunQueued(t, ch, copied);
      if !ok && tasks[t].crashed {
        ghost var left := tasks;
        ghost var was := old(tasks)[t := left[t].(registers := old(tasks)[t].registers)];
        assert old(tasks)[t].crashed ==> was == old(tasks);
        SwitchTask();
        YieldsElsewhere(was, left, t, Now());
      }
    }

    /** The end of a thread (`end_task_helper`), as far as it concerns scheduling. */
    method EndTask(t: nat)
      requires Valid() && t < TOTAL_TASKS
      modifies this
      ensures Sound(Now()) && Exited(old(Now()), t, Now())
      ensures FramesKept(t) && forall u | 0 <= u < TOTAL_TASKS && u != t :: Context(Now(), u) == Context(old(Now()), u)
    {
      tasks := tasks[t := tasks[t].(enabled := false, routine := Outside)];
      if !tasks[current].enabled {
        SwitchTask();
      }
    }

    /** A new task in the slot that `get_free_task_index` found (`create_task_entry`), run at once (`launch_task`), as the
        idle process is, or left to be scheduled. */
    method Launch(t: nat, start: Regs, now: bool)
      requires Sound(Now()) && t < TOTAL_TASKS && t != current && !tasks[t].enabled
      modifies this
      ensures Sound(Now()) && Started(old(Now()), t, start, now, Now()) && Context(Now(), t) == start
      ensures FramesKept(t) && forall u | 0 <= u < TOTAL_TASKS && u != t :: Context(Now(), u) == Context(old(Now()), u)
    {
      var was := current;
      tasks := tasks[t := Task(true, Running, false, start, Outside, start, [], 0, [])];
      if now {
        current := t;
        if was >= 0 && tasks[was].enabled {
          tasks := tasks[was := tasks[was].(registers := regs)];
        }
        regs := tasks[current].registers;
      }
    }

    // ---------------------------------------------------------------- runs

    /** One step of a run.  While no task can run, only the launch of the idle process is possible. */
    method Step(op: Op)
      requires Sound(Now()) && Proper(op) && (current == -1 ==> op.Start? && op.now)
      modifies this
      ensures Sound(Now()) && Keeps(old(Now()), op, Now())
    {
      hide Called, Ended, Delivered, Exited, Started, IsNext, Yields, Formed;
      match op
      case Tick => SwitchTask();
      case GoTo(t) => var ok := SwitchTo(t);
      case Call(t, e, ch, copied) => var ok := CallSubroutine(t, e, ch, copied);
      case Return(ch, copied) => SubroutineEnd(ch, copied);
      case Deliver(ch, copied) => Deliver(ch, copied);
      case User(after) => regs := after;
      case Result(t, rest) => tasks := tasks[t := tasks[t].(registers := tasks[t].registers.(rest := rest))];
      case SetPause(t, pause) => tasks := tasks[t := tasks[t].(pause := pause)];
      case SetChannels(t, func, sides) => tasks := tasks[t := tasks[t].(func := func, sides := sides)];
      case Start(t, start, now) =>
        if t != current && !tasks[t].enabled {
          Launch(t, start, now);
        }
      case Exit(t) => EndTask(t);
    }

    /** Any interleaving of switches, callbacks, user code, pauses, launches and exits, up to the point where nobody can
        run and the idle process is not launched either (the kernel panics).  `trace` are the states passed through. */
    method Run(ops: seq<Op>) returns (ghost trace: seq<State>, n: nat)
      requires Sound(Now()) && forall k | 0 <= k < |ops| :: Proper(ops[k])
      modifies this
      ensures n <= |ops| && IsRun(trace, ops[..n]) && trace[0] == old(Now()) && trace[n] == Now()
      ensures n < |ops| ==> current == -1 && !(ops[n].Start? && ops[n].now)
    {
      n := 0;
      trace := [Now()];
      while n < |ops| && (current != -1 || (ops[n].Start? && ops[n].now))
        invariant n <= |ops| && Sound(Now()) && IsRun(trace, ops[..n]) && trace[0] == old(Now()) && trace[n] == Now()
      {
        Step(ops[n]);
        trace := trace + [Now()];
        n := n + 1;
      }
    }
  }

  /** What can happen; `User` is the current task running in user mode, in a callback or not, or in a system call, and
      `Result` a result that the kernel puts into the saved registers of a task that waits for it. */
  datatype Op =
    | Tick
    | GoTo(t: nat)
    | Call(t: nat, e: Event, ch: Channels, copied: bool)
    | Return(ch: Channels, copied: bool)
    | Deliver(ch: Channels, copied: bool)
    | User(after: Regs)
    | Result(t: nat, rest: seq<int>)
    | SetPause(t: nat, pause: Pause)
    | SetChannels(t: nat, func: int, sides: seq<Endpoint>)
    | Start(t: nat, start: Regs, now: bool)
    | Exit(t: nat)

  ghost predicate Proper(op: Op) {
    match op
    case Call(t, e, _, _) => t < TOTAL_TASKS && WellFormed(e)
    case Result(t, _) => t < TOTAL_TASKS
    case SetPause(t, _) => t < TOTAL_TASKS
    case SetChannels(t, _, _) => t < TOTAL_TASKS
    case Start(t, _, _) => t < TOTAL_TASKS
    case Exit(t) => t < TOTAL_TASKS
    case _ => true
  }

  /** Task `t` itself moves on outside callbacks, is given a result there, or begins or ends. */
  ghost predicate Own(s: State, op: Op, t: nat)
    requires t < |s.tasks|
  {
    match op
    case User(_) => s.current == t && s.tasks[t].routine.Outside?
    case Result(u, _) => u == t && t != s.current && s.tasks[t].routine.Outside?
    case Start(u, _, _) => u == t && t != s.current && !s.tasks[t].enabled
    case Exit(u) => u == t
    case _ => false
  }

  /** Task `t` runs, or enters or leaves a callback. */
  ghost predicate Touched(s: State, op: Op, t: nat) {
    match op
    case Call(u, _, _, _) => u == t
    case Return(_, _) => s.current == t
    case Deliver(_, _) => s.current == t
    case User(_) => s.current == t
    case Result(u, _) => u == t && t != s.current
    case Start(u, _, _) => u == t
    case Exit(u) => u == t
    case _ => false
  }

  /** What an operation does. */
  ghost predicate Does(a: State, op: Op, b: State)
    requires Sound(a) && Sound(b) && Proper(op) && (a.current == -1 ==> op.Start? && op.now)
  {
    match op
    case Tick =>
      Yields(a.tasks, a.current, b)
    case GoTo(t) =>
      && SameButRegisters(a.tasks, b.tasks)
      && if 0 <= t < TOTAL_TASKS && Resumable(a.tasks[t]) then b.current == t else b == a
    case Call(t, e, ch, copied) => exists ok :: Called(a, t, e, ch, copied, b, ok)
    case Return(ch, copied) => Ended(a, ch, copied, b)
    case Deliver(ch, copied) => Delivered(a, ch, copied, b)
    case User(after) => b == a.(regs := after)
    case Result(t, rest) => b == a.(tasks := a.tasks[t := a.tasks[t].(registers := a.tasks[t].registers.(rest := rest))])
    case SetPause(t, pause) => b == a.(tasks := a.tasks[t := a.tasks[t].(pause := pause)])
    case SetChannels(t, func, sides) => b == a.(tasks := a.tasks[t := a.tasks[t].(func := func, sides := sides)])
    case Start(t, start, now) => if t == a.current || a.tasks[t].enabled then b == a else Started(a, t, start, now, b)
    case Exit(t) => Exited(a, t, b)
  }

  ghost predicate Started(a: State, t: nat, start: Regs, now: bool, b: State)
    requires Sound(a) && Sound(b) && t < TOTAL_TASKS
  {
    && b.current == (if now then t else a.current) && b.tasks[t] == Task(true, Running, false, start, Outside, start, [], 0, [])
    && forall u | 0 <= u < TOTAL_TASKS && u != t :: SameButRegister(a.tasks[u], b.tasks[u])
  }

  /** The task is gone; if it was current, the next one runs. */
  ghost predicate Exited(a: State, t: nat, b: State)
    requires Sound(a) && Sound(b) && t < TOTAL_TASKS && a.current >= 0
  {
    var left := a.tasks[t := a.tasks[t].(enabled := false, routine := Outside)];
    if t != a.current then b == a.(tasks := left) else Yields(left, t, b)
  }

  /** A step of a run: beside what it does, only its own doing changes what a task will run with outside callbacks, and
      nothing else touches the registers that it runs with next, inside a callback or not. */
  ghost predicate Keeps(a: State, op: Op, b: State) {
    && Sound(a) && Sound(b) && Proper(op) && (a.current == -1 ==> op.Start? && op.now) && Does(a, op, b)
    && (forall t | 0 <= t < TOTAL_TASKS && !Touched(a, op, t) :: Frame(b, t) == Frame(a, t))
    && forall t | 0 <= t < TOTAL_TASKS ::
      if !Own(a, op, t) then Context(b, t) == Context(a, t)
      else (op.User? ==> Context(b, t) == op.after) && (op.Result? ==> Context(b, t) == Context(a, t).(rest := op.rest)) && (op.Start? ==> Context(b, t) == op.start)
  }

  ghost predicate IsRun(trace: seq<State>, ops: seq<Op>) {
    |trace| == |ops| + 1 && Sound(trace[0]) && forall k | 0 <= k < |ops| :: Keeps(trace[k], ops[k], trace[k + 1])
  }

  // ---------------------------------------------------------------- fairness

  function Ticks(ops: seq<Op>, i: nat, j: nat): (n: nat)
    requires i <= j <= |ops|
  {
    if i == j then 0 else Ticks(ops, i, j - 1) + (if ops[j - 1].Tick? then 1 else 0)
  }

  /** Somebody runs, from where `t` is not farther in turn than before. */
  ghost predicate Nears(a: State, b: State, t: nat)
    requires t < TOTAL_TASKS
  {
    && 0 <= a.current < TOTAL_TASKS && 0 <= b.current < TOTAL_TASKS
    && (b.current == t || Distance(b.current, t) <= Distance(a.current, t))
  }

  lemma TickNears(a: State, b: State, t: nat)
    requires Keeps(a, Tick, b) && t < TOTAL_TASKS && Resumable(a.tasks[t])
    ensures 0 <= a.current < TOTAL_TASKS && 0 <= b.current < TOTAL_TASKS
    ensures b.current == t || Distance(b.current, t) < Distance(a.current, t)
  {
    if b.current != t {
      Nearer(a.current, b.current, t);
    }
  }

  lemma {:induction false} Approaching(trace: seq<State>, ops: seq<Op>, t: nat, i: nat, j: nat)
    requires IsRun(trace, ops) && t < TOTAL_TASKS && i <= j <= |ops| && 0 <= trace[i].current < TOTAL_TASKS
    requires forall k | i <= k < j :: |trace[k].tasks| == TOTAL_TASKS && Resumable(trace[k].tasks[t])
    requires forall k | i <= k < j && !ops[k].Tick? :: Nears(trace[k], trace[k + 1], t)
    requires forall k | i < k <= j :: trace[k].current != t
    ensures 0 <= trace[j].current < TOTAL_TASKS && Distance(trace[j].current, t) + Ticks(ops, i, j) <= TOTAL_TASKS
    decreases j
  {
    hide Keeps, Sound;
    if i < j {
      Approaching(trace, ops, t, i, j - 1);
      assert Keeps(trace[j - 1], ops[j - 1], trace[j - 1 + 1]);
      if ops[j - 1].Tick? {
        TickNears(trace[j - 1], trace[j], t);
      } else {
        assert Nears(trace[j - 1], trace[j - 1 + 1], t);
      }
    }
  }

  /** Round robin over whole runs: a task that stays resumable runs within 16 ticks, whatever switches to particular tasks,
      callbacks and exits come between them, as long as these do not set it back in turn. */
  lemma NobodyStarves(trace: seq<State>, ops: seq<Op>, t: nat, i: nat, j: nat)
    requires IsRun(trace, ops) && t < TOTAL_TASKS && i <= j <= |ops| && 0 <= trace[i].current < TOTAL_TASKS
    requires forall k | i <= k < j :: |trace[k].tasks| == TOTAL_TASKS && Resumable(trace[k].tasks[t])
    requires forall k | i <= k < j && !ops[k].Tick? :: Nears(trace[k], trace[k + 1], t)
    requires Ticks(ops, i, j) >= TOTAL_TASKS
    ensures exists k | i < k <= j :: trace[k].current == t
  {
    if forall k | i < k <= j :: trace[k].current != t {
      Approaching(trace, ops, t, i, j);
    }
  }

  function Three(c: nat): (s: State) {
    var r := Regs(0, 0, []);
    State(seq(TOTAL_TASKS, k => Task(k < 3, Running, false, r, Outside, r, [], 0, [])), c, r)
  }

  /** Without that, a task can starve: when a switch takes the turn back before every tick, the third of three tasks is
      never chosen, in runs of any length. */
  lemma StarvingExample(n: nat) returns (trace: seq<State>, ops: seq<Op>)
    ensures IsRun(trace, ops) && |ops| == 2 * n && Ticks(ops, 0, |ops|) == n
    ensures forall k | 0 <= k < |trace| :: |trace[k].tasks| == TOTAL_TASKS && Resumable(trace[k].tasks[2]) && 0 <= trace[k].current < 2
  {
    trace, ops := [Three(0)], [];
    ThreeSteps();
    var m: nat := 0;
    while m < n
      invariant m <= n && |ops| == 2 * m && IsRun(trace, ops) && Ticks(ops, 0, |ops|) == m && trace[|ops|] == Three(0)
      invariant forall k | 0 <= k < |trace| :: trace[k] == Three(0) || trace[k] == Three(1)
    {
      hide Keeps, Three;
      TicksMore(ops, Tick);
      TicksMore(ops + [Tick], GoTo(0));
      ops, trace := ops + [Tick] + [GoTo(0)], trace + [Three(1)] + [Three(0)];
      m := m + 1;
    }
  }

  lemma ThreeSteps()
    ensures Sound(Three(0)) && Keeps(Three(0), Tick, Three(1)) && Keeps(Three(1), GoTo(0), Three(0))
  {
  }

  lemma {:induction false} TicksPrefix(ops: seq<Op>, op: Op, j: nat)
    requires j <= |ops|
    ensures Ticks(ops + [op], 0, j) == Ticks(ops, 0, j)
  {
    if j > 0 {
      TicksPrefix(ops, op, j - 1);
    }
  }

  lemma TicksMore(ops: seq<Op>, op: Op)
    ensures Ticks(ops + [op], 0, |ops| + 1) == Ticks(ops, 0, |ops|) + (if op.Tick? then 1 else 0)
  {
    TicksPrefix(ops, op, |ops|);
  }

  /** However switches and callbacks interleave: between two moments of a run with no user code of `t` outside callbacks
      between them, the task keeps its context; if it is in no callback at either, it resumes with the very registers
      it had. */
  lemma {:induction false} CallbacksAreTransparent(trace: seq<State>, ops: seq<Op>, t: nat, i: nat, j: nat)
    requires IsRun(trace, ops) && t < TOTAL_TASKS && i <= j <= |ops|
    requires forall k | i <= k < j :: Sound(trace[k]) && !Own(trace[k], ops[k], t)
    ensures Sound(trace[i]) && Sound(trace[j]) && Context(trace[j], t) == Context(trace[i], t)
    ensures trace[i].tasks[t].routine.Outside? && trace[j].tasks[t].routine.Outside? ==> Frame(trace[j], t) == Frame(trace[i], t)
    decreases j - i
  {
    if i < j {
      assert Keeps(trace[j - 1], ops[j - 1], trace[j - 1 + 1]);
      CallbacksAreTransparent(trace, ops, t, i, j - 1);
    } else if i > 0 {
      assert Keeps(trace[i - 1], ops[i - 1], trace[i - 1 + 1]);
    }
  }

  // ---------------------------------------------------------------- who is woken

  /** A call wakes its task: whether the event is entered, queued or refused, the task does not stay snoozed. */
  lemma CallWakes(a: State, t: nat, e: Event, ch: Channels, copied: bool, b: State)
    requires Keeps(a, Call(t, e, ch, copied), b) && a.tasks[t].enabled
    ensures b.tasks[t].pause != Snoozed
  {
    hide Advance, Formed, Enqueued, IsNext, Frame, Context, CallFrame;
    var w := Woken(a.tasks[t]);
    var ok :| Called(a, t, e, ch, copied, b, ok);
    if w.pause.Running? && w.routine.Outside? {
      assert CalledIdle(a.(tasks := a.tasks[t := w]), t, e, ch, copied, b, ok);
    }
  }

  /** A task that is in no callback, has nothing queued and is not held, and has room on its stack, is current and in
      the callback at once, even if it was snoozed: with the arguments and a return address, and for a message its flag
      word, pushed below its stack pointer, and with its registers kept aside. */
  lemma IdleTaskIsEntered(a: State, t: nat, e: Event, ch: Channels, b: State)
    requires Keeps(a, Call(t, e, ch, true), b)
    requires a.tasks[t].enabled && a.tasks[t].pause != Held && a.tasks[t].routine.Outside? && a.tasks[t].events == []
    ensures b.current == t
    ensures b.tasks[t] == a.tasks[t].(pause := Running, routine := Inside(e.kind), returnRegs := Frame(a, t), registers := b.tasks[t].registers)
    ensures b.regs.eip == e.addr && b.regs.rest == Frame(a, t).rest && 0 <= b.regs.useresp < TWO32
    ensures (Frame(a, t).useresp - b.regs.useresp - 4 * |e.args| - (if e.kind == Msg then 8 else 4)) % TWO32 == 0
  {
    hide Advance, Formed, Enqueued, IsNext;
    Pushed(Frame(a, t).useresp, FrameSize(e));
  }

  lemma Pushed(sp: int, n: int)
    ensures var r := (sp - n) % TWO32; 0 <= r < TWO32 && (sp - r - n) % TWO32 == 0
  {
    var r := (sp - n) % TWO32;
    assert sp - r - n == (sp - n) / TWO32 * TWO32;
  }

  /** One that cannot take the arguments is crashed and does not run any more. */
  lemma NoRoomCrashes(a: State, t: nat, e: Event, ch: Channels, b: State)
    requires Keeps(a, Call(t, e, ch, false), b)
    requires a.tasks[t].enabled && a.tasks[t].pause != Held && a.tasks[t].routine.Outside? && a.tasks[t].events == []
    ensures b.tasks[t] == a.tasks[t].(pause := Held, crashed := true, registers := b.tasks[t].registers) && b.current != t
  {
    hide Advance, Formed, Enqueued;
  }

  /** At the end of a callback a retry of owed notifications wakes the task. */
  lemma RetryWakes(a: State, ch: Channels, copied: bool, b: State, i: nat)
    requires Keeps(a, Return(ch, copied), b)
    requires var c := a.tasks[a.current]; c.routine.Inside? && i < |c.sides| && c.sides[i].pending
    ensures b.tasks[a.current].pause != Snoozed
  {
    var c := a.tasks[a.current].(routine := Outside);
    SomethingOwed(c.sides, i);
    SkippedWakes(c, ch);
    hide Advance, Formed, Enqueued, IsNext, Skipped, Frame, Context, Settled;
    assert Ended(a, ch, copied, b);
    forall x: Task, regs | Formed(x.events) && Settled(a, a.current, x, regs, b) && (Owed(x.sides) > 0 || x.pause != Snoozed)
      ensures b.tasks[a.current].pause != Snoozed
    {
      SettledWakes(a, a.current, x, regs, b);
    }
  }

  lemma SettledWakes(a: State, c: nat, x: Task, regs: Regs, b: State)
    requires Sound(a) && Sound(b) && c < TOTAL_TASKS && Formed(x.events) && Settled(a, c, x, regs, b)
    requires Owed(x.sides) > 0 || x.pause != Snoozed
    ensures b.tasks[c].pause != Snoozed
  {
    hide Formed, Renotified, IsNext;
    assert SameButRegister(Renotified(x), b.tasks[c]);
  }

  lemma {:induction false} SomethingOwed(sides: seq<Endpoint>, i: nat)
    requires i < |sides| && sides[i].pending
    ensures Owed(sides) > 0
  {
    if i > 0 {
      SomethingOwed(sides[1..], i - 1);
    }
  }

  /** While stale events leave, something stays owed or the task has been woken. */
  lemma {:induction false} SkippedWakes(t: Task, ch: Channels)
    requires Formed(t.events) && (Owed(t.sides) > 0 || t.pause != Snoozed)
    ensures Owed(Skipped(t, ch).sides) > 0 || Skipped(t, ch).pause != Snoozed
    ensures var s := Skipped(t, ch); s.events != [] ==> Advance(s).pause != Snoozed
    decreases |t.events| + Owed(t.sides)
  {
    if t.events != [] && Stale(t, t.events[0], ch) {
      SkippedWakes(Advance(t), ch);
    }
  }

  // ---------------------------------------------------------------- what the operations do

  function FrameSize(e: Event): (n: nat) { 4 * (|e.args| + (if e.kind == Msg then 2 else 1)) }

  function CallFrame(f: Regs, e: Event): Regs { f.(useresp := (f.useresp - FrameSize(e)) % TWO32, eip := e.addr) }

  function Crashed(t: Task): Task { t.(pause := Held, crashed := true) }

  /** From task `c` on, with `tasks` as they are now, the next one that can run is current, or none is. */
  ghost predicate Yields(tasks: seq<Task>, c: nat, b: State)
    requires |tasks| == TOTAL_TASKS && c < TOTAL_TASKS && b.current < TOTAL_TASKS
  {
    && SameButRegisters(tasks, b.tasks)
    && if b.current < 0 then b.current == -1 && forall t | 0 <= t < TOTAL_TASKS :: !Resumable(tasks[t])
       else IsNext(tasks, c, b.current)
  }

  /** Task `t`, otherwise `x`, is current and has entered `e`; the interrupted registers are kept. */
  ghost predicate Entered(a: State, b: State, t: nat, x: Task, e: Event)
    requires |a.tasks| == |b.tasks| == TOTAL_TASKS && t < TOTAL_TASKS
  {
    && b.current == t && b.regs == CallFrame(Frame(a, t), e)
    && SameButRegisters(a.tasks[t := x.(routine := Inside(e.kind), returnRegs := Frame(a, t))], b.tasks)
  }

  ghost predicate FirstEntered(a: State, t: nat, copied: bool, b: State, ok: bool)
    requires Sound(a) && Sound(b) && t < TOTAL_TASKS && a.tasks[t].events != []
  {
    var s := a.tasks[t];
    if !Resumable(s) then !ok && b == a
    else if !copied then !ok && b.current == t && SameButRegisters(a.tasks[t := Crashed(s)], b.tasks)
    else ok && Entered(a, b, t, Advance(s), s.events[0])
  }

  ghost predicate Ran(a: State, t: nat, ch: Channels, copied: bool, b: State, ok: bool)
    requires Sound(a) && Sound(b) && t < TOTAL_TASKS
  {
    var s := Skipped(a.tasks[t], ch);
    if a.tasks[t].routine.Inside? || a.tasks[t].crashed then !ok && b == a
    else if s.events == [] then !ok && b == a.(tasks := a.tasks[t := s])
    else FirstEntered(a.(tasks := a.tasks[t := s]), t, copied, b, ok)
  }

  ghost predicate CalledIdle(a: State, t: nat, e: Event, ch: Channels, copied: bool, b: State, ok: bool)
    requires Sound(a) && Sound(b) && t < TOTAL_TASKS && WellFormed(e)
  {
    var w := a.tasks[t];
    if w.events == [] then ok == copied && if ok then Entered(a, b, t, w, e) else Yields(a.tasks[t := Crashed(w)], t, b)
    else
      var q := Queued(w, e);
      var s := Skipped(q.0, ch);
      && ok == q.1
      && if w.crashed then Yields(a.tasks[t := q.0], t, b)
         else if s.events == [] then b.current == t && b.regs == Frame(a, t) && SameButRegisters(a.tasks[t := s], b.tasks)
         else if !copied then Yields(a.tasks[t := Crashed(s)], t, b)
         else Entered(a, b, t, Advance(s), s.events[0])
  }

  ghost predicate Called(a: State, t: nat, e: Event, ch: Channels, copied: bool, b: State, ok: bool)
    requires Sound(a) && Sound(b) && t < TOTAL_TASKS && WellFormed(e)
  {
    var w := Woken(a.tasks[t]);
    if !w.enabled then !ok && b == a
    else if !w.pause.Running? || w.routine.Inside? then ok == Queued(w, e).1 && b == a.(tasks := a.tasks[t := Queued(w, e).0])
    else CalledIdle(a.(tasks := a.tasks[t := w]), t, e, ch, copied, b, ok)
  }

  /** The current task enters its first event that is not stale; without one it goes on, and over one it crashes. */
  ghost predicate Delivered(a: State, ch: Channels, copied: bool, b: State)
    requires Sound(a) && Sound(b) && a.current >= 0
  {
    var c := a.current;
    var s := Skipped(a.tasks[c], ch);
    if a.tasks[c].crashed then Yields(a.tasks, c, b)
    else if a.tasks[c].routine.Inside? then b == a
    else if s.events == [] || !Resumable(s) then b == a.(tasks := a.tasks[c := s])
    else if !copied then Yields(a.tasks[c := Crashed(s)], c, b)
    else Entered(a, b, c, Advance(s), s.events[0])
  }

  ghost predicate Ended(a: State, ch: Channels, copied: bool, b: State)
    requires Sound(a) && Sound(b) && a.current >= 0
  {
    var c := a.current;
    var x := a.tasks[c].(routine := Outside);
    var s := Skipped(x, ch);
    if a.tasks[c].routine.Outside? then b == a
    else if x.crashed then Settled(a, c, x, a.tasks[c].returnRegs, b)
    else if s.events == [] || !Resumable(s) then Settled(a, c, s, a.tasks[c].returnRegs, b)
    else if !copied then Settled(a, c, Crashed(s), a.tasks[c].returnRegs, b)
    else Settled(a, c, Advance(s).(routine := Inside(s.events[0].kind), returnRegs := a.tasks[c].returnRegs),
                 CallFrame(a.tasks[c].returnRegs, s.events[0]), b)
  }

  /** With dropped notifications retried, task `c` goes on with `regs` if it can and yields otherwise. */
  ghost predicate Settled(a: State, c: nat, x: Task, regs: Regs, b: State)
    requires Sound(a) && Sound(b) && c < TOTAL_TASKS && Formed(x.events)
  {
    var y := Renotified(x);
    if y.pause.Running? then b.current == c && b.regs == regs && SameButRegisters(a.tasks[c := y], b.tasks)
    else Yields(a.tasks[c := y], c, b)
  }

  ghost predicate SameButRegister(a: Task, b: Task) {
    b == a.(registers := b.registers)
  }

  ghost predicate SameButRegisters(a: seq<Task>, b: seq<Task>) {
    |a| == |b| && forall t | 0 <= t < |a| :: SameButRegister(a[t], b[t])
  }

  lemma YieldsElsewhere(was: seq<Task>, tasks: seq<Task>, c: nat, b: State)
    requires |was| == |tasks| == TOTAL_TASKS && SameButRegisters(was, tasks) && c < TOTAL_TASKS && b.current < TOTAL_TASKS
    requires Yields(tasks, c, b)
    ensures Yields(was, c, b)
  {
    assert forall t | 0 <= t < TOTAL_TASKS :: Resumable(was[t]) <==> Resumable(tasks[t]);
    forall t | 0 <= t < TOTAL_TASKS ensures SameButRegister(was[t], b.tasks[t]) {
      assert SameButRegister(was[t], tasks[t]) && SameButRegister(tasks[t], b.tasks[t]);
    }
  }

  lemma TurnNext(c: nat, d: nat)
    requires c < TOTAL_TASKS && d < TOTAL_TASKS
    ensures (Turn(c, d) + 1) % TOTAL_TASKS == Turn(c, d + 1) && Distance(c, Turn(c, d + 1)) == d + 1
    ensures forall t | 0 <= t < TOTAL_TASKS && Distance(c, t) == d + 1 :: t == Turn(c, d + 1)
    ensures Turn(c, d + 1) == c <==> d + 1 == TOTAL_TASKS
  {
    assert Turn(c, d + 1) == if c + d + 1 < TOTAL_TASKS then c + d + 1 else c + d + 1 - TOTAL_TASKS;
    assert Turn(c, d) == if c + d < TOTAL_TASKS then c + d else c + d - TOTAL_TASKS;
  }
}
