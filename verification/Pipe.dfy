/**
 * Pipes (`fs.c`, with the waiting and waking done in `api.c`): a 4096-byte ring filled and drained in contiguous
 * chunks, one reader and one writer, either of which may be parked.
 */
module Pipe {
  import opened Machine
  import opened Ring

  const SIZE: nat := 4096
  const FS_ERROR := -1
  const FS_EOF := 0
  const FS_BLOCKING := -2
  const FS_WRITE_WAIT := -3

  function Min(a: int, b: int): (m: int)
    ensures m <= a && m <= b && (m == a || m == b)
  {
    if a <= b then a else b
  }

  /** A contiguous chunk is the front of the window, and dropping it moves the window on. */
  lemma WindowChunk<T>(buf: seq<T>, h: nat, n: nat, c: nat)
    requires h < |buf| && c <= n <= |buf| && h + c <= |buf|
    ensures Window(buf, h, n) == buf[h..h + c] + Window(buf, Slot(h, c, |buf|), n - c)
  {
  }

  /** A chunk laid down just behind the window is appended to it. */
  lemma WindowFill<T>(buf: seq<T>, after: seq<T>, h: nat, n: nat, d: seq<T>)
    requires h < |buf| == |after| && n + |d| <= |buf| && Slot(h, n, |buf|) + |d| <= |buf|
    requires var w := Slot(h, n, |buf|);
      forall k | 0 <= k < |buf| :: after[k] == if w <= k < w + |d| then d[k - w] else buf[k]
    ensures Window(after, h, n + |d|) == Window(buf, h, n) + d
  {
  }

  // ---------------------------------------------------------------- a pipe, as values

  /** `readWaiting`: a reader is registered; `readParked`: and its thread is paused.  `writeData` are the bytes of a writer
      that is paused. */
  datatype State = State(
    buffered: seq<Byte>, writers: nat, readWaiting: bool, readParked: bool, readSize: nat, writeWaiting: bool, writeData: seq<Byte>)

  /** Nobody waits without reason: a registered reader faces an empty pipe, a parked writer a full one. */
  ghost predicate Sound(s: State) {
    && |s.buffered| <= SIZE && (s.readWaiting ==> s.buffered == []) && (s.writeWaiting ==> |s.buffered| == SIZE)
    && (s.readParked ==> s.readWaiting) && (!s.writeWaiting ==> s.writeData == [])
  }

  /** The bytes a read returns: the oldest, as many as asked for, buffered and mapped. */
  function ReadData(s: State, count: int, mapped: nat): (data: seq<Byte>) {
    if count <= 0 then [] else s.buffered[..Min(count, Min(|s.buffered|, mapped))]
  }

  function ReadCode(s: State, count: int, mapped: nat): (r: int) {
    if count == 0 then 0
    else if count < 0 then FS_ERROR
    else if ReadData(s, count, mapped) != [] then |ReadData(s, count, mapped)|
    else if s.buffered != [] then FS_ERROR
    else if s.writers == 0 then FS_EOF
    else FS_BLOCKING
  }

  /** What a parked writer gets in when a read makes room. */
  function Woken(s: State, room: nat): (data: seq<Byte>) {
    if s.writeWaiting then s.writeData[..Min(|s.writeData|, room)] else []
  }

  /** A read that gets nothing from an empty pipe with a writer registers the reader, who waits if its buffer is mapped. */
  function AfterRead(s: State, count: int, mapped: nat): (r: State)
    requires |s.buffered| <= SIZE
  {
    var n := |ReadData(s, count, mapped)|;
    if n > 0 then
      var rest := s.buffered[n..];
      s.(buffered := rest + Woken(s, SIZE - |rest|), writeWaiting := false, writeData := [])
    else if ReadCode(s, count, mapped) == FS_BLOCKING then
      s.(readWaiting := true, readParked := mapped > 0, readSize := if mapped > 0 then Min(mapped, Min(count, SIZE)) else s.readSize)
    else s
  }

  /** What of `data` fits. */
  function Fitting(s: State, data: seq<Byte>): (d: seq<Byte>)
    requires |s.buffered| <= SIZE
  {
    data[..Min(|data|, SIZE - |s.buffered|)]
  }

  /** What a registered reader is given when bytes arrive. */
  function Given(s: State, data: seq<Byte>): (d: seq<Byte>)
    requires |s.buffered| <= SIZE
  {
    var all := s.buffered + Fitting(s, data);
    if s.readWaiting && Fitting(s, data) != [] then all[..Min(s.readSize, |all|)] else []
  }

  function AfterWrite(s: State, data: seq<Byte>, kernel: bool): (r: State)
    requires |s.buffered| <= SIZE
  {
    if |s.buffered| == SIZE then (if kernel then s else s.(writeWaiting := true, writeData := data))
    else
      var woken := s.readWaiting && Fitting(s, data) != [];
      s.(buffered := (s.buffered + Fitting(s, data))[|Given(s, data)|..],
         readWaiting := s.readWaiting && !woken, readParked := s.readParked && !woken)
  }

  function WriteCode(s: State, data: seq<Byte>, kernel: bool): (r: int)
    requires |s.buffered| <= SIZE
  {
    if |s.buffered| < SIZE then |Fitting(s, data)| else if kernel then FS_ERROR else FS_WRITE_WAIT
  }

  /** `fs_close_locked` on one end: whoever waits is let go. */
  function AfterClose(s: State, writeEnd: bool): (r: State)
    requires writeEnd ==> s.writers > 0
  {
    s.(writers := s.writers - (if writeEnd then 1 else 0),
       readWaiting := false, readParked := false, writeWaiting := false, writeData := [])
  }

  // ---------------------------------------------------------------- runs

  datatype Op = Read(count: int, mapped: nat) | Write(data: seq<Byte>, kernel: bool) | Close(writeEnd: bool)

  /** The result, the bytes handed to the reader, and the bytes taken from the writer. */
  datatype Answer = Answer(code: int, got: seq<Byte>, taken: seq<Byte>)

  /** Who waits makes no calls, and an end is closed once. */
  predicate Possible(s: State, op: Op) {
    match op
    case Read(_, _) => !s.readParked
    case Write(_, _) => !s.writeWaiting
    case Close(writeEnd) => writeEnd ==> s.writers > 0
  }

  /** What an operation does, and what it answers. */
  ghost predicate Does(s: State, op: Op, r: State, a: Answer) {
    Sound(s) &&
    if !Possible(s, op) then r == s && a == Answer(0, [], [])
    else match op
      case Read(count, mapped) =>
        && r == AfterRead(s, count, mapped)
        && a == Answer(ReadCode(s, count, mapped), ReadData(s, count, mapped),
                       var n := |ReadData(s, count, mapped)|; if n > 0 then Woken(s, SIZE - (|s.buffered| - n)) else [])
      case Write(data, kernel) =>
        && r == AfterWrite(s, data, kernel)
        && a == Answer(WriteCode(s, data, kernel), Given(s, data), Fitting(s, data))
      case Close(writeEnd) => r == AfterClose(s, writeEnd) && a == Answer(0, [], [])
  }

  ghost predicate IsRun(trace: seq<State>, ops: seq<Op>, answers: seq<Answer>) {
    && |trace| == |ops| + 1 && |answers| == |ops| && Sound(trace[0])
    && forall k | 0 <= k < |ops| :: Does(trace[k], ops[k], trace[k + 1], answers[k])
  }

  lemma StepIsSound(s: State, op: Op, r: State, a: Answer)
    requires Does(s, op, r, a)
    ensures Sound(r)
  {
    match op
    case Read(count, mapped) =>
      if Possible(s, op) && ReadCode(s, count, mapped) == FS_BLOCKING {
        assert s.buffered == [];
      }
    case Write(data, kernel) =>
      if Possible(s, op) && s.readWaiting && Fitting(s, data) == [] {
        assert s.buffered + [] == [];
      }
    case Close(_) =>
  }

  /** In every state of every run a registered reader faces an empty pipe and a parked writer a full one, so reader and
      writer never both wait. */
  lemma {:induction false} RunIsSound(trace: seq<State>, ops: seq<Op>, answers: seq<Answer>, k: nat)
    requires IsRun(trace, ops, answers) && k <= |ops|
    ensures Sound(trace[k]) && !(trace[k].readWaiting && trace[k].writeWaiting)
  {
    hide Does;
    if k > 0 {
      assert Does(trace[k - 1], ops[k - 1], trace[k - 1 + 1], answers[k - 1]);
      StepIsSound(trace[k - 1], ops[k - 1], trace[k], answers[k - 1]);
    }
  }

  /** The bytes handed to readers between two moments of a run. */
  function Got(answers: seq<Answer>, i: nat, j: nat): (d: seq<Byte>)
    requires i <= j <= |answers|
  {
    if i == j then [] else Got(answers, i, j - 1) + answers[j - 1].got
  }

  /** The bytes taken from writers between two moments of a run. */
  function Put(answers: seq<Answer>, i: nat, j: nat): (d: seq<Byte>)
    requires i <= j <= |answers|
  {
    if i == j then [] else Put(answers, i, j - 1) + answers[j - 1].taken
  }

  /** Over any stretch of any run, what was buffered and what was taken from writers since is what was handed to readers
      and what is buffered, in this order. */
  lemma {:induction false} Lossless(trace: seq<State>, ops: seq<Op>, answers: seq<Answer>, i: nat, j: nat)
    requires IsRun(trace, ops, answers) && i <= j <= |ops|
    ensures trace[i].buffered + Put(answers, i, j) == Got(answers, i, j) + trace[j].buffered
    decreases j
  {
    hide Does, Sound;
    if i < j {
      Lossless(trace, ops, answers, i, j - 1);
      assert Does(trace[j - 1], ops[j - 1], trace[j - 1 + 1], answers[j - 1]);
      OneStep(trace[j - 1], ops[j - 1], trace[j], answers[j - 1]);
      Accounted(trace[i].buffered, Put(answers, i, j - 1), Got(answers, i, j - 1), trace[j - 1].buffered,
                answers[j - 1].taken, answers[j - 1].got, trace[j].buffered);
    }
  }

  lemma OneStep(s: State, op: Op, r: State, a: Answer)
    requires Does(s, op, r, a)
    ensures s.buffered + a.taken == a.got + r.buffered
  {
    match op
    case Read(count, mapped) =>
      var n := |ReadData(s, count, mapped)|;
      if Possible(s, op) && n > 0 {
        assert s.buffered == s.buffered[..n] + s.buffered[n..];
      }
    case Write(data, kernel) =>
      if Possible(s, op) && |s.buffered| < SIZE {
        var all := s.buffered + Fitting(s, data);
        assert all == all[..|Given(s, data)|] + all[|Given(s, data)|..];
      }
    case Close(_) =>
  }

  lemma Accounted(had: seq<Byte>, put: seq<Byte>, got: seq<Byte>, mid: seq<Byte>, taken: seq<Byte>, given: seq<Byte>, now: seq<Byte>)
    requires had + put == got + mid && mid + taken == given + now
    ensures had + (put + taken) == (got + given) + now
  {
    assert had + (put + taken) == (had + put) + taken == got + (mid + taken);
  }

  // ---------------------------------------------------------------- fs.c

  class Pipe {
    const buf: array<Byte>
    var readPos: nat
    var writePos: nat
    var size: nat
    var writers: nat
    var readWaiting: bool
    var readParked: bool
    var readSize: nat
    var writeWaiting: bool
    var writeData: seq<Byte>

    ghost predicate Ringed()
      reads this, buf
    {
      buf.Length == SIZE && readPos < SIZE && size <= SIZE && writePos == Slot(readPos, size, SIZE)
    }

    ghost function Buffered(): (s: seq<Byte>)
      requires Ringed()
      reads this, buf
      ensures |s| == size
    {
      Window(buf[..], readPos, size)
    }

    ghost predicate Valid()
      reads this, buf
    {
      Ringed() && Sound(View())
    }

    ghost function View(): State
      requires Ringed()
      reads this, buf
    {
      State(Buffered(), writers, readWaiting, readParked, readSize, writeWaiting, writeData)
    }

    constructor ()
      ensures Valid() && fresh(buf) && View() == State([], 1, false, false, 0, false, [])
    {
      buf := new Byte[SIZE](_ => 0);
      readPos, writePos, size, writers := 0, 0, 0, 1;
      readWaiting, readParked, writeWaiting, readSize, writeData := false, false, false, 0, [];
    }

    /** `fs_pipe_drain` into a buffer of which `mapped` bytes can be written. */
    method Drain(max: nat, mapped: nat) returns (data: seq<Byte>)
      requires Ringed()
      modifies this`readPos, this`size
      ensures Ringed() && |data| == Min(max, Min(old(size), mapped)) && old(Buffered()) == data + Buffered()
    {
      hide Window, Slot;
      data := [];
      ghost var was := Buffered();
      var fault := false;
      while |data| < max && size > 0 && !fault
        invariant Ringed() && was == data + Buffered() && writePos == old(writePos)
        invariant |data| <= max && |data| <= mapped && (fault ==> |data| == mapped)
        decreases size, !fault
      {
        var run := SIZE - readPos;
        var chunk := Min(max - |data|, Min(run, size));
        var written := if |data| >= mapped then -1 else Min(chunk, mapped - |data|);
        if written < 0 {
          fault := true;
        } else {
          WindowChunk(buf[..], readPos, size, written);
          SlotAdd(readPos, written, size - written, SIZE);
          var piece := buf[readPos..readPos + written];
          assert piece == buf[..][readPos..readPos + written];
          readPos := (readPos + written) % SIZE;
          size := size - written;
          assert was == (data + piece) + Buffered();
          data := data + piece;
          fault := written < chunk;
        }
      }
    }

    /** `fs_pipe_fill` */
    method Fill(data: seq<Byte>) returns (n: nat)
      requires Ringed()
      modifies this`writePos, this`size, buf
      ensures Ringed() && n == Min(|data|, SIZE - old(size)) && Buffered() == old(Buffered()) + data[..n]
    {
      hide Window, Slot;
      n := 0;
      ghost var was := Buffered();
      while n < |data| && size < SIZE
        invariant Ringed() && n <= |data| && size == old(size) + n
        invariant Buffered() == was + data[..n]
        decreases |data| - n
      {
        var run := SIZE - writePos;
        var space := SIZE - size;
        var chunk: nat := Min(|data| - n, Min(run, space));
        assert data[..n + chunk] == data[..n] + data[n..n + chunk];
        FillChunk(data[n..n + chunk]);
        n := n + chunk;
      }
    }

    /** One turn of that loop: a chunk that does not wrap. */
    method FillChunk(piece: seq<Byte>)
      requires Ringed() && writePos + |piece| <= SIZE && size + |piece| <= SIZE
      modifies this`writePos, this`size, buf
      ensures Ringed() && Buffered() == old(Buffered()) + piece
    {
      hide Window, Slot;
      ghost var before := buf[..];
      assert writePos == Slot(readPos, size, |before|);
      Lay(piece);
      WindowFill(before, buf[..], readPos, size, piece);
      SlotAdd(readPos, size, |piece|, SIZE);
      writePos := (writePos + |piece|) % SIZE;
      size := size + |piece|;
    }

    /** The copy out of the writer's memory. */
    method Lay(piece: seq<Byte>)
      requires buf.Length == SIZE && writePos + |piece| <= SIZE
      modifies buf
      ensures forall k | 0 <= k < SIZE :: buf[..][k] == if writePos <= k < writePos + |piece| then piece[k - writePos] else old(buf[..])[k]
    {
      var i: nat := 0;
      while i < |piece|
        invariant i <= |piece|
        invariant forall k | 0 <= k < SIZE :: buf[k] == if writePos <= k < writePos + i then piece[k - writePos] else old(buf[k])
      {
        buf[writePos + i] := piece[i];
        i := i + 1;
      }
    }

    /** `fs_pipe_wake_writer`: the parked writer's bytes go in, as many as fit. */
    method WakeWriter() returns (n: nat)
      requires Ringed() && writeWaiting
      modifies this, buf
      ensures Ringed() && n == Min(|old(writeData)|, SIZE - old(size))
      ensures View() == old(View()).(buffered := old(Buffered()) + old(writeData)[..n], writeWaiting := false, writeData := [])
    {
      hide Window, Slot;
      n := Fill(writeData);
      writeWaiting, writeData := false, [];
    }

    /** `fs_pipe_wake_reader`: the registered reader gets what is there, up to the size it asked for. */
    method WakeReader() returns (data: seq<Byte>)
      requires Ringed() && readWaiting
      modifies this
      ensures Ringed() && old(Buffered()) == data + Buffered() && |data| == Min(old(readSize), old(size))
      ensures View() == old(View()).(buffered := Buffered(), readWaiting := false, readParked := false)
    {
      hide Window, Slot;
      data := Drain(readSize, readSize);
      readWaiting, readParked := false, false;
    }

    /** `read` on a pipe, from `api_read` on: the oldest bytes; at the end of input `FS_EOF`; on an empty pipe the reader
        waits.  Asking for nothing returns at once.  A buffer that is not mapped at all is an error beside waiting bytes;
        on an empty pipe it registers a reader that does not wait. */
    method Read(count: int, mapped: nat) returns (r: int, data: seq<Byte>, taken: seq<Byte>)
      requires Valid() && !readParked
      modifies this, buf
      ensures Valid() && Does(old(View()), Op.Read(count, mapped), View(), Answer(r, data, taken))
    {
      hide Window, Slot;
      ghost var s := View();
      data, taken := [], [];
      if count == 0 {
        r := 0;
      } else if count < 0 {
        r := FS_ERROR;
      } else {
        data := Drain(count, mapped);
        assert data == s.buffered[..|data|] && Buffered() == s.buffered[|data|..];
        if |data| > 0 {
          r := |data|;
          if writeWaiting {
            var bytes := writeData;
            var n := WakeWriter();
            taken := bytes[..n];
          } else {
            assert Buffered() + [] == Buffered();
          }
        } else if size > 0 {
          r := FS_ERROR;
        } else if writers == 0 {
          r := FS_EOF;
        } else {
          readWaiting, readParked := true, false;
          r := FS_BLOCKING;
          if mapped > 0 {
            readSize, readParked := Min(mapped, Min(count, SIZE)), true;
          }
        }
      }
      StepIsSound(s, Op.Read(count, mapped), View(), Answer(r, data, taken));
    }

    /** `write` to a pipe: as many bytes as there is room for, or the writer waits when there is none; the kernel never
        waits. */
    method Write(data: seq<Byte>, kernel: bool) returns (r: int, given: seq<Byte>)
      requires Valid() && !writeWaiting
      modifies this, buf
      ensures Valid() && Does(old(View()), Op.Write(data, kernel), View(), Answer(r, given, Fitting(old(View()), data)))
    {
      hide Window, Slot;
      ghost var s := View();
      given := [];
      if size == SIZE {
        if kernel {
          r := FS_ERROR;
        } else {
          writeWaiting, writeData := true, data;
          r := FS_WRITE_WAIT;
        }
      } else {
        r := Fill(data);
        assert Buffered() == s.buffered + Fitting(s, data);
        if r > 0 && readWaiting {
          given := WakeReader();
          assert given == (s.buffered + Fitting(s, data))[..|given|] && Buffered() == (s.buffered + Fitting(s, data))[|given|..];
        }
      }
      StepIsSound(s, Op.Write(data, kernel), View(), Answer(r, given, Fitting(s, data)));
    }

    /** `fs_close_locked` on one end */
    method Close(writeEnd: bool)
      requires Valid() && (writeEnd ==> writers > 0)
      modifies this
      ensures Valid() && View() == AfterClose(old(View()), writeEnd)
    {
      hide Window, Slot;
      if writeEnd {
        writers := writers - 1;
      }
      readWaiting, readParked, writeWaiting, writeData := false, false, false, [];
    }

    /** One operation of a run. */
    method Perform(op: Op) returns (a: Answer)
      requires Valid()
      modifies this, buf
      ensures Valid() && Does(old(View()), op, View(), a)
    {
      hide Window, Slot, AfterRead, AfterWrite, AfterClose, ReadData, ReadCode, Given, Fitting, Woken;
      a := Answer(0, [], []);
      match op
      case Read(count, mapped) =>
        if !readParked {
          var r, data, taken := Read(count, mapped);
          a := Answer(r, data, taken);
        }
      case Write(data, kernel) =>
        if !writeWaiting {
          var fits := data[..Min(|data|, SIZE - size)];
          FittingIs(View(), data);
          var r, given := Write(data, kernel);
          a := Answer(r, given, fits);
        }
      case Close(writeEnd) =>
        if !writeEnd || writers > 0 {
          Close(writeEnd);
        }
    }

    /** Any sequence of reads, writes and closes: `trace` are the states passed through, `answers` what they returned. */
    method Run(ops: seq<Op>) returns (answers: seq<Answer>, ghost trace: seq<State>)
      requires Valid()
      modifies this, buf
      ensures Valid() && IsRun(trace, ops, answers) && trace[0] == old(View()) && trace[|ops|] == View()
    {
      hide Window, Slot, Does, Sound;
      answers, trace := [], [View()];
      while |answers| < |ops|
        invariant |answers| <= |ops| && Valid() && IsRun(trace, ops[..|answers|], answers)
        invariant trace[0] == old(View()) && trace[|answers|] == View()
        decreases |ops| - |answers|
      {
        var a := Perform(ops[|answers|]);
        assert ops[..|answers| + 1] == ops[..|answers|] + [ops[|answers|]];
        answers, trace := answers + [a], trace + [View()];
      }
      assert ops[..|ops|] == ops;
    }
  }

  lemma FittingIs(s: State, data: seq<Byte>)
    requires |s.buffered| <= SIZE
    ensures Fitting(s, data) == data[..Min(|data|, SIZE - |s.buffered|)]
  {
  }

  /** A parked reader means an empty pipe, a parked writer a full one, so they are never both parked. */
  lemma NeverBothParked(p: Pipe)
    requires p.Valid()
    ensures p.readParked ==> p.Buffered() == []
    ensures p.writeWaiting ==> |p.Buffered()| == SIZE
    ensures !(p.readParked && p.writeWaiting)
  {
  }
}
