/**
  `WindowsPty`: the PTY master is driven by a worker thread that does the
  blocking reads and writes, and talks to the async side through two bounded
  channels: output chunks (or a read error) come in on one, input goes out on
  the other. An empty chunk is the worker's end-of-file marker. The async side
  keeps the chunk it is part-way through (`read_buffer`, `read_pos`).
*/
module WindowsPtyModel {
  import opened Utf8
  import opened PtyTypes
  import opened ProcessCommand

  /** The capacity `new` gives both channels. */
  const ChannelCapacity: nat := 100
  /** The worker's read buffer size. */
  const WorkerBufferSize: nat := 4096

  /** What the worker sends on the output channel. */
  datatype ChannelItem = Chunk(data: Bytes) | Failed(error: IoError)

  /** The bytes a sequence of channel items carries, in order (errors carry none). */
  function Flatten(items: seq<ChannelItem>): Bytes {
    if items == [] then []
    else (if items[0].Chunk? then items[0].data else []) + Flatten(items[1..])
  }

  /** The bytes of two runs of items are the bytes of each, in order. */
  lemma {:induction false} FlattenAppend(a: seq<ChannelItem>, b: seq<ChannelItem>)
    ensures Flatten(a + b) == Flatten(a) + Flatten(b)
  {
    if a == [] {
      assert a + b == b;
    } else {
      assert (a + b)[0] == a[0] && (a + b)[1..] == a[1..] + b;
      FlattenAppend(a[1..], b);
    }
  }

  /** The output channel: queued items, and whether the worker has dropped its sender. */
  class OutputChannel {
    var items: seq<ChannelItem>
    var senderGone: bool

    constructor ()
      ensures items == [] && !senderGone
    {
      items := [];
      senderGone := false;
    }
  }

  /** The input channel: queued writes, and whether the worker has dropped its receiver. */
  class InputChannel {
    var queue: seq<Bytes>
    var receiverGone: bool
    const capacity: nat

    constructor (capacity: nat)
      ensures queue == [] && !receiverGone && this.capacity == capacity
    {
      queue := [];
      receiverGone := false;
      this.capacity := capacity;
    }
  }

  /** `pty_io_worker`: the thread that owns the master. */
  class Worker {
    const output: OutputChannel
    const input: InputChannel
    var running: bool
    /** Everything written to the master, write by write. */
    var masterInput: seq<Bytes>

    constructor (output: OutputChannel, input: InputChannel)
      ensures this.output == output && this.input == input
      ensures running && masterInput == []
    {
      this.output := output;
      this.input := input;
      running := true;
      masterInput := [];
    }

    /**
      One turn of the worker loop, given what the master's read returned:
      data is sent on as a chunk (at most 4096 bytes); end of file sends the
      empty chunk and stops; WouldBlock sends nothing; any other error is sent
      and stops. A turn that goes on then writes the oldest queued input, if
      any, to the master. On stopping, the worker drops both channel ends.
    */
    method Step(read: Result<Bytes, IoError>)
      requires running
      modifies this, output, input
      ensures read.Ok? ==>
        var got := read.value[..Min(|read.value|, WorkerBufferSize)];
        output.items == old(output.items) + [Chunk(got)] && running == (got != [])
      ensures read.Err? && read.error.kind == WouldBlock ==> output.items == old(output.items) && running
      ensures Flatten(output.items) == Flatten(old(output.items)) + (if read.Ok? then read.value[..Min(|read.value|, WorkerBufferSize)] else [])
      ensures read.Err? && read.error.kind != WouldBlock ==>
        output.items == old(output.items) + [Failed(read.error)] && !running
      ensures running ==>
        output.senderGone == old(output.senderGone) && input.receiverGone == old(input.receiverGone) &&
        (if old(input.queue) == [] then input.queue == [] && masterInput == old(masterInput)
         else input.queue == old(input.queue)[1..] && masterInput == old(masterInput) + [old(input.queue)[0]])
      ensures !running ==>
        output.senderGone && input.receiverGone && input.queue == old(input.queue) && masterInput == old(masterInput)
    {
      match read {
        case Ok(available) =>
          var got := available[..Min(|available|, WorkerBufferSize)];
          FlattenAppend(output.items, [Chunk(got)]);
          output.items := output.items + [Chunk(got)];
          if got == [] {
            Stop();
            return;
          }
        case Err(e) =>
          if e.kind != WouldBlock {
            FlattenAppend(output.items, [Failed(e)]);
            output.items := output.items + [Failed(e)];
            Stop();
            return;
          }
      }
      if input.queue != [] {
        masterInput := masterInput + [input.queue[0]];
        input.queue := input.queue[1..];
      }
    }

    /** Leaving the loop drops the worker's sender and receiver. */
    method Stop()
      modifies this, output, input
      ensures !running && output.senderGone && input.receiverGone
      ensures output.items == old(output.items) && input.queue == old(input.queue)
      ensures masterInput == old(masterInput)
    {
      running := false;
      output.senderGone := true;
      input.receiverGone := true;
    }
  }

  /**
    What one `poll_read` does, on values: the bytes delivered into a buffer with
    `room` bytes free, the staged bytes and channel items left afterwards, and
    whether the child is now known to have exited.
  */
  datatype ReadStep = ReadStep(poll: Poll<Result<(), IoError>>, data: Bytes, staged: Bytes,
                               items: seq<ChannelItem>, exited: bool)

  /**
    `poll_read`'s policy: the staged chunk is served first; with none, the next
    channel item decides: a chunk is staged and served, the empty chunk or a
    closed channel is end of file, an error is returned, and an empty open
    channel is Pending.
  */
  function WindowsRead(staged: Bytes, items: seq<ChannelItem>, senderGone: bool, room: nat): (o: ReadStep)
    ensures |o.data| <= room
    ensures o.poll == Pending <==> staged == [] && items == [] && !senderGone
    ensures o.exited ==> o.poll == Ready(Ok(())) && o.data == [] && o.staged == []
  {
    if staged != [] then
      var n := Min(|staged|, room);
      ReadStep(Ready(Ok(())), staged[..n], staged[n..], items, false)
    else if items == [] then
      if senderGone then ReadStep(Ready(Ok(())), [], [], [], true)
      else ReadStep(Pending, [], [], [], false)
    else match items[0]
      case Failed(e) => ReadStep(Ready(Err(e)), [], [], items[1..], false)
      case Chunk(data) =>
        if data == [] then ReadStep(Ready(Ok(())), [], [], items[1..], true)
        else
          var n := Min(|data|, room);
          ReadStep(Ready(Ok(())), data[..n], data[n..], items[1..], false)
  }

  class WindowsPty {
    const readRx: OutputChannel
    const writeTx: InputChannel
    var readBuffer: Bytes
    var readPos: nat
    var childExited: bool
    /** The command the child was spawned with. */
    const spawned: CommandSpec

    /** The chunk in progress is either empty with position 0, or not yet used up. */
    predicate Valid()
      reads this, writeTx
    {
      (readPos < |readBuffer| || (readBuffer == [] && readPos == 0)) &&
      writeTx.capacity == ChannelCapacity && |writeTx.queue| <= writeTx.capacity
    }

    /** The bytes of the chunk in progress not yet handed out. */
    function Staged(): Bytes
      reads this
    {
      if readPos <= |readBuffer| then readBuffer[readPos..] else []
    }

    /** The output still to come out of `poll_read`: the staged bytes, then the queued chunks. */
    function Unread(): Bytes
      reads this, readRx
    {
      Staged() + Flatten(readRx.items)
    }

    constructor (readRx: OutputChannel, writeTx: InputChannel, cmd: CommandSpec)
      requires writeTx.capacity == ChannelCapacity && writeTx.queue == []
      ensures Valid() && !childExited && Staged() == []
      ensures this.readRx == readRx && this.writeTx == writeTx && spawned == cmd
    {
      this.readRx := readRx;
      this.writeTx := writeTx;
      readBuffer := [];
      readPos := 0;
      childExited := false;
      spawned := cmd;
    }

    /** `is_alive`. */
    function IsAlive(): bool
      reads this
    {
      !childExited
    }

    /** `poll_read`, as `WindowsRead` describes it on the state before the call. */
    method PollRead(buf: ReadBuf) returns (p: Poll<Result<(), IoError>>)
      requires Valid() && buf.Valid()
      modifies this, readRx, buf, buf.storage
      ensures Valid() && buf.Valid()
      ensures readRx.senderGone == old(readRx.senderGone)
      ensures var o := WindowsRead(old(Staged()), old(readRx.items), old(readRx.senderGone), old(buf.Remaining()));
        p == o.poll && buf.Filled() == old(buf.Filled()) + o.data && Staged() == o.staged &&
        readRx.items == o.items && childExited == (old(childExited) || o.exited)
    {
      if readPos < |readBuffer| {
        p := ServeStaged(buf);
      } else {
        p := PollChannel(buf);
      }
    }

    /** `poll_read` with nothing staged: the next channel item, or Pending / end of file when there is none. */
    method PollChannel(buf: ReadBuf) returns (p: Poll<Result<(), IoError>>)
      requires Valid() && buf.Valid() && Staged() == []
      modifies this, readRx, buf, buf.storage
      ensures Valid() && buf.Valid()
      ensures readRx.senderGone == old(readRx.senderGone)
      ensures var o := WindowsRead([], old(readRx.items), old(readRx.senderGone), old(buf.Remaining()));
        p == o.poll && buf.Filled() == old(buf.Filled()) + o.data && Staged() == o.staged &&
        readRx.items == o.items && childExited == (old(childExited) || o.exited)
    {
      if readRx.items == [] {
        if readRx.senderGone {
          childExited := true;
          return Ready(Ok(()));
        }
        return Pending;
      }
      var item := readRx.items[0];
      readRx.items := readRx.items[1..];
      match item {
        case Failed(e) =>
          p := Ready(Err(e));
        case Chunk(data) =>
          if data == [] {
            childExited := true;
            return Ready(Ok(()));
          }
          readBuffer, readPos := data, 0;
          p := ServeStaged(buf);
      }
    }

    /** The staged branch of `poll_read`: copy what fits, and clear the chunk once it is used up. */
    method ServeStaged(buf: ReadBuf) returns (p: Poll<Result<(), IoError>>)
      requires Valid() && buf.Valid() && readPos < |readBuffer|
      modifies this, buf, buf.storage
      ensures Valid() && buf.Valid() && p == Ready(Ok(()))
      ensures var n := Min(|old(Staged())|, old(buf.Remaining()));
        buf.Filled() == old(buf.Filled()) + old(Staged())[..n] && Staged() == old(Staged())[n..]
      ensures childExited == old(childExited)
    {
      var remaining := readBuffer[readPos..];
      var toCopy := Min(|remaining|, buf.Remaining());
      buf.PutSlice(remaining[..toCopy]);
      readPos := readPos + toCopy;
      if readPos >= |readBuffer| {
        readBuffer := [];
        readPos := 0;
      }
      p := Ready(Ok(()));
    }

    /**
      `poll_write`: refused with BrokenPipe once exited; otherwise the data is
      queued whole for the worker, Pending when the channel is full, and
      BrokenPipe when the worker has gone.
    */
    method PollWrite(data: Bytes) returns (p: Poll<Result<nat, IoError>>)
      requires Valid()
      modifies writeTx
      ensures Valid()
      ensures childExited ==>
        p == Ready(Err(BrokenPipeError("PTY process has terminated"))) && writeTx.queue == old(writeTx.queue)
      ensures !childExited && writeTx.receiverGone ==>
        p == Ready(Err(BrokenPipeError("PTY write channel disconnected"))) && writeTx.queue == old(writeTx.queue)
      ensures !childExited && !writeTx.receiverGone && |old(writeTx.queue)| == ChannelCapacity ==>
        p == Pending && writeTx.queue == old(writeTx.queue)
      ensures !childExited && !writeTx.receiverGone && |old(writeTx.queue)| < ChannelCapacity ==>
        p == Ready(Ok(|data|)) && writeTx.queue == old(writeTx.queue) + [data]
      ensures writeTx.receiverGone == old(writeTx.receiverGone)
    {
      if childExited {
        return Ready(Err(BrokenPipeError("PTY process has terminated")));
      }
      if writeTx.receiverGone {
        return Ready(Err(BrokenPipeError("PTY write channel disconnected")));
      }
      if |writeTx.queue| >= writeTx.capacity {
        return Pending;
      }
      writeTx.queue := writeTx.queue + [data];
      p := Ready(Ok(|data|));
    }

    /** `resize`: not passed on to the console; always succeeds. */
    method Resize(cols: u16, rows: u16) returns (r: Result<(), PtyError>)
      ensures r == Ok(())
    {
      r := Ok(());
    }

    /** `pid`: not exposed. */
    function Pid(): Option<nat> {
      None
    }

    /** `try_wait`: never reports a status, whether or not the child has exited. */
    method TryWait() returns (r: Result<Option<ExitStatus>, PtyError>)
      ensures r == Ok(None)
    {
      if childExited {
        return Ok(None);
      }
      r := Ok(None);
    }

    /**
      `kill`: a no-op once exited; otherwise the child is killed, and only a
      successful kill (`outcome`) marks it exited.
    */
    method Kill(outcome: Result<(), PtyError>) returns (r: Result<(), PtyError>)
      modifies this
      ensures readBuffer == old(readBuffer) && readPos == old(readPos)
      ensures old(childExited) ==> r == Ok(()) && childExited
      ensures !old(childExited) ==> r == outcome && childExited == outcome.Ok?
    {
      if childExited {
        return Ok(());
      }
      if outcome.Err? {
        return outcome;
      }
      childExited := true;
      r := outcome;
    }
  }

  /**
    `WindowsPty::new`: open the PTY, spawn the command with its arguments only
    (the configured environment and directory are not passed), create both
    channels with capacity 100 and start the worker. The worker is returned
    alongside so that it can be driven.
  */
  method NewWindowsPty(config: PtyConfig, openPty: Result<(), PtyError>, started: Result<(), PtyError>)
      returns (r: Result<WindowsPty, PtyError>, worker: Option<Worker>)
    ensures openPty.Err? ==> r == Err(openPty.error) && worker == None
    ensures openPty.Ok? && started.Err? ==> r == Err(started.error) && worker == None
    ensures openPty.Ok? && started.Ok? ==>
      r.Ok? && worker.Some? && fresh(r.value) && fresh(worker.value) &&
      fresh(r.value.readRx) && fresh(r.value.writeTx) &&
      r.value.Valid() && r.value.IsAlive() && r.value.Unread() == [] && !r.value.readRx.senderGone &&
      r.value.writeTx.queue == [] && !r.value.writeTx.receiverGone &&
      worker.value.output == r.value.readRx && worker.value.input == r.value.writeTx &&
      worker.value.running && worker.value.masterInput == [] &&
      r.value.spawned == CommandSpec(config.command, config.args, [], None)
  {
    if openPty.Err? {
      return Err(openPty.error), None;
    }
    var cmd := BuildArgsOnlyCommand(config);
    if started.Err? {
      return Err(started.error), None;
    }
    var outputChannel := new OutputChannel();
    var inputChannel := new InputChannel(ChannelCapacity);
    var w := new Worker(outputChannel, inputChannel);
    var pty := new WindowsPty(outputChannel, inputChannel, cmd);
    r, worker := Ok(pty), Some(w);
  }

  // ---------------------------------------------------------------------
  // Properties
  // ---------------------------------------------------------------------

  /** `poll_read` loses and reorders nothing: delivered, still staged and still queued bytes are the bytes it started with. */
  lemma ReadConserves(staged: Bytes, items: seq<ChannelItem>, senderGone: bool, room: nat)
    ensures var o := WindowsRead(staged, items, senderGone, room);
      o.data + o.staged + Flatten(o.items) == staged + Flatten(items)
  {
    if staged != [] {
      var n := Min(|staged|, room);
      assert staged[..n] + staged[n..] == staged;
    } else if items != [] && items[0].Chunk? && items[0].data != [] {
      var data := items[0].data;
      var n := Min(|data|, room);
      assert data[..n] + data[n..] == data;
      assert Flatten(items) == data + Flatten(items[1..]);
    }
  }

  /** End of file is reported only with nothing staged, and only for the empty chunk or a closed, drained channel. */
  lemma EndOfFileOnlyWhenDrained(staged: Bytes, items: seq<ChannelItem>, senderGone: bool, room: nat)
    ensures WindowsRead(staged, items, senderGone, room).exited <==>
      staged == [] && ((items == [] && senderGone) || (items != [] && items[0] == Chunk([])))
  {
  }

  /** A queued error is returned on its own: nothing is delivered, and the chunks behind it stay queued. */
  lemma ErrorDeliversNothing(e: IoError, rest: seq<ChannelItem>, senderGone: bool, room: nat)
    ensures WindowsRead([], [Failed(e)] + rest, senderGone, room) == ReadStep(Ready(Err(e)), [], [], rest, false)
  {
    assert ([Failed(e)] + rest)[1..] == rest;
  }

  /** Bytes a worker read reaches the reader in the order the master produced them. */
  method WorkerOutputIsRead(pty: WindowsPty, worker: Worker, data: Bytes, buf: ReadBuf)
      returns (p: Poll<Result<(), IoError>>)
    requires pty.Valid() && buf.Valid() && worker.running
    requires worker.output == pty.readRx && worker.input == pty.writeTx
    requires pty.Staged() == [] && pty.readRx.items == []
    requires 0 < |data| <= WorkerBufferSize && |data| <= buf.Remaining()
    modifies pty, worker, pty.readRx, pty.writeTx, buf, buf.storage
    ensures p == Ready(Ok(())) && buf.Valid() && buf.Filled() == old(buf.Filled()) + data
    ensures pty.Unread() == [] && worker.running && pty.IsAlive() == old(pty.IsAlive())
  {
    worker.Step(Ok(data));
    assert data[..Min(|data|, WorkerBufferSize)] == data;
    assert pty.Valid();
    p := pty.PollRead(buf);
    assert data[..|data|] == data;
  }

  /** When the worker reaches end of file, the reader sees it, and writes are refused from then on. */
  method EndOfFileStopsWrites(pty: WindowsPty, worker: Worker, buf: ReadBuf, data: Bytes)
      returns (r: Poll<Result<(), IoError>>, w: Poll<Result<nat, IoError>>)
    requires pty.Valid() && buf.Valid() && worker.running
    requires worker.output == pty.readRx && worker.input == pty.writeTx
    requires pty.Staged() == [] && pty.readRx.items == []
    modifies pty, worker, pty.readRx, pty.writeTx, buf, buf.storage
    ensures r == Ready(Ok(())) && !pty.IsAlive() && !worker.running
    ensures w == Ready(Err(BrokenPipeError("PTY process has terminated")))
  {
    worker.Step(Ok([]));
    r := pty.PollRead(buf);
    w := pty.PollWrite(data);
  }
}
