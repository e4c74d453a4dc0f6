/**
  `UnixPty`: a child process on a portable-pty master whose file descriptor
  is registered with the async reactor (`AsyncFd`). Readiness, the reads and
  writes on the descriptor, and the child's `kill`/`try_wait` belong to the
  operating system: each operation takes their outcomes as parameters, in the
  order the operation consumes them. What is modelled is the `child_exited`
  bookkeeping and the retry loops around those calls.
*/
module UnixPtyModel {
  import opened Utf8
  import opened PtyTypes
  import opened ProcessCommand

  // ---------------------------------------------------------------------
  // The outside world's answers
  // ---------------------------------------------------------------------

  /** One turn of the `poll_read` loop: the readiness poll and, when ready, the read. */
  datatype ReadTurn =
    | ReadNotReady
    | ReadReadinessFailed(error: IoError)
      /** the descriptor was ready and `read` returned these bytes (or failed) */
    | ReadAttempt(result: Result<Bytes, IoError>)

  /** One turn of the `poll_write` loop. */
  datatype WriteTurn =
    | WriteNotReady
    | WriteReadinessFailed(error: IoError)
      /** the descriptor was ready and `write` returned a count (or failed) */
    | WriteAttempt(result: Result<nat, IoError>)

  /** What a read delivers: its result, the bytes added to the caller's buffer, and whether it saw end of file. */
  datatype ReadOutcome = ReadOutcome(poll: Poll<Result<(), IoError>>, data: Bytes, eof: bool)

  /**
    The `poll_read` loop on a live PTY, with `room` bytes free in the caller's
    buffer: a read error of any kind retries; a read of no bytes is end of file.
    When the turns run out, the next readiness poll is taken to be Pending.
  */
  function UnixRead(turns: seq<ReadTurn>, room: nat): (o: ReadOutcome)
    ensures |o.data| <= room
    ensures o.eof ==> o.poll == Ready(Ok(())) && o.data == []
    ensures o.data != [] ==> o.poll == Ready(Ok(()))
  {
    if turns == [] then ReadOutcome(Pending, [], false)
    else
      match turns[0]
      case ReadNotReady => ReadOutcome(Pending, [], false)
      case ReadReadinessFailed(e) => ReadOutcome(Ready(Err(e)), [], false)
      case ReadAttempt(Err(_)) => UnixRead(turns[1..], room)
      case ReadAttempt(Ok(available)) =>
        var got := available[..Min(|available|, room)];
        if got == [] then ReadOutcome(Ready(Ok(())), [], true)
        else ReadOutcome(Ready(Ok(())), got, false)
  }

  /** The `poll_write` loop on a live PTY: only WouldBlock retries; any other result is returned. */
  function UnixWrite(turns: seq<WriteTurn>): Poll<Result<nat, IoError>> {
    if turns == [] then Pending
    else
      match turns[0]
      case WriteNotReady => Pending
      case WriteReadinessFailed(e) => Ready(Err(e))
      case WriteAttempt(result) =>
        if result.Err? && result.error.kind == WouldBlock then UnixWrite(turns[1..])
        else Ready(result)
  }

  // ---------------------------------------------------------------------
  // Exit status conversion
  // ---------------------------------------------------------------------

  /** `x as i32` for a `u32`: the same bits read as a signed number. */
  function AsI32(x: nat): int
    requires x < 0x1_0000_0000
  {
    if x < 0x8000_0000 then x else x - 0x1_0000_0000
  }

  /**
    The conversion `try_wait` performs: the child's exit code is handed to
    `ExitStatus::from_raw` as if it were a whole wait status word.
  */
  function StatusFromCodeAsWritten(code: nat): ExitStatus
    requires code < 0x1_0000_0000
  {
    ExitStatus(AsI32(code))
  }

  /** A status word for exit code `code`: the code goes in bits 8 to 15 (`code << 8`). */
  function StatusFromCode(code: nat): (s: ExitStatus)
    requires code < 0x1_0000_0000
    ensures code < 0x100 ==> ExitCode(s) == Some(code)
  {
    ExitStatus(AsI32((code * 0x100) % 0x1_0000_0000))
  }

  /** As written, a child that exits with code 1 to 127 reads back as killed by a signal: it has no exit code. */
  lemma AsWrittenLosesExitCode(code: nat)
    requires 0 < code < 0x80
    ensures ExitCode(StatusFromCodeAsWritten(code)) == None
    ensures !Success(StatusFromCodeAsWritten(code))
  {
  }

  /** As written, exit code 1 even reads back as a failure with no code at all, unlike the conversion that shifts it. */
  lemma ExitCodeOneExample()
    ensures ExitCode(StatusFromCodeAsWritten(1)) == None
    ensures ExitCode(StatusFromCode(1)) == Some(1)
  {
  }

  // ---------------------------------------------------------------------
  // The PTY
  // ---------------------------------------------------------------------

  class UnixPty {
    var childExited: bool
    /** The master's terminal size, as the kernel holds it. */
    var masterCols: u16
    var masterRows: u16
    /** The command the child was spawned with. */
    const spawned: CommandSpec

    constructor (cmd: CommandSpec, cols: u16, rows: u16)
      ensures !childExited && spawned == cmd
      ensures masterCols == cols && masterRows == rows
    {
      childExited := false;
      masterCols := cols;
      masterRows := rows;
      spawned := cmd;
    }

    /** `is_alive`. */
    function IsAlive(): bool
      reads this
    {
      !childExited
    }

    /**
      `poll_read`: once the child is known to have exited every read is end of
      file; otherwise the readiness loop runs, and a read of no bytes marks the
      child exited.
    */
    method PollRead(buf: ReadBuf, turns: seq<ReadTurn>) returns (p: Poll<Result<(), IoError>>)
      requires buf.Valid()
      modifies this, buf, buf.storage
      ensures buf.Valid()
      ensures masterCols == old(masterCols) && masterRows == old(masterRows)
      ensures old(childExited) ==>
        p == Ready(Ok(())) && childExited && buf.Filled() == old(buf.Filled())
      ensures !old(childExited) ==>
        var o := UnixRead(turns, old(buf.Remaining()));
        p == o.poll && buf.Filled() == old(buf.Filled()) + o.data && childExited == o.eof
    {
      if childExited {
        return Ready(Ok(()));
      }
      var k := 0;
      while k < |turns|
        invariant 0 <= k <= |turns|
        invariant UnixRead(turns[k..], buf.Remaining()) == UnixRead(turns, old(buf.Remaining()))
        invariant buf.Valid() && buf.Filled() == old(buf.Filled()) && buf.Remaining() == old(buf.Remaining())
        invariant !childExited && masterCols == old(masterCols) && masterRows == old(masterRows)
      {
        assert turns[k..][0] == turns[k] && turns[k..][1..] == turns[k + 1..];
        match turns[k] {
          case ReadNotReady =>
            return Pending;
          case ReadReadinessFailed(e) =>
            return Ready(Err(e));
          case ReadAttempt(result) =>
            if result.Ok? {
              var got := result.value[..Min(|result.value|, buf.Remaining())];
              if got == [] {
                childExited := true;
                return Ready(Ok(()));
              }
              buf.PutSlice(got);
              return Ready(Ok(()));
            }
        }
        k := k + 1;
      }
      p := Pending;
    }

    /** `poll_write`: refused with BrokenPipe once exited; otherwise the readiness loop's result. */
    method PollWrite(data: Bytes, turns: seq<WriteTurn>) returns (p: Poll<Result<nat, IoError>>)
      ensures childExited ==> p == Ready(Err(BrokenPipeError("PTY process has terminated")))
      ensures !childExited ==> p == UnixWrite(turns)
    {
      if childExited {
        return Ready(Err(BrokenPipeError("PTY process has terminated")));
      }
      var k := 0;
      while k < |turns|
        invariant 0 <= k <= |turns|
        invariant UnixWrite(turns[k..]) == UnixWrite(turns)
      {
        assert turns[k..][0] == turns[k] && turns[k..][1..] == turns[k + 1..];
        match turns[k] {
          case WriteNotReady =>
            return Pending;
          case WriteReadinessFailed(e) =>
            return Ready(Err(e));
          case WriteAttempt(result) =>
            if !(result.Err? && result.error.kind == WouldBlock) {
              return Ready(result);
            }
        }
        k := k + 1;
      }
      p := Pending;
    }

    /**
      `resize`: refused with ProcessTerminated once exited, without touching the
      master; otherwise the master's answer (`outcome`), and the new size on success.
    */
    method Resize(cols: u16, rows: u16, outcome: Result<(), PtyError>) returns (r: Result<(), PtyError>)
      modifies this
      ensures childExited == old(childExited)
      ensures old(childExited) ==>
        r == Err(ProcessTerminated) && masterCols == old(masterCols) && masterRows == old(masterRows)
      ensures !old(childExited) ==> r == outcome
      ensures !old(childExited) && outcome.Ok? ==> masterCols == cols && masterRows == rows
      ensures outcome.Err? ==> masterCols == old(masterCols) && masterRows == old(masterRows)
    {
      if childExited {
        return Err(ProcessTerminated);
      }
      if outcome.Err? {
        return outcome;
      }
      masterCols, masterRows := cols, rows;
      r := outcome;
    }

    /**
      `try_wait`: once exited, Ok(None) without asking the child again;
      otherwise the child's answer (`probe`), and an observed exit is recorded.
    */
    method TryWait(probe: Result<Option<nat>, PtyError>) returns (r: Result<Option<ExitStatus>, PtyError>)
      requires probe.Ok? && probe.value.Some? ==> probe.value.value < 0x1_0000_0000
      modifies this
      ensures masterCols == old(masterCols) && masterRows == old(masterRows)
      ensures old(childExited) ==> r == Ok(None) && childExited
      ensures !old(childExited) && probe.Err? ==> r == Err(probe.error) && !childExited
      ensures !old(childExited) && probe.Ok? && probe.value.None? ==> r == Ok(None) && !childExited
      ensures !old(childExited) && probe.Ok? && probe.value.Some? ==>
        r == Ok(Some(StatusFromCode(probe.value.value))) && childExited
    {
      if childExited {
        return Ok(None);
      }
      match probe {
        case Err(e) =>
          r := Err(e);
        case Ok(None) =>
          r := Ok(None);
        case Ok(Some(code)) =>
          childExited := true;
          r := Ok(Some(StatusFromCode(code)));
      }
    }

    /**
      `kill`: a no-op once exited; otherwise the child is killed, and only a
      successful kill (`outcome`) marks it exited.
    */
    method Kill(outcome: Result<(), PtyError>) returns (r: Result<(), PtyError>)
      modifies this
      ensures masterCols == old(masterCols) && masterRows == old(masterRows)
      ensures old(childExited) ==> r == Ok(()) && childExited
      ensures !old(childExited) ==> r == outcome && childExited == outcome.Ok?
    {
      if childExited {
        return Ok(());
      }
      if outcome.Err? {
        return outcome;
      }
      childExited := true;
      r := outcome;
    }
  }

  /**
    `UnixPty::new`: open the PTY at the configured size, spawn the command
    (arguments, environment and directory from the configuration), and
    register the master with the reactor; the first failing step's error is
    returned.
  */
  method NewUnixPty(config: PtyConfig, openPty: Result<(), PtyError>, started: Result<(), PtyError>,
                    registered: Result<(), PtyError>) returns (r: Result<UnixPty, PtyError>)
    ensures openPty.Err? ==> r == Err(openPty.error)
    ensures openPty.Ok? && started.Err? ==> r == Err(started.error)
    ensures openPty.Ok? && started.Ok? && registered.Err? ==> r == Err(registered.error)
    ensures openPty.Ok? && started.Ok? && registered.Ok? ==>
      r.Ok? && fresh(r.value) && r.value.IsAlive() &&
      r.value.masterCols == config.cols && r.value.masterRows == config.rows &&
      r.value.spawned == CommandSpec(config.command, config.args, config.env, config.cwd)
  {
    if openPty.Err? {
      return Err(openPty.error);
    }
    var cmd := BuildCommand(config);
    if started.Err? {
      return Err(started.error);
    }
    if registered.Err? {
      return Err(registered.error);
    }
    var pty := new UnixPty(cmd, config.cols, config.rows);
    r := Ok(pty);
  }

  /** `UnixPtyFactory::name`. */
  const FactoryName := "unix-pty"

  // ---------------------------------------------------------------------
  // Properties
  // ---------------------------------------------------------------------

  /** Kill is idempotent: after a successful kill, a second one succeeds without asking the child. */
  method KillTwice(pty: UnixPty, first: Result<(), PtyError>, second: Result<(), PtyError>)
      returns (r1: Result<(), PtyError>, r2: Result<(), PtyError>)
    requires pty.IsAlive() && first == Ok(())
    modifies pty
    ensures r1 == Ok(()) && r2 == Ok(()) && !pty.IsAlive()
  {
    r1 := pty.Kill(first);
    r2 := pty.Kill(second);
  }

  /** A read that sees end of file turns the PTY dead: later reads are end of file and writes fail. */
  method EndOfFileIsFinal(pty: UnixPty, buf: ReadBuf, turns: seq<ReadTurn>, later: seq<ReadTurn>, data: Bytes)
      returns (first: Poll<Result<(), IoError>>, second: Poll<Result<(), IoError>>, w: Poll<Result<nat, IoError>>)
    requires buf.Valid() && pty.IsAlive() && UnixRead(turns, buf.Remaining()).eof
    modifies pty, buf, buf.storage
    ensures first == Ready(Ok(())) && second == Ready(Ok(()))
    ensures w == Ready(Err(BrokenPipeError("PTY process has terminated")))
    ensures buf.Valid() && buf.Filled() == old(buf.Filled()) && !pty.IsAlive()
  {
    first := pty.PollRead(buf, turns);
    second := pty.PollRead(buf, later);
    w := pty.PollWrite(data, []);
  }

  /** A successful read delivers a prefix of what the descriptor had, no longer than the room left. */
  lemma {:induction false} ReadDeliversPrefix(turns: seq<ReadTurn>, room: nat)
    ensures var o := UnixRead(turns, room);
      o.data != [] ==>
        (exists k :: 0 <= k < |turns| && turns[k].ReadAttempt? && turns[k].result.Ok? && o.data <= turns[k].result.value)
  {
    if turns != [] && turns[0].ReadAttempt? && turns[0].result.Err? {
      ReadDeliversPrefix(turns[1..], room);
      var o := UnixRead(turns, room);
      if o.data != [] {
        var k :| 0 <= k < |turns[1..]| && turns[1..][k].ReadAttempt? && turns[1..][k].result.Ok?
          && o.data <= turns[1..][k].result.value;
        assert turns[k + 1] == turns[1..][k];
      }
    } else if turns != [] && turns[0].ReadAttempt? && turns[0].result.Ok? {
      var o := UnixRead(turns, room);
      if o.data != [] {
        assert turns[0].ReadAttempt? && turns[0].result.Ok? && o.data <= turns[0].result.value;
      }
    }
  }

  /** Failed reads are skipped: the loop's result is that of the turns after them. */
  lemma {:induction false} FailedReadsRetry(failures: seq<ReadTurn>, rest: seq<ReadTurn>, room: nat)
    requires forall k :: 0 <= k < |failures| ==> failures[k].ReadAttempt? && failures[k].result.Err?
    ensures UnixRead(failures + rest, room) == UnixRead(rest, room)
  {
    if failures != [] {
      assert (failures + rest)[0] == failures[0] && (failures + rest)[1..] == failures[1..] + rest;
      FailedReadsRetry(failures[1..], rest, room);
    } else {
      assert failures + rest == rest;
    }
  }

  /** WouldBlock writes are retried: the loop's result is that of the turns after them. */
  lemma {:induction false} BlockedWritesRetry(blocked: seq<WriteTurn>, rest: seq<WriteTurn>)
    requires forall k :: 0 <= k < |blocked| ==>
      blocked[k].WriteAttempt? && blocked[k].result.Err? && blocked[k].result.error.kind == WouldBlock
    ensures UnixWrite(blocked + rest) == UnixWrite(rest)
  {
    if blocked != [] {
      assert (blocked + rest)[0] == blocked[0] && (blocked + rest)[1..] == blocked[1..] + rest;
      BlockedWritesRetry(blocked[1..], rest);
    } else {
      assert blocked + rest == rest;
    }
  }

  /** Any other write failure ends the loop at once and is returned. */
  lemma WriteErrorReturned(e: IoError, rest: seq<WriteTurn>)
    requires e.kind != WouldBlock
    ensures UnixWrite([WriteAttempt(Err(e))] + rest) == Ready(Err(e))
  {
  }
}
