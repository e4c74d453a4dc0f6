/**
  `TokioPtyProcessPty`: a child process spawned with piped stdin, stdout and
  stderr (no terminal device). Reads prefer stdout and fall back to stderr;
  every read first asks the child whether it has exited. The child's answers
  and the pipes' poll results are parameters.
*/
module TokioPtyModel {
  import opened Utf8
  import opened PtyTypes
  import opened ProcessCommand

  /** A pipe's poll, as the pipe would answer it: the bytes it has (at most what fits is taken), or an error. */
  type PipePoll = Poll<Result<Bytes, IoError>>

  /** What a read delivers: its result, the bytes added to the caller's buffer, and whether it saw the child exit. */
  datatype ReadOutcome = ReadOutcome(poll: Poll<Result<(), IoError>>, data: Bytes, exitSeen: bool)

  /** The bytes a pipe's successful poll puts into a buffer with `room` bytes free. */
  function Taken(bytes: Bytes, room: nat): (t: Bytes)
    ensures |t| <= room && t <= bytes
  {
    bytes[..Min(|bytes|, room)]
  }

  /**
    `poll_read`: an observed exit ends the read at once; otherwise stdout's
    success is returned, and stdout's error or Pending gives way to stderr,
    whose answer (success, error or Pending) is returned.
  */
  function TokioRead(exit: Result<Option<ExitStatus>, IoError>, stdout: PipePoll, stderr: PipePoll,
                     room: nat): (o: ReadOutcome)
    ensures |o.data| <= room
    ensures o.exitSeen <==> exit.Ok? && exit.value.Some?
  {
    if exit.Ok? && exit.value.Some? then ReadOutcome(Ready(Ok(())), [], true)
    else if stdout.Ready? && stdout.value.Ok? then ReadOutcome(Ready(Ok(())), Taken(stdout.value.value, room), false)
    else match stderr
      case Ready(Ok(bytes)) => ReadOutcome(Ready(Ok(())), Taken(bytes, room), false)
      case Ready(Err(e)) => ReadOutcome(Ready(Err(e)), [], false)
      case Pending => ReadOutcome(Pending, [], false)
  }

  class TokioPty {
    var childExited: bool
    /** The size last set; there is no terminal to pass it to. */
    var cols: u16
    var rows: u16
    const spawned: CommandSpec

    constructor (cmd: CommandSpec, cols: u16, rows: u16)
      ensures !childExited && spawned == cmd && this.cols == cols && this.rows == rows
    {
      childExited := false;
      this.cols := cols;
      this.rows := rows;
      spawned := cmd;
    }

    /** `is_alive`. */
    function IsAlive(): bool
      reads this
    {
      !childExited
    }

    /**
      `poll_read`, given the child's `try_wait` answer and the two pipes' polls.
      It does not consult `child_exited` first: each read asks the child anew.
    */
    method PollRead(buf: ReadBuf, exit: Result<Option<ExitStatus>, IoError>, stdout: PipePoll, stderr: PipePoll)
        returns (p: Poll<Result<(), IoError>>)
      requires buf.Valid()
      modifies this, buf, buf.storage
      ensures buf.Valid() && cols == old(cols) && rows == old(rows)
      ensures var o := TokioRead(exit, stdout, stderr, old(buf.Remaining()));
        p == o.poll && buf.Filled() == old(buf.Filled()) + o.data &&
        childExited == (old(childExited) || o.exitSeen)
    {
      if exit.Ok? && exit.value.Some? {
        childExited := true;
        return Ready(Ok(()));
      }
      if stdout.Ready? && stdout.value.Ok? {
        buf.PutSlice(Taken(stdout.value.value, buf.Remaining()));
        return Ready(Ok(()));
      }
      match stderr {
        case Ready(Ok(bytes)) =>
          buf.PutSlice(Taken(bytes, buf.Remaining()));
          p := Ready(Ok(()));
        case Ready(Err(e)) =>
          p := Ready(Err(e));
        case Pending =>
          p := Pending;
      }
    }

    /** `poll_write`: refused with BrokenPipe once exited; otherwise stdin's answer (`stdin`). */
    method PollWrite(data: Bytes, stdin: Poll<Result<nat, IoError>>) returns (p: Poll<Result<nat, IoError>>)
      ensures childExited ==> p == Ready(Err(BrokenPipeError("PTY process has exited")))
      ensures !childExited ==> p == stdin
    {
      if childExited {
        return Ready(Err(BrokenPipeError("PTY process has exited")));
      }
      p := stdin;
    }

    /** `resize`: only the recorded size changes; always succeeds. */
    method Resize(cols: u16, rows: u16) returns (r: Result<(), PtyError>)
      modifies this
      ensures r == Ok(()) && this.cols == cols && this.rows == rows && childExited == old(childExited)
    {
      this.cols := cols;
      this.rows := rows;
      r := Ok(());
    }

    /**
      `try_wait`: once exited, Ok(None) without asking; otherwise the child's
      answer, an observed exit recorded, and a failure reported as Other.
    */
    method TryWait(probe: Result<Option<ExitStatus>, string>) returns (r: Result<Option<ExitStatus>, PtyError>)
      modifies this
      ensures cols == old(cols) && rows == old(rows)
      ensures old(childExited) ==> r == Ok(None) && childExited
      ensures !old(childExited) && probe.Err? ==> r == Err(Other(probe.error)) && !childExited
      ensures !old(childExited) && probe.Ok? ==> r == Ok(probe.value) && childExited == probe.value.Some?
    {
      if childExited {
        return Ok(None);
      }
      match probe {
        case Ok(Some(status)) =>
          childExited := true;
          r := Ok(Some(status));
        case Ok(None) =>
          r := Ok(None);
        case Err(e) =>
          r := Err(Other(e));
      }
    }

    /**
      `kill`: not guarded by `child_exited`: the child is always asked; a
      failure is reported as Other and only a success marks the child exited.
    */
    method Kill(outcome: Result<(), string>) returns (r: Result<(), PtyError>)
      modifies this
      ensures cols == old(cols) && rows == old(rows)
      ensures outcome.Err? ==> r == Err(Other(outcome.error)) && childExited == old(childExited)
      ensures outcome.Ok? ==> r == Ok(()) && childExited
    {
      if outcome.Err? {
        return Err(Other(outcome.error));
      }
      childExited := true;
      r := Ok(());
    }
  }

  /**
    `TokioPtyProcessPty::new`: build the command (arguments, directory,
    environment), spawn it with piped stdio, and take the three pipes; a spawn
    failure and each missing pipe are SpawnFailed with their own reason.
  */
  method NewTokioPty(config: PtyConfig, spawn: Result<(), string>, hasStdin: bool, hasStdout: bool, hasStderr: bool)
      returns (r: Result<TokioPty, PtyError>)
    ensures spawn.Err? ==> r == Err(SpawnFailed(spawn.error))
    ensures spawn.Ok? && !hasStdin ==> r == Err(SpawnFailed("Failed to get stdin"))
    ensures spawn.Ok? && hasStdin && !hasStdout ==> r == Err(SpawnFailed("Failed to get stdout"))
    ensures spawn.Ok? && hasStdin && hasStdout && !hasStderr ==> r == Err(SpawnFailed("Failed to get stderr"))
    ensures spawn.Ok? && hasStdin && hasStdout && hasStderr ==>
      r.Ok? && fresh(r.value) && r.value.IsAlive() &&
      r.value.cols == config.cols && r.value.rows == config.rows &&
      r.value.spawned == CommandSpec(config.command, config.args, config.env, config.cwd)
  {
    var cmd := BuildCommand(config);
    if spawn.Err? {
      return Err(SpawnFailed(spawn.error));
    }
    if !hasStdin {
      return Err(SpawnFailed("Failed to get stdin"));
    }
    if !hasStdout {
      return Err(SpawnFailed("Failed to get stdout"));
    }
    if !hasStderr {
      return Err(SpawnFailed("Failed to get stderr"));
    }
    var pty := new TokioPty(cmd, config.cols, config.rows);
    r := Ok(pty);
  }

  /** `TokioPtyProcessPtyFactory::name`. */
  const FactoryName := "tokio-pty-process"

  // ---------------------------------------------------------------------
  // Properties of the read policy
  // ---------------------------------------------------------------------

  /** A successful stdout poll decides the read: stderr is not consulted. */
  lemma StdoutFirst(exit: Result<Option<ExitStatus>, IoError>, bytes: Bytes, e1: PipePoll, e2: PipePoll, room: nat)
    requires !(exit.Ok? && exit.value.Some?)
    ensures TokioRead(exit, Ready(Ok(bytes)), e1, room) == TokioRead(exit, Ready(Ok(bytes)), e2, room)
    ensures TokioRead(exit, Ready(Ok(bytes)), e1, room).data == Taken(bytes, room)
  {
  }

  /** A stdout error is never reported: the read goes on exactly as if stdout had nothing. */
  lemma StdoutErrorIsSwallowed(exit: Result<Option<ExitStatus>, IoError>, e: IoError, stderr: PipePoll, room: nat)
    ensures TokioRead(exit, Ready(Err(e)), stderr, room) == TokioRead(exit, Pending, stderr, room)
  {
  }

  /** An exit seen by `try_wait` ends the read with no data, whatever the pipes hold. */
  lemma ExitEndsRead(status: ExitStatus, stdout: PipePoll, stderr: PipePoll, room: nat)
    ensures TokioRead(Ok(Some(status)), stdout, stderr, room) == ReadOutcome(Ready(Ok(())), [], true)
  {
  }

  /** A failing `try_wait` is ignored by the read. */
  lemma WaitErrorIgnoredByRead(e: IoError, stdout: PipePoll, stderr: PipePoll, room: nat)
    ensures TokioRead(Err(e), stdout, stderr, room) == TokioRead(Ok(None), stdout, stderr, room)
  {
  }

  /** The read is Pending only when the child is running and both pipes have nothing or stdout failed. */
  lemma PendingOnlyWhenBothIdle(exit: Result<Option<ExitStatus>, IoError>, stdout: PipePoll, stderr: PipePoll, room: nat)
    ensures TokioRead(exit, stdout, stderr, room).poll == Pending <==>
      !(exit.Ok? && exit.value.Some?) && !(stdout.Ready? && stdout.value.Ok?) && stderr == Pending
  {
  }

  /** Unlike the other native backends, a kill after exit asks the child again, and its error is reported. */
  method KillAfterExit(pty: TokioPty, first: Result<(), string>, reason: string) returns (r1: Result<(), PtyError>, r2: Result<(), PtyError>)
    requires first == Ok(())
    modifies pty
    ensures r1 == Ok(()) && r2 == Err(Other(reason)) && !pty.IsAlive()
  {
    r1 := pty.Kill(first);
    r2 := pty.Kill(Err(reason));
  }
}
