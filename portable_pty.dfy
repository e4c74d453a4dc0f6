/**
  `PortablePty`: a portable-pty master and child used through its blocking
  reader and writer, called directly from the poll methods. The reader's,
  writer's, master's and child's answers are parameters.
*/
module PortablePtyModel {
  import opened Utf8
  import opened PtyTypes
  import opened ProcessCommand

  /**
    `poll_read`, given what the blocking reader returned (the bytes it had, of
    which at most `room` are taken): data, including none, is Ready; WouldBlock
    is Pending; any other error is returned.
  */
  function PortableRead(read: Result<Bytes, IoError>, room: nat): (o: (Poll<Result<(), IoError>>, Bytes))
    ensures |o.1| <= room
    ensures o.0 == Pending <==> read.Err? && read.error.kind == WouldBlock
    ensures o.1 != [] ==> read.Ok? && o.1 <= read.value
  {
    match read
    case Ok(bytes) => (Ready(Ok(())), bytes[..Min(|bytes|, room)])
    case Err(e) => if e.kind == WouldBlock then (Pending, []) else (Ready(Err(e)), [])
  }

  /** `poll_write`, given what the blocking writer returned. */
  function PortableWrite(write: Result<nat, IoError>): (p: Poll<Result<nat, IoError>>)
    ensures p == Pending <==> write.Err? && write.error.kind == WouldBlock
    ensures p.Ready? ==> p.value == write
  {
    match write
    case Ok(n) => Ready(Ok(n))
    case Err(e) => if e.kind == WouldBlock then Pending else Ready(Err(e))
  }

  class PortablePty {
    var cols: u16
    var rows: u16
    var childExited: bool
    const spawned: CommandSpec

    constructor (cmd: CommandSpec, cols: u16, rows: u16)
      ensures !childExited && spawned == cmd && this.cols == cols && this.rows == rows
    {
      childExited := false;
      this.cols := cols;
      this.rows := rows;
      spawned := cmd;
    }

    /** `is_alive`. */
    function IsAlive(): bool
      reads this
    {
      !childExited
    }

    /** `poll_read`: neither consults nor changes `child_exited`. */
    method PollRead(buf: ReadBuf, read: Result<Bytes, IoError>) returns (p: Poll<Result<(), IoError>>)
      requires buf.Valid()
      modifies buf, buf.storage
      ensures buf.Valid()
      ensures var o := PortableRead(read, old(buf.Remaining()));
        p == o.0 && buf.Filled() == old(buf.Filled()) + o.1
    {
      match read {
        case Ok(bytes) =>
          buf.PutSlice(bytes[..Min(|bytes|, buf.Remaining())]);
          p := Ready(Ok(()));
        case Err(e) =>
          if e.kind == WouldBlock {
            p := Pending;
          } else {
            p := Ready(Err(e));
          }
      }
    }

    /** `poll_write`: not guarded by `child_exited`; the writer's answer, WouldBlock as Pending. */
    method PollWrite(data: Bytes, write: Result<nat, IoError>) returns (p: Poll<Result<nat, IoError>>)
      ensures p == PortableWrite(write)
    {
      match write {
        case Ok(n) =>
          p := Ready(Ok(n));
        case Err(e) =>
          if e.kind == WouldBlock {
            p := Pending;
          } else {
            p := Ready(Err(e));
          }
      }
    }

    /** `resize`: the master is resized first; the recorded size changes only when that succeeds. */
    method Resize(cols: u16, rows: u16, outcome: Result<(), PtyError>) returns (r: Result<(), PtyError>)
      modifies this
      ensures r == outcome && childExited == old(childExited)
      ensures outcome.Ok? ==> this.cols == cols && this.rows == rows
      ensures outcome.Err? ==> this.cols == old(this.cols) && this.rows == old(this.rows)
    {
      if outcome.Err? {
        return outcome;
      }
      this.cols := cols;
      this.rows := rows;
      r := outcome;
    }

    /** `pid`: not exposed. */
    function Pid(): Option<nat> {
      None
    }

    /**
      `try_wait`: once exited, Ok(None); otherwise the child's answer, where an
      exit (whatever its status) is reported as the default, successful status.
    */
    method TryWait(probe: Result<Option<ExitStatus>, PtyError>) returns (r: Result<Option<ExitStatus>, PtyError>)
      modifies this
      ensures cols == old(cols) && rows == old(rows)
      ensures old(childExited) ==> r == Ok(None) && childExited
      ensures !old(childExited) && probe.Err? ==> r == Err(probe.error) && !childExited
      ensures !old(childExited) && probe.Ok? ==>
        childExited == probe.value.Some? &&
        r == (if probe.value.Some? then Ok(Some(DefaultExitStatus)) else Ok(None))
    {
      if childExited {
        return Ok(None);
      }
      match probe {
        case Err(e) =>
          r := Err(e);
        case Ok(None) =>
          r := Ok(None);
        case Ok(Some(_)) =>
          childExited := true;
          r := Ok(Some(DefaultExitStatus));
      }
    }

    /** `kill`: not guarded by `child_exited`; only a successful kill marks the child exited. */
    method Kill(outcome: Result<(), PtyError>) returns (r: Result<(), PtyError>)
      modifies this
      ensures cols == old(cols) && rows == old(rows)
      ensures r == outcome
      ensures childExited == (old(childExited) || outcome.Ok?)
    {
      if outcome.Err? {
        return outcome;
      }
      childExited := true;
      r := outcome;
    }
  }

  /**
    `PortablePty::new`: open the PTY at the configured size, build the command
    (arguments, environment, directory), spawn it, and take the reader and the
    writer; the first failing step's error is returned.
  */
  method NewPortablePty(config: PtyConfig, openPty: Result<(), PtyError>, started: Result<(), PtyError>,
                        reader: Result<(), PtyError>, writer: Result<(), PtyError>)
      returns (r: Result<PortablePty, PtyError>)
    ensures openPty.Err? ==> r == Err(openPty.error)
    ensures openPty.Ok? && started.Err? ==> r == Err(started.error)
    ensures openPty.Ok? && started.Ok? && reader.Err? ==> r == Err(reader.error)
    ensures openPty.Ok? && started.Ok? && reader.Ok? && writer.Err? ==> r == Err(writer.error)
    ensures openPty.Ok? && started.Ok? && reader.Ok? && writer.Ok? ==>
      r.Ok? && fresh(r.value) && r.value.IsAlive() &&
      r.value.cols == config.cols && r.value.rows == config.rows &&
      r.value.spawned == CommandSpec(config.command, config.args, config.env, config.cwd)
  {
    if openPty.Err? {
      return Err(openPty.error);
    }
    var cmd := BuildCommand(config);
    if started.Err? {
      return Err(started.error);
    }
    if reader.Err? {
      return Err(reader.error);
    }
    if writer.Err? {
      return Err(writer.error);
    }
    var pty := new PortablePty(cmd, config.cols, config.rows);
    r := Ok(pty);
  }

  /** `PortablePtyFactory::name`. */
  const FactoryName := "portable-pty"

  // ---------------------------------------------------------------------
  // Properties
  // ---------------------------------------------------------------------

  /** End of file on the reader does not mark the child exited: the PTY stays alive and writes still go through. */
  method EndOfFileKeepsAlive(pty: PortablePty, buf: ReadBuf, data: Bytes)
      returns (r: Poll<Result<(), IoError>>, w: Poll<Result<nat, IoError>>)
    requires buf.Valid() && pty.IsAlive()
    modifies buf, buf.storage
    ensures r == Ready(Ok(())) && buf.Valid() && buf.Filled() == old(buf.Filled())
    ensures pty.IsAlive() && w == Ready(Ok(|data|))
  {
    r := pty.PollRead(buf, Ok([]));
    w := pty.PollWrite(data, Ok(|data|));
  }

  /** Whatever the child's exit status, `try_wait` reports success. */
  method ExitStatusIsDiscarded(pty: PortablePty, status: ExitStatus) returns (r: Result<Option<ExitStatus>, PtyError>)
    requires pty.IsAlive()
    modifies pty
    ensures r.Ok? && r.value.Some? && Success(r.value.value) && !pty.IsAlive()
  {
    r := pty.TryWait(Ok(Some(status)));
    DefaultIsSuccess();
  }
}
