/**
  `MemoryPty`: a PTY that runs no process. Its output is a FIFO byte buffer
  that reads drain from the front and writes append to, and an `alive` flag
  gates writes. Both live behind shared cells (`Arc<Mutex<..>>` in the
  original), so every clone of a PTY sees the same buffer and flag.
*/
module MemoryPtyModel {
  import opened Utf8
  import opened PtyTypes
  import opened MemoryShell

  /** The shared output buffer. */
  class OutputCell {
    var bytes: Bytes

    constructor (initial: Bytes)
      ensures bytes == initial
    {
      bytes := initial;
    }
  }

  /** The shared alive flag. */
  class AliveCell {
    var alive: bool

    constructor ()
      ensures alive
    {
      alive := true;
    }
  }

  /** The text a new PTY starts with. */
  function WelcomeText(command: string): string {
    "Memory PTY initialized for command: " + command + "\r\n"
  }

  /** The lines `process_input` sees in a write: lossy UTF-8, split as `str::lines` does. */
  function InputLines(input: Bytes): seq<string> {
    Lines(LossyDecode(input))
  }

  /** The bytes `process_input` answers a write with. */
  function InputResponse(input: Bytes, cwd: Option<string>): Bytes {
    Encode(Response(InputLines(input), cwd))
  }

  class MemoryPty {
    const output: OutputCell
    const flag: AliveCell
    const command: string
    const cwd: Option<string>

    /** `MemoryPty::new`: never fails; starts alive with the welcome line queued. */
    constructor (config: PtyConfig)
      ensures fresh(output) && fresh(flag)
      ensures output.bytes == Encode(WelcomeText(config.command))
      ensures flag.alive
      ensures command == config.command && cwd == config.cwd
    {
      output := new OutputCell(Encode(WelcomeText(config.command)));
      flag := new AliveCell();
      command := config.command;
      cwd := config.cwd;
    }

    /** `is_alive`: the shared flag. */
    function IsAlive(): bool
      reads flag
    {
      flag.alive
    }

    /**
      `process_input`: answer each line of the input in turn; an `exit` line
      also marks the PTY dead.
    */
    method ProcessInput(input: Bytes) returns (response: Bytes)
      modifies flag
      ensures response == InputResponse(input, cwd)
      ensures flag.alive == (old(flag.alive) && !HasExit(InputLines(input)))
    {
      var text := AnswerLines(InputLines(input));
      response := Encode(text);
    }

    /** The loop of `process_input` over the decoded lines. */
    method AnswerLines(lines: seq<string>) returns (text: string)
      modifies flag
      ensures text == Response(lines, cwd)
      ensures flag.alive == (old(flag.alive) && !HasExit(lines))
    {
      text := "";
      var i := 0;
      while i < |lines|
        invariant 0 <= i <= |lines|
        invariant text == Response(lines[..i], cwd)
        invariant flag.alive == (old(flag.alive) && !HasExit(lines[..i]))
      {
        var line := lines[i];
        if IsExit(line) {
          flag.alive := false;
        }
        text := text + LineResponse(line, cwd);
        ResponseStep(lines, i, cwd);
        i := i + 1;
      }
      assert lines[..i] == lines;
    }

    /**
      `poll_read`: move as much of the buffer as fits into `buf`, from the
      front; with nothing buffered the read is Pending and nothing changes.
    */
    method PollRead(buf: ReadBuf) returns (p: Poll<Result<(), IoError>>)
      requires buf.Valid()
      modifies output, buf, buf.storage
      ensures buf.Valid()
      ensures buf.Filled() + output.bytes == old(buf.Filled()) + old(output.bytes)
      ensures old(output.bytes) == [] ==>
        p == Pending && output.bytes == [] && buf.Filled() == old(buf.Filled())
      ensures old(output.bytes) != [] ==>
        p == Ready(Ok(())) &&
        var n := Min(|old(output.bytes)|, old(buf.Remaining()));
        buf.Filled() == old(buf.Filled()) + old(output.bytes)[..n] &&
        output.bytes == old(output.bytes)[n..]
    {
      if output.bytes != [] {
        var n := Min(|output.bytes|, buf.Remaining());
        buf.PutSlice(output.bytes[..n]);
        assert output.bytes[..n] + output.bytes[n..] == output.bytes;
        output.bytes := output.bytes[n..];
        p := Ready(Ok(()));
      } else {
        p := Pending;
      }
    }

    /**
      `poll_write`: refused with BrokenPipe once dead; otherwise the whole
      input is accepted and its response is appended to the buffer.
    */
    method PollWrite(data: Bytes) returns (p: Poll<Result<nat, IoError>>)
      modifies output, flag
      ensures !old(flag.alive) ==>
        p == Ready(Err(BrokenPipeError("PTY is not alive"))) &&
        output.bytes == old(output.bytes) && !flag.alive
      ensures old(flag.alive) ==>
        p == Ready(Ok(|data|)) &&
        output.bytes == old(output.bytes) + InputResponse(data, cwd) &&
        flag.alive == !HasExit(InputLines(data))
    {
      if !flag.alive {
        return Ready(Err(BrokenPipeError("PTY is not alive")));
      }
      var worker := Clone();
      var response := worker.ProcessInput(data);
      worker.output.bytes := worker.output.bytes + response;
      p := Ready(Ok(|data|));
    }

    /** `resize`: there is no terminal to resize, so it always succeeds. */
    method Resize(cols: u16, rows: u16) returns (r: Result<(), PtyError>)
      ensures r == Ok(())
    {
      r := Ok(());
    }

    /** `pid`: there is no process. */
    function Pid(): Option<nat> {
      None
    }

    /** `try_wait`: a (default, successful) status exactly when the PTY is dead. */
    method TryWait() returns (r: Result<Option<ExitStatus>, PtyError>)
      ensures r.Ok?
      ensures r.value.Some? <==> !IsAlive()
      ensures r.value.Some? ==> r.value.value == DefaultExitStatus
    {
      if !flag.alive {
        r := Ok(Some(DefaultExitStatus));
      } else {
        r := Ok(None);
      }
    }

    /** `kill`: mark the PTY dead; it always succeeds. */
    method Kill() returns (r: Result<(), PtyError>)
      modifies flag
      ensures r == Ok(()) && !flag.alive
    {
      flag.alive := false;
      r := Ok(());
    }

    /** `clone`: a new handle on the same buffer and flag. */
    method Clone() returns (c: MemoryPty)
      ensures fresh(c)
      ensures c.output == output && c.flag == flag
      ensures c.command == command && c.cwd == cwd
    {
      c := new MemoryPty.Share(this);
    }

    constructor Share(from: MemoryPty)
      ensures output == from.output && flag == from.flag
      ensures command == from.command && cwd == from.cwd
    {
      output := from.output;
      flag := from.flag;
      command := from.command;
      cwd := from.cwd;
    }
  }

  /** `MemoryPtyFactory::name`. */
  const FactoryName := "memory-pty"

  /** `MemoryPtyFactory::create`: a fresh MemoryPty; creation never fails. */
  method CreateMemoryPty(config: PtyConfig) returns (r: Result<MemoryPty, PtyError>)
    ensures r.Ok? && fresh(r.value) && fresh(r.value.output) && fresh(r.value.flag)
    ensures r.value.IsAlive() && r.value.output.bytes == Encode(WelcomeText(config.command))
    ensures r.value.command == config.command && r.value.cwd == config.cwd
  {
    var pty := new MemoryPty(config);
    r := Ok(pty);
  }

  // ---------------------------------------------------------------------
  // Scenarios over shared state
  // ---------------------------------------------------------------------

  /** A kill through one clone is seen by the other: its writes fail from then on. */
  method KillThroughClone(config: PtyConfig) returns (p: Poll<Result<nat, IoError>>)
    ensures p == Ready(Err(BrokenPipeError("PTY is not alive")))
  {
    var pty := new MemoryPty(config);
    var other := pty.Clone();
    var _ := other.Kill();
    p := pty.PollWrite([0x6C, 0x73, 0x0A]);
  }

  /** After an `exit` line, the next write is refused and the buffer stays as it was. */
  method WriteAfterExit(pty: MemoryPty, exitLine: Bytes, data: Bytes)
      returns (first: Poll<Result<nat, IoError>>, second: Poll<Result<nat, IoError>>)
    requires pty.IsAlive() && HasExit(InputLines(exitLine))
    modifies pty.output, pty.flag
    ensures first == Ready(Ok(|exitLine|))
    ensures second == Ready(Err(BrokenPipeError("PTY is not alive")))
    ensures pty.output.bytes == old(pty.output.bytes) + InputResponse(exitLine, pty.cwd)
  {
    first := pty.PollWrite(exitLine);
    second := pty.PollWrite(data);
  }

  /**
    A line that trims to `exit`, sent with a line feed as a client sends it,
    stops the PTY and is answered with the exit message alone.
  */
  lemma ExitLineStopsPty(line: string, cwd: Option<string>)
    requires IsExit(line) && '\n' !in line && '\r' !in line
    ensures HasExit(InputLines(Encode(line + "\n")))
    ensures InputResponse(Encode(line + "\n"), cwd) == Encode(ExitText)
  {
    LineWithLineFeed(line);
    SingleExitLine(line, cwd);
  }

  /** A line and its line feed, as bytes, read back as that one line. */
  lemma LineWithLineFeed(line: string)
    requires '\n' !in line && '\r' !in line
    ensures InputLines(Encode(line + "\n")) == [line]
  {
    var text := line + "\n";
    LossyDecodeEncode(text);
    LineFeedEndsLine(line, "");
    assert text + "" == text;
  }
}
