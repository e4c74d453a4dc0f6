# Terminal PTY layer and session handler, modelled in Dafny

This project models the core of the `rs_terminal` server. The server accepts
a client connection, creates a pseudo-terminal (PTY) for it, and moves bytes
both ways until one side ends the session. The model covers these parts:

- **Session handler** (`session_handler.dfy`): `handle_terminal_session`. It
  registers the connection id, creates the PTY and runs the `select!` loop over
  client messages and PTY output. It then always closes the connection, kills
  the PTY and removes the id. The race between the two sources is a script of
  events in the order the race delivers them. The registry is a class over a
  `seq<string>`, with `push` and `retain`.
- **In-memory PTY** (`memory_shell.dfy`, `memory_pty.dfy`):
  - `MemoryPty` is a class. Its output buffer and alive flag are shared cells, so clones see each other's changes.
  - `process_input` decodes the input lossily as UTF-8 and splits it into lines as `str::lines` does.
  - Each line is trimmed by Unicode White_Space and answered by the `match` arms.
- **Native backends**. Each is a class over its own `child_exited` bookkeeping:
  - `WindowsPty` (`windows_pty.dfy`): a worker thread and two bounded channels.
  - `UnixPty` (`unix_pty.dfy`): `AsyncFd` readiness loops.
  - `TokioPtyProcessPty` (`tokio_pty.dfy`): piped stdio, reading stdout first, then stderr.
  - `PortablePty` (`portable_pty.dfy`): blocking reader and writer.

  Every answer of the operating system is a parameter of the operation that consumes it:
  - readiness and reads;
  - channel contents;
  - spawn, kill and `try_wait` outcomes.
- **Factories** (`pty_factory.dfy`): `create_pty`, `create_pty_with_config` and
  `create_pty_with_factory` over the factories that have a `PtyFactory`
  implementation.
- **Configuration defaults** (`config.dfy`): `TerminalConfig::default`.
- **Support modules**:
  - `utf8.dfy`: `as_bytes`, `String::from_utf8` and `String::from_utf8_lossy`, following section 4 of RFC 3629.
  - `pty_types.dfy`: `PtyConfig`, the errors, `Poll`, `ReadBuf` and `ExitStatus`.
  - `commands.dfy`: the command built from a `PtyConfig`.

## Model

| member | source | states |
|---|---|---|
| Utf8.Encode | rs_terminal/src/service/session_handler.rs:55 | the bytes of a text message are at least as many as its characters |
| Utf8.DecodeSucceedsIffValid | rs_terminal/src/service/session_handler.rs:114 | `from_utf8` succeeds exactly on well-formed UTF-8 (RFC 3629 grammar) |
| Utf8.DecodeEncode | rs_terminal/src/service/session_handler.rs:114 | decoding the bytes of any string gives the string back |
| Utf8.EncodeDecode | rs_terminal/src/service/session_handler.rs:114-117 | bytes that decode are reproduced exactly by encoding the decoded text |
| Utf8.EncodeIsValid | rs_terminal/src/service/session_handler.rs:55 | the bytes of any string are well-formed UTF-8 |
| Utf8.EncodeAppend | rs_terminal/src/service/session_handler.rs:55 | encoding distributes over concatenation |
| Utf8.EncodeCharReadsBack | rs_terminal/src/service/session_handler.rs:114 | an encoded character is recognised with its own width and scalar value |
| Utf8.ScalarAtEncodesBack | rs_terminal/src/service/session_handler.rs:114 | a recognised character re-encodes to exactly the bytes it was read from |
| Utf8.SplitCharacterDoesNotDecode | rs_terminal/src/service/session_handler.rs:109-128 | a read that cuts U+20AC after two bytes is not UTF-8, so it goes out as binary |
| Utf8.LossyDecode | rs_terminal/src/pty/memory_pty.rs:41 | lossy decoding yields at most one character per byte |
| Utf8.LossyDecodeOfValid | rs_terminal/src/pty/memory_pty.rs:41 | on well-formed input `from_utf8_lossy` agrees with `from_utf8` |
| Utf8.LossyDecodeEncode | rs_terminal/src/pty/memory_pty.rs:41 | lossy decoding of a string's bytes gives the string back |
| Utf8.LossyReplacementExamples | rs_terminal/src/pty/memory_pty.rs:41 | a truncated character becomes one U+FFFD; an impossible byte is one U+FFFD and decoding goes on |
| PtyTypes.ExitCode | rs_terminal/src/pty/unix_pty_impl.rs:203 | an exit code exists only for a normal exit and fits in a byte |
| PtyTypes.DefaultIsSuccess | rs_terminal/src/pty/portable_pty_impl.rs:192 | `ExitStatus::default()` is a success with code 0 |
| PtyTypes.ReadBuf.PutSlice | rs_terminal/src/pty/memory_pty.rs:106 | `put_slice` appends exactly the slice after the filled part and uses up that much room |
| ProcessCommand.EnvLookup | rs_terminal/src/pty/unix_pty_impl.rs:36-38 | the configuration sets a variable exactly when some assignment names it, to the last value assigned |
| ProcessCommand.BuildCommand | rs_terminal/src/pty/unix_pty_impl.rs:28-43 | the command keeps the program, every argument in order, every variable in order, and the directory only when given |
| ProcessCommand.BuildArgsOnlyCommand | rs_terminal/src/pty/windows_pty_impl.rs:38-41 | the Windows command keeps the program and arguments, and has no environment or directory |
| ProcessCommand.EveryVariableSet | rs_terminal/src/pty/portable_pty_impl.rs:45-47 | every configured variable is set on the command, with its value when not assigned again later |
| ProcessCommand.LaterAssignmentWins | rs_terminal/src/pty/tokio_pty_process_pty_impl.rs:43-48 | a variable assigned twice has the later value |
| ProcessCommand.UnsetVariable | rs_terminal/src/pty/tokio_pty_process_pty_impl.rs:43-48 | a variable the configuration does not name is not set by it; the child may still inherit it |
| MemoryShell.TrimStart | rs_terminal/src/pty/memory_pty.rs:49 | the result is a suffix, starts with no blank, and only blanks were dropped |
| MemoryShell.TrimEnd | rs_terminal/src/pty/memory_pty.rs:49 | the result is a prefix, ends with no blank, and only blanks were dropped |
| MemoryShell.Trim | rs_terminal/src/pty/memory_pty.rs:49 | no blank at either end; empty exactly when the line is all blanks |
| MemoryShell.TrimStartMatches | rs_terminal/src/pty/memory_pty.rs:65 | the result is a suffix of the line that no longer starts with the pattern |
| MemoryShell.FirstLineFeed | rs_terminal/src/pty/memory_pty.rs:48 | the index of the first line feed, with no line feed before it |
| MemoryShell.StripCarriageReturn | rs_terminal/src/pty/memory_pty.rs:48 | at most one trailing CR is removed |
| MemoryShell.Lines | rs_terminal/src/pty/memory_pty.rs:48 | no line holds a line feed; there are no lines exactly when the text is empty |
| MemoryShell.Classify | rs_terminal/src/pty/memory_pty.rs:50-83 | `echo` and `exit` are recognised exactly; blank selects the empty arm; anything longer than four characters is unknown |
| MemoryShell.SingleLine | rs_terminal/src/pty/memory_pty.rs:48 | text without a line feed is one line, a trailing CR kept |
| MemoryShell.LineFeedEndsLine | rs_terminal/src/pty/memory_pty.rs:48 | a line ended by LF is one line followed by the lines of the rest |
| MemoryShell.CrLfEndsLine | rs_terminal/src/pty/memory_pty.rs:48 | a line ended by CR LF is the same line as one ended by LF |
| MemoryShell.HasExitMeansSomeLine | rs_terminal/src/pty/memory_pty.rs:67-71 | the input stops the PTY exactly when some line is `exit` |
| MemoryShell.ExitWordIsExit | rs_terminal/src/pty/memory_pty.rs:67 | the word `exit` is the exit command |
| MemoryShell.ExitRepliesExitText | rs_terminal/src/pty/memory_pty.rs:67-71 | the exit command is answered with the exit message |
| MemoryShell.ResponseStep | rs_terminal/src/pty/memory_pty.rs:48-85 | one more line appends its own response, and stops the PTY if it is `exit` |
| MemoryShell.ConcatAppend | rs_terminal/src/pty/memory_pty.rs:46 | the response text joins the per-line texts in order, whatever the split |
| MemoryShell.EachAppend | rs_terminal/src/pty/memory_pty.rs:48 | lines are answered one by one, whatever the split |
| MemoryShell.ResponseAppend | rs_terminal/src/pty/memory_pty.rs:46-87 | the response to two batches of lines is the two responses in order |
| MemoryShell.SingleExitLine | rs_terminal/src/pty/memory_pty.rs:67-71 | a lone `exit` line stops the PTY and prints only the exit message |
| MemoryShell.BlankLinesAreSilent | rs_terminal/src/pty/memory_pty.rs:83 | blank lines produce no output |
| MemoryShell.CdPatternNeverMatches | rs_terminal/src/pty/memory_pty.rs:57 | a trimmed line can never equal `"cd "`, so that pattern is dead |
| MemoryShell.TrimOfUnpadded | rs_terminal/src/pty/memory_pty.rs:49 | text with no blank at either end is its own trim |
| MemoryShell.EchoWithArgumentIsUnknown | rs_terminal/src/pty/memory_pty.rs:80-82 | `echo <text>` is reported as an unknown command |
| MemoryShell.LongLineIsUnknown | rs_terminal/src/pty/memory_pty.rs:80-82 | a trimmed line longer than four characters is reported as unknown |
| MemoryShell.BareEchoPrintsEmptyLine | rs_terminal/src/pty/memory_pty.rs:64-66 | `echo` followed by nothing but blanks prints an empty line |
| MemoryShell.PatternStripsItself | rs_terminal/src/pty/memory_pty.rs:65 | a text made of the pattern alone is stripped to nothing, so the echo arm prints an empty line |
| MemoryShell.IndentedEchoPrintsItsName | rs_terminal/src/pty/memory_pty.rs:65 | ` echo` prints `echo`, because the strip runs on the untrimmed line |
| MemoryShell.IndentedTrim | rs_terminal/src/pty/memory_pty.rs:49 | one leading blank before an unpadded word is trimmed away |
| MemoryShell.NoPatternPrefix | rs_terminal/src/pty/memory_pty.rs:65 | a text not starting with the pattern is left unchanged |
| MemoryShell.PaddingIsTrimmed | rs_terminal/src/pty/memory_pty.rs:49 | TAB and U+00A0 around a word are trimmed, as `char::is_whitespace` says |
| MemoryShell.SameTrimSameResponse | rs_terminal/src/pty/memory_pty.rs:49-50 | lines that trim alike get the same response, `echo` excepted |
| MemoryShell.ReplyIgnoresLine | rs_terminal/src/pty/memory_pty.rs:50-83 | only the echo arm looks at the untrimmed line |
| MemoryShell.PaddingIsIgnored | rs_terminal/src/pty/memory_pty.rs:49-50 | padding a command with blanks does not change its response |
| MemoryPtyModel.MemoryPty.constructor | rs_terminal/src/pty/memory_pty.rs:24-37 | a new PTY is alive, keeps the command and directory, and has the welcome line queued |
| MemoryPtyModel.MemoryPty.ProcessInput | rs_terminal/src/pty/memory_pty.rs:40-88 | the reply is the bytes of the lines' responses; the PTY dies exactly when a line is `exit` |
| MemoryPtyModel.MemoryPty.AnswerLines | rs_terminal/src/pty/memory_pty.rs:46-85 | the loop builds the responses of all lines in order and clears the flag on `exit` |
| MemoryPtyModel.MemoryPty.PollRead | rs_terminal/src/pty/memory_pty.rs:93-114 | Pending when empty; otherwise as much of the front as fits moves to the buffer, nothing lost or reordered |
| MemoryPtyModel.MemoryPty.PollWrite | rs_terminal/src/pty/memory_pty.rs:119-147 | BrokenPipe when dead; otherwise the whole input is accepted and its response queued |
| MemoryPtyModel.MemoryPty.Resize | rs_terminal/src/pty/memory_pty.rs:168-171 | always succeeds |
| MemoryPtyModel.MemoryPty.TryWait | rs_terminal/src/pty/memory_pty.rs:182-188 | a default, successful status exactly when the PTY is dead |
| MemoryPtyModel.MemoryPty.Kill | rs_terminal/src/pty/memory_pty.rs:190-194 | always succeeds and marks the PTY dead |
| MemoryPtyModel.MemoryPty.Clone | rs_terminal/src/pty/memory_pty.rs:198-206 | a clone shares the buffer and the alive flag |
| MemoryPtyModel.CreateMemoryPty | rs_terminal/src/pty/memory_pty.rs:215-218 | the memory factory never fails and yields a live PTY with the welcome line |
| MemoryPtyModel.KillThroughClone | rs_terminal/src/pty/memory_pty.rs:198-206 | a kill through a clone makes writes through the original fail |
| MemoryPtyModel.WriteAfterExit | rs_terminal/src/pty/memory_pty.rs:119-147 | after an `exit` line the next write is refused and nothing more is queued |
| MemoryPtyModel.ExitLineStopsPty | rs_terminal/src/pty/memory_pty.rs:67-71 | `exit` followed by LF, as bytes, stops the PTY and answers the exit message alone |
| MemoryPtyModel.LineWithLineFeed | rs_terminal/src/pty/memory_pty.rs:41-48 | a line and its LF, as bytes, read back as that one line |
| WindowsPtyModel.FlattenAppend | rs_terminal/src/pty/windows_pty_impl.rs:91-105 | the bytes of queued items are the bytes of each run in order |
| WindowsPtyModel.Worker.Step | rs_terminal/src/pty/windows_pty_impl.rs:84-123 | data is sent as a chunk of at most 4096 bytes; EOF sends the empty chunk and stops; WouldBlock sends nothing; other errors are sent and stop; a live turn writes the oldest queued input |
| WindowsPtyModel.Worker.Stop | rs_terminal/src/pty/windows_pty_impl.rs:77-125 | leaving the loop drops both channel ends and nothing else changes |
| WindowsPtyModel.WindowsRead | rs_terminal/src/pty/windows_pty_impl.rs:129-171 | Pending exactly when nothing is staged or queued and the sender is alive; end of file delivers nothing |
| WindowsPtyModel.WindowsPty.constructor | rs_terminal/src/pty/windows_pty_impl.rs:56-63 | a new PTY is alive with nothing staged |
| WindowsPtyModel.WindowsPty.PollRead | rs_terminal/src/pty/windows_pty_impl.rs:129-171 | the read does what `WindowsRead` says for the staged bytes, the queue and the room |
| WindowsPtyModel.WindowsPty.PollChannel | rs_terminal/src/pty/windows_pty_impl.rs:152-170 | with nothing staged, the next item decides, as `WindowsRead` says |
| WindowsPtyModel.WindowsPty.ServeStaged | rs_terminal/src/pty/windows_pty_impl.rs:135-149 | the staged bytes that fit are copied and the rest stay staged |
| WindowsPtyModel.WindowsPty.PollWrite | rs_terminal/src/pty/windows_pty_impl.rs:176-202 | BrokenPipe once exited or when the worker is gone; Pending when full; otherwise queued whole |
| WindowsPtyModel.WindowsPty.Resize | rs_terminal/src/pty/windows_pty_impl.rs:219-223 | always succeeds |
| WindowsPtyModel.WindowsPty.TryWait | rs_terminal/src/pty/windows_pty_impl.rs:234-241 | never reports a status |
| WindowsPtyModel.WindowsPty.Kill | rs_terminal/src/pty/windows_pty_impl.rs:243-252 | a no-op once exited; otherwise only a successful kill marks the child exited |
| WindowsPtyModel.NewWindowsPty | rs_terminal/src/pty/windows_pty_impl.rs:26-64 | the first failing step's error, or a live PTY wired to a running worker by two empty channels |
| WindowsPtyModel.ReadConserves | rs_terminal/src/pty/windows_pty_impl.rs:129-171 | delivered, still staged and still queued bytes are exactly the bytes there were, in order |
| WindowsPtyModel.EndOfFileOnlyWhenDrained | rs_terminal/src/pty/windows_pty_impl.rs:152-169 | end of file exactly for nothing staged and the empty chunk or a closed, drained channel |
| WindowsPtyModel.ErrorDeliversNothing | rs_terminal/src/pty/windows_pty_impl.rs:164 | a queued error is returned alone and the items behind it stay queued |
| WindowsPtyModel.WorkerOutputIsRead | rs_terminal/src/pty/windows_pty_impl.rs:94-98 | bytes the worker reads reach the reader unchanged |
| WindowsPtyModel.EndOfFileStopsWrites | rs_terminal/src/pty/windows_pty_impl.rs:153-157 | after the worker's EOF the PTY is dead and writes are refused |
| UnixPtyModel.UnixRead | rs_terminal/src/pty/unix_pty_impl.rs:73-113 | delivers at most the room left; end of file delivers nothing; data means Ready |
| UnixPtyModel.StatusFromCode | rs_terminal/src/pty/unix_pty_impl.rs:203 | the status built from an exit code below 256 reports that code |
| UnixPtyModel.AsWrittenLosesExitCode | rs_terminal/src/pty/unix_pty_impl.rs:203 | as written, exit codes 1 to 127 come back with no code and not successful |
| UnixPtyModel.ExitCodeOneExample | rs_terminal/src/pty/unix_pty_impl.rs:203 | exit code 1: no code as written, code 1 when shifted |
| UnixPtyModel.UnixPty.constructor | rs_terminal/src/pty/unix_pty_impl.rs:51-55 | a new PTY is alive, at the configured size |
| UnixPtyModel.UnixPty.PollRead | rs_terminal/src/pty/unix_pty_impl.rs:61-114 | end of file once exited; otherwise the loop's result as `UnixRead` says, and EOF marks the child exited |
| UnixPtyModel.UnixPty.PollWrite | rs_terminal/src/pty/unix_pty_impl.rs:119-145 | BrokenPipe once exited; otherwise the loop's result as `UnixWrite` says |
| UnixPtyModel.UnixPty.Resize | rs_terminal/src/pty/unix_pty_impl.rs:158-173 | ProcessTerminated once exited; otherwise the master's answer, and the new size only on success |
| UnixPtyModel.UnixPty.TryWait | rs_terminal/src/pty/unix_pty_impl.rs:190-212 | Ok(None) once exited; otherwise the child's answer, an exit recorded with a status carrying its code |
| UnixPtyModel.UnixPty.Kill | rs_terminal/src/pty/unix_pty_impl.rs:214-222 | a no-op once exited; otherwise only a successful kill marks the child exited |
| UnixPtyModel.NewUnixPty | rs_terminal/src/pty/unix_pty_impl.rs:18-56 | the first failing step's error, or a live PTY spawned with the configured command |
| UnixPtyModel.KillTwice | rs_terminal/src/pty/unix_pty_impl.rs:214-222 | after a successful kill a second kill succeeds without the child |
| UnixPtyModel.EndOfFileIsFinal | rs_terminal/src/pty/unix_pty_impl.rs:102-106 | after end of file, reads stay at end of file and writes are refused |
| UnixPtyModel.ReadDeliversPrefix | rs_terminal/src/pty/unix_pty_impl.rs:86-94 | delivered bytes are a prefix of what one successful read returned |
| UnixPtyModel.FailedReadsRetry | rs_terminal/src/pty/unix_pty_impl.rs:108-111 | failed reads are skipped and the loop goes on |
| UnixPtyModel.BlockedWritesRetry | rs_terminal/src/pty/unix_pty_impl.rs:140-143 | WouldBlock writes are skipped and the loop goes on |
| UnixPtyModel.WriteErrorReturned | rs_terminal/src/pty/unix_pty_impl.rs:140-141 | any other write error is returned at once |
| TokioPtyModel.Taken | rs_terminal/src/pty/tokio_pty_process_pty_impl.rs:112 | a pipe read delivers a prefix that fits the room left |
| TokioPtyModel.TokioRead | rs_terminal/src/pty/tokio_pty_process_pty_impl.rs:94-146 | delivers at most the room left; the exit is seen exactly when `try_wait` reports one |
| TokioPtyModel.TokioPty.constructor | rs_terminal/src/pty/tokio_pty_process_pty_impl.rs:80-88 | a new PTY is alive at the configured size |
| TokioPtyModel.TokioPty.PollRead | rs_terminal/src/pty/tokio_pty_process_pty_impl.rs:94-146 | the read does what `TokioRead` says, and an observed exit is recorded |
| TokioPtyModel.TokioPty.PollWrite | rs_terminal/src/pty/tokio_pty_process_pty_impl.rs:151-174 | BrokenPipe once exited; otherwise stdin's answer |
| TokioPtyModel.TokioPty.Resize | rs_terminal/src/pty/tokio_pty_process_pty_impl.rs:201-212 | records the size and succeeds |
| TokioPtyModel.TokioPty.TryWait | rs_terminal/src/pty/tokio_pty_process_pty_impl.rs:225-249 | Ok(None) once exited; otherwise the child's status, an exit recorded, a failure as Other |
| TokioPtyModel.TokioPty.Kill | rs_terminal/src/pty/tokio_pty_process_pty_impl.rs:252-262 | always asks the child; failure is Other, success marks it exited |
| TokioPtyModel.NewTokioPty | rs_terminal/src/pty/tokio_pty_process_pty_impl.rs:22-89 | spawn failure and each missing pipe give SpawnFailed with their reason; otherwise a live PTY |
| TokioPtyModel.StdoutFirst | rs_terminal/src/pty/tokio_pty_process_pty_impl.rs:114-118 | data on stdout decides the read and stderr is not consulted |
| TokioPtyModel.StdoutErrorIsSwallowed | rs_terminal/src/pty/tokio_pty_process_pty_impl.rs:119-122 | a stdout error is never reported; the read goes on as if stdout had nothing |
| TokioPtyModel.ExitEndsRead | rs_terminal/src/pty/tokio_pty_process_pty_impl.rs:102-109 | an observed exit ends the read with no data |
| TokioPtyModel.WaitErrorIgnoredByRead | rs_terminal/src/pty/tokio_pty_process_pty_impl.rs:102 | a failing `try_wait` is ignored by the read |
| TokioPtyModel.PendingOnlyWhenBothIdle | rs_terminal/src/pty/tokio_pty_process_pty_impl.rs:141-144 | Pending exactly when no exit, no stdout data and stderr Pending |
| TokioPtyModel.KillAfterExit | rs_terminal/src/pty/tokio_pty_process_pty_impl.rs:252-262 | a kill after exit asks the child again and reports its error |
| PortablePtyModel.PortableRead | rs_terminal/src/pty/portable_pty_impl.rs:75-106 | at most the room left, a prefix of what the reader had; Pending exactly on WouldBlock |
| PortablePtyModel.PortableWrite | rs_terminal/src/pty/portable_pty_impl.rs:111-126 | Pending exactly on WouldBlock; otherwise the writer's result |
| PortablePtyModel.PortablePty.constructor | rs_terminal/src/pty/portable_pty_impl.rs:61-69 | a new PTY is alive at the configured size |
| PortablePtyModel.PortablePty.PollRead | rs_terminal/src/pty/portable_pty_impl.rs:75-106 | the read does what `PortableRead` says |
| PortablePtyModel.PortablePty.PollWrite | rs_terminal/src/pty/portable_pty_impl.rs:111-126 | not guarded by `child_exited`; the writer's answer |
| PortablePtyModel.PortablePty.Resize | rs_terminal/src/pty/portable_pty_impl.rs:153-167 | the master's answer; the recorded size changes only on success |
| PortablePtyModel.PortablePty.TryWait | rs_terminal/src/pty/portable_pty_impl.rs:181-196 | Ok(None) once exited; an exit is recorded and reported as the default status |
| PortablePtyModel.PortablePty.Kill | rs_terminal/src/pty/portable_pty_impl.rs:199-206 | not guarded; only a successful kill marks the child exited |
| PortablePtyModel.NewPortablePty | rs_terminal/src/pty/portable_pty_impl.rs:23-70 | the first failing step's error, or a live PTY spawned with the configured command |
| PortablePtyModel.EndOfFileKeepsAlive | rs_terminal/src/pty/portable_pty_impl.rs:94-97 | end of file does not mark the child exited; writes still go through |
| PortablePtyModel.ExitStatusIsDiscarded | rs_terminal/src/pty/portable_pty_impl.rs:189-193 | whatever the child's status, `try_wait` reports success |
| PtyFactory.Name | rs_terminal/src/pty/memory_pty.rs:220-222 | the names are `memory-pty`, `portable-pty`, `unix-pty` and `tokio-pty-process`, one per factory |
| PtyFactory.DefaultPtyConfig | rs_terminal/src/pty/mod.rs:20-30 | `bash` with no arguments or directory, at 80 by 24, setting TERM=xterm-256color then COLORTERM=truecolor |
| PtyFactory.CreatePtyWithFactory | rs_terminal/src/pty/mod.rs:45-50 | the factory's first setup error, or a live PTY of its kind |
| PtyFactory.CreatePtyWithConfig | rs_terminal/src/pty/mod.rs:40-42 | always the memory factory, so it never fails |
| PtyFactory.CreatePty | rs_terminal/src/pty/mod.rs:18-37 | a live in-memory PTY greeting with `bash` |
| PtyFactory.DefaultEnvironment | rs_terminal/src/pty/mod.rs:25-28 | the default configuration sets TERM and COLORTERM and no other variable |
| PtyFactory.NamesDistinct | rs_terminal/src/pty/mod.rs:45-50 | distinct factories have distinct names |
| TerminalConfigModel.DefaultShell | rs_terminal/src/config/config.rs:63-73 | a built-in entry has no directory and no size of its own |
| TerminalConfigModel.DefaultShells | rs_terminal/src/config/config.rs:60-97 | exactly bash, cmd and powershell; each sets TERM; only bash sets PATH |
| TerminalConfigModel.DefaultTerminalConfig | rs_terminal/src/config/config.rs:51-110 | the default shell is in the table (cmd on Windows, bash elsewhere); 80 by 24, `.`, 30 minutes |
| TerminalConfigModel.ShellCommands | rs_terminal/src/config/config.rs:64-89 | the command line of each built-in shell |
| TerminalConfigModel.BashPath | rs_terminal/src/config/config.rs:67-96 | the environment of each built-in shell |
| SessionHandler.ReadBytes | rs_terminal/src/service/session_handler.rs:44 | a read delivers at most 4096 bytes, a prefix of what the PTY had |
| SessionHandler.Dispatch | rs_terminal/src/service/session_handler.rs:46-137 | one event makes at most one call |
| SessionHandler.LoopCalls | rs_terminal/src/service/session_handler.rs:45-138 | the loop makes at most one call per event |
| SessionHandler.Without | rs_terminal/src/service/session_handler.rs:35 | `retain` never adds ids |
| SessionHandler.Registry.constructor | rs_terminal/src/app_state/app_state.rs:14-18 | the registry starts empty |
| SessionHandler.Registry.Push | rs_terminal/src/service/session_handler.rs:19-21 | the id is added at the end |
| SessionHandler.Registry.RemoveAll | rs_terminal/src/service/session_handler.rs:154-156 | every occurrence of the id is removed and the rest keep their order |
| SessionHandler.HandleTerminalSession | rs_terminal/src/service/session_handler.rs:9-159 | the calls made are the session's calls; afterwards the registry no longer holds the id |
| SessionHandler.RunLoop | rs_terminal/src/service/session_handler.rs:45-138 | the loop makes the calls of the events up to the one that breaks out |
| SessionHandler.HandleEvent | rs_terminal/src/service/session_handler.rs:48-136 | one turn makes the call of its arm and breaks exactly when the arm does |
| SessionHandler.LoopCallsAt | rs_terminal/src/service/session_handler.rs:45-138 | one turn of the loop in terms of the rest of the script |
| SessionHandler.ReadInto | rs_terminal/src/service/session_handler.rs:98 | the buffer's front holds what the read delivered |
| SessionHandler.OutputForwardedVerbatim | rs_terminal/src/service/session_handler.rs:105-129 | PTY output that fits the buffer reaches the client byte for byte, as text exactly when it is UTF-8 |
| SessionHandler.LongReadIsCut | rs_terminal/src/service/session_handler.rs:109 | a read larger than the buffer delivers only its first 4096 bytes |
| SessionHandler.InboundWrittenUnchanged | rs_terminal/src/service/session_handler.rs:52-67 | client text and binary reach the PTY unchanged; a failed write ends the loop |
| SessionHandler.StopConditions | rs_terminal/src/service/session_handler.rs:46-137 | exactly Close, errors, end of stream, end of file and failed calls end the loop |
| SessionHandler.NothingAfterStop | rs_terminal/src/service/session_handler.rs:45-138 | events after the first stopping one have no effect |
| SessionHandler.LoopCallsAppend | rs_terminal/src/service/session_handler.rs:45-138 | while every event continues, the calls are the events' calls in order |
| SessionHandler.CleanupRunsLast | rs_terminal/src/service/session_handler.rs:140-151 | a set-up session always ends with close and then kill, and neither happens earlier |
| SessionHandler.LoopHasNoCleanup | rs_terminal/src/service/session_handler.rs:45-138 | the loop never closes the connection or kills the PTY |
| SessionHandler.DispatchNoCleanup | rs_terminal/src/service/session_handler.rs:46-137 | no single event closes the connection or kills the PTY |
| SessionHandler.CreateFailureReported | rs_terminal/src/service/session_handler.rs:24-38 | a failed creation sends the reason, closes the connection, and never touches a PTY |
| SessionHandler.PingsAnswered | rs_terminal/src/service/session_handler.rs:68-75 | each ping is answered with one Pong |
| SessionHandler.RegistryAfterSession | rs_terminal/src/service/session_handler.rs:153-156 | after a session its id is gone and every other id is as before |
| SessionHandler.WithoutRemoves | rs_terminal/src/service/session_handler.rs:155 | `retain` leaves no occurrence of the id |
| SessionHandler.WithoutKeeps | rs_terminal/src/service/session_handler.rs:155 | `retain` keeps every other id |

## Left out

- Asynchrony is not modelled:
  - `select!`, task wake-ups, `Context` and the locks.
  - A poll is one call whose outside answers are parameters.
  - The race in the session loop is a script of events in delivery order.
- Operating-system and library calls are not modelled; their outcomes are parameters. This covers:
  - opening PTYs and spawning children;
  - reads and writes on descriptors, pipes and the master;
  - readiness polls;
  - `kill` and `try_wait`;
  - `AsyncFd` registration.
- Logging (`info!`, `debug!`, `error!`) has no observable effect and is left out.
- The memory PTY's `tokio::spawn` in `poll_write` is modelled as running to completion before `poll_write` returns. The source lets it run later. The model does not capture a read that overtakes the response. Nor does it capture a write issued before the spawned task has handled an `exit` line: the source accepts it, so `WriteAfterExit` holds only for the synchronous model.
- The Windows worker thread is modelled one loop turn at a time (`Worker.Step`). Its 10 ms sleep is left out.
- The Windows read channel is modelled as unbounded, because the worker's `blocking_send` waits rather than dropping data.
- The write-side `Disconnected` outcome of the Windows worker's `try_recv` cannot happen while the PTY holds the sender, so it is not modelled.
- UnixPtyModel.UnixRead: the `poll_read` closure in `unix_pty_impl.rs` does not type-check against `AsyncFd::try_io` as written. The model follows the visible match arms: any read error retries, and a read of no bytes is end of file.
- UnixPtyModel.UnixRead: the loop on a finite script ends with Pending when the script runs out. The source would wait for the next readiness event.
- `windows_pty_impl.rs`, `unix_pty_impl.rs` and `tokio_pty_process_pty_impl.rs` are not declared in `pty/mod.rs`. They are modelled as written. `PtyFactory.Factory` lists the factories the files define; Windows has none.
- TokioPtyModel.TokioPty: `pid` returns the child's operating-system id, which is an outside value and is left out. The other backends' `pid` is modelled (`None`).
- Partial writes are not modelled: `write_all` on the Windows master is a single entry in `masterInput`.
- `poll_flush` and `poll_shutdown` of every backend are left out. They either succeed at once or pass through to the OS. The Windows `poll_shutdown` drops a clone of the sender, which changes nothing.
- ProcessCommand.EnvLookup: gives only the value the configuration sets. The environment a child inherits from the server is not modelled; no backend clears it, so the child sees the server's environment with the configured variables set on top.
- ProcessCommand.UnsetVariable: a variable the configuration does not name is not set by the configuration, but the child may still inherit it from the server.
- Unicode: `char::is_whitespace` is written out as the White_Space property. Characters are Unicode scalar values; there is no normalisation.
- UnixPtyModel.UnixPty.TryWait requires the child's exit code to fit in 32 bits, the width of `portable_pty::ExitStatus::code()`.
- The model's `UnixPty.TryWait` uses the corrected conversion `StatusFromCode` (see Findings). The as-written conversion is `StatusFromCodeAsWritten`.
- `PtyTypes.ExitStatus` models the Unix status word only. The Windows `from_raw(u32)` branch at `unix_pty_impl.rs:205-208` is not compiled on Unix and is left out.
- The client protocol (`TerminalConnection`, WebSocket and WebTransport framing), the REST handlers, `PtyManager` and `expectrl_pty_impl.rs` are not part of this model.

## Findings

| source | as written | input that shows it | evidently intended | confidence | as-written member | corrected member |
|---|---|---|---|---|---|---|
| rs_terminal/src/pty/unix_pty_impl.rs:203 | `ExitStatus::from_raw(status.code() as i32)` passes the child's exit code where a raw wait status is expected | a child that exits with code 1: the status word 1 reads as "killed by signal 1", so `code()` is None and `success()` is false; any code 1 to 127 does the same | shift the code into the exit-code byte (`code << 8`), so `code()` gives back the child's code | not executed | UnixPtyModel.AsWrittenLosesExitCode | UnixPtyModel.StatusFromCode |
