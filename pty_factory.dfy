/**
  The PTY entry points: the default `PtyConfig`, `create_pty` and
  `create_pty_with_config` (both through the in-memory factory), and
  `create_pty_with_factory`, which hands the configuration to the chosen
  factory. A created PTY is one of the backends, tagged by its kind.
*/
module PtyFactory {
  import opened Utf8
  import opened PtyTypes
  import opened ProcessCommand
  import MemoryPtyModel
  import UnixPtyModel
  import TokioPtyModel
  import PortablePtyModel

  /** The factories the PTY layer offers. */
  datatype Factory = MemoryFactory | PortableFactory | UnixFactory | TokioFactory

  /** What a factory returns: a PTY of one of the backends. */
  datatype AnyPty =
    | MemoryBacked(memory: MemoryPtyModel.MemoryPty)
    | PortableBacked(portable: PortablePtyModel.PortablePty)
    | UnixBacked(unix: UnixPtyModel.UnixPty)
    | TokioBacked(tokio: TokioPtyModel.TokioPty)

  /**
    The operating system's answers to a native factory's setup steps, in the
    order the backends take them; each backend uses the ones it needs.
  */
  datatype Setup = Setup(
    openPty: Result<(), PtyError>,
    started: Result<(), PtyError>,
    reader: Result<(), PtyError>,
    writer: Result<(), PtyError>,
    registered: Result<(), PtyError>,
    spawn: Result<(), string>,
    hasStdin: bool,
    hasStdout: bool,
    hasStderr: bool)

  /** `PtyFactory::name` for each factory: the name each backend declares. */
  function Name(f: Factory): (n: string)
    ensures f == MemoryFactory <==> n == "memory-pty"
    ensures f == PortableFactory <==> n == "portable-pty"
    ensures f == UnixFactory <==> n == "unix-pty"
    ensures f == TokioFactory <==> n == "tokio-pty-process"
  {
    match f
    case MemoryFactory => MemoryPtyModel.FactoryName
    case PortableFactory => PortablePtyModel.FactoryName
    case UnixFactory => UnixPtyModel.FactoryName
    case TokioFactory => TokioPtyModel.FactoryName
  }

  /** The first failing setup step of a factory, if any; the in-memory factory has none. */
  function SetupError(f: Factory, s: Setup): Option<PtyError> {
    match f
    case MemoryFactory => None
    case PortableFactory =>
      if s.openPty.Err? then Some(s.openPty.error)
      else if s.started.Err? then Some(s.started.error)
      else if s.reader.Err? then Some(s.reader.error)
      else if s.writer.Err? then Some(s.writer.error)
      else None
    case UnixFactory =>
      if s.openPty.Err? then Some(s.openPty.error)
      else if s.started.Err? then Some(s.started.error)
      else if s.registered.Err? then Some(s.registered.error)
      else None
    case TokioFactory =>
      if s.spawn.Err? then Some(SpawnFailed(s.spawn.error))
      else if !s.hasStdin then Some(SpawnFailed("Failed to get stdin"))
      else if !s.hasStdout then Some(SpawnFailed("Failed to get stdout"))
      else if !s.hasStderr then Some(SpawnFailed("Failed to get stderr"))
      else None
  }

  /** Whether a PTY came from the given factory. */
  predicate MadeBy(p: AnyPty, f: Factory) {
    match f
    case MemoryFactory => p.MemoryBacked?
    case PortableFactory => p.PortableBacked?
    case UnixFactory => p.UnixBacked?
    case TokioFactory => p.TokioBacked?
  }

  /** Whether a PTY is alive. */
  predicate Alive(p: AnyPty)
    reads match p
      case MemoryBacked(m) => {m.flag}
      case PortableBacked(q) => {q}
      case UnixBacked(u) => {u}
      case TokioBacked(t) => {t}
  {
    match p
    case MemoryBacked(m) => m.IsAlive()
    case PortableBacked(q) => q.IsAlive()
    case UnixBacked(u) => u.IsAlive()
    case TokioBacked(t) => t.IsAlive()
  }

  /** The configuration `create_pty` uses. */
  function DefaultPtyConfig(): (c: PtyConfig)
    ensures c.command == "bash" && c.args == [] && c.cwd == None && c.cols == 80 && c.rows == 24
    ensures c.env == [("TERM", "xterm-256color"), ("COLORTERM", "truecolor")]
  {
    PtyConfig("bash", [], 80, 24, [("TERM", "xterm-256color"), ("COLORTERM", "truecolor")], None)
  }

  /**
    `create_pty_with_factory`: whatever the factory's `create` returns for the
    configuration: its first setup error, or a new, live PTY of its kind.
  */
  method CreatePtyWithFactory(f: Factory, config: PtyConfig, setup: Setup) returns (r: Result<AnyPty, PtyError>)
    ensures SetupError(f, setup).Some? ==> r == Err(SetupError(f, setup).value)
    ensures SetupError(f, setup).None? ==> r.Ok? && MadeBy(r.value, f) && Alive(r.value)
    ensures r.Ok? && r.value.MemoryBacked? ==>
      fresh(r.value.memory) && r.value.memory.output.bytes == Encode(MemoryPtyModel.WelcomeText(config.command)) &&
      r.value.memory.cwd == config.cwd
    ensures r.Ok? && r.value.PortableBacked? ==>
      fresh(r.value.portable) && r.value.portable.spawned == CommandSpec(config.command, config.args, config.env, config.cwd)
    ensures r.Ok? && r.value.UnixBacked? ==>
      fresh(r.value.unix) && r.value.unix.spawned == CommandSpec(config.command, config.args, config.env, config.cwd)
    ensures r.Ok? && r.value.TokioBacked? ==>
      fresh(r.value.tokio) && r.value.tokio.spawned == CommandSpec(config.command, config.args, config.env, config.cwd)
  {
    match f {
      case MemoryFactory =>
        var m := MemoryPtyModel.CreateMemoryPty(config);
        r := Ok(MemoryBacked(m.value));
      case PortableFactory =>
        var q := PortablePtyModel.NewPortablePty(config, setup.openPty, setup.started, setup.reader, setup.writer);
        r := if q.Ok? then Ok(PortableBacked(q.value)) else Err(q.error);
      case UnixFactory =>
        var u := UnixPtyModel.NewUnixPty(config, setup.openPty, setup.started, setup.registered);
        r := if u.Ok? then Ok(UnixBacked(u.value)) else Err(u.error);
      case TokioFactory =>
        var t := TokioPtyModel.NewTokioPty(config, setup.spawn, setup.hasStdin, setup.hasStdout, setup.hasStderr);
        r := if t.Ok? then Ok(TokioBacked(t.value)) else Err(t.error);
    }
  }

  /** `create_pty_with_config`: always the in-memory factory, so it never fails. */
  method CreatePtyWithConfig(config: PtyConfig) returns (r: Result<AnyPty, PtyError>)
    ensures r.Ok? && r.value.MemoryBacked? && fresh(r.value.memory) && Alive(r.value)
    ensures r.value.memory.output.bytes == Encode(MemoryPtyModel.WelcomeText(config.command))
    ensures r.value.memory.cwd == config.cwd
  {
    var m := MemoryPtyModel.CreateMemoryPty(config);
    r := Ok(MemoryBacked(m.value));
  }

  /** `create_pty`: the in-memory PTY for `bash` with the default configuration; it greets with that command. */
  method CreatePty() returns (r: Result<AnyPty, PtyError>)
    ensures r.Ok? && r.value.MemoryBacked? && fresh(r.value.memory) && Alive(r.value)
    ensures r.value.memory.output.bytes == Encode(MemoryPtyModel.WelcomeText("bash"))
    ensures r.value.memory.cwd == None
  {
    r := CreatePtyWithConfig(DefaultPtyConfig());
  }

  /** The default configuration sets exactly TERM and COLORTERM on top of what the child inherits. */
  lemma DefaultEnvironment(key: string)
    ensures EnvLookup(DefaultPtyConfig().env, key) ==
      if key == "COLORTERM" then Some("truecolor")
      else if key == "TERM" then Some("xterm-256color")
      else None
  {
  }

  /** The factories have distinct names. */
  lemma NamesDistinct(f: Factory, g: Factory)
    requires f != g
    ensures Name(f) != Name(g)
  {
  }
}
