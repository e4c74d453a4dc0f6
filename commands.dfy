/**
  The command a native backend asks the operating system to run, as built
  from a `PtyConfig` by `CommandBuilder` (portable-pty) or
  `tokio::process::Command`: program, arguments in order, environment
  assignments and an optional working directory.
*/
module ProcessCommand {
  import opened Utf8
  import opened PtyTypes

  datatype CommandSpec = CommandSpec(
    program: string,
    args: seq<string>,
    env: seq<(string, string)>,
    cwd: Option<string>)

  /** A command builder before any argument, variable or directory is set (`CommandBuilder::new`). */
  function NewCommand(program: string): CommandSpec {
    CommandSpec(program, [], [], None)
  }

  /**
    The value the configuration sets for `key`: the last assignment wins, as
    each `env(key, value)` call overwrites the previous one in the builder's
    map. A key it does not set keeps whatever the child inherits from the
    server's own environment, which is not part of this model.
  */
  function EnvLookup(env: seq<(string, string)>, key: string): (v: Option<string>)
    ensures v.Some? <==> exists i :: 0 <= i < |env| && env[i].0 == key
  {
    if env == [] then None
    else if env[|env| - 1].0 == key then Some(env[|env| - 1].1)
    else
      var v := EnvLookup(env[..|env| - 1], key);
      assert forall i :: 0 <= i < |env| - 1 ==> env[..|env| - 1][i] == env[i];
      v
  }

  /**
    The builder loops of the Unix and tokio backends: `arg` for each argument
    in order, `env` for each pair in order, and the directory only when set.
  */
  method BuildCommand(config: PtyConfig) returns (cmd: CommandSpec)
    ensures cmd.program == config.command && cmd.args == config.args
    ensures cmd.env == config.env && cmd.cwd == config.cwd
  {
    cmd := NewCommand(config.command);
    var i := 0;
    while i < |config.args|
      invariant 0 <= i <= |config.args|
      invariant cmd == CommandSpec(config.command, config.args[..i], [], None)
    {
      cmd := cmd.(args := cmd.args + [config.args[i]]);
      assert config.args[..i + 1] == config.args[..i] + [config.args[i]];
      i := i + 1;
    }
    assert config.args[..i] == config.args;
    var j := 0;
    while j < |config.env|
      invariant 0 <= j <= |config.env|
      invariant cmd == CommandSpec(config.command, config.args, config.env[..j], None)
    {
      cmd := cmd.(env := cmd.env + [config.env[j]]);
      assert config.env[..j + 1] == config.env[..j] + [config.env[j]];
      j := j + 1;
    }
    assert config.env[..j] == config.env;
    if config.cwd.Some? {
      cmd := cmd.(cwd := config.cwd);
    }
  }

  /** The Windows backend's builder: the arguments in order, and neither environment nor directory. */
  method BuildArgsOnlyCommand(config: PtyConfig) returns (cmd: CommandSpec)
    ensures cmd.program == config.command && cmd.args == config.args
    ensures cmd.env == [] && cmd.cwd == None
  {
    cmd := NewCommand(config.command);
    var i := 0;
    while i < |config.args|
      invariant 0 <= i <= |config.args|
      invariant cmd == CommandSpec(config.command, config.args[..i], [], None)
    {
      cmd := cmd.(args := cmd.args + [config.args[i]]);
      assert config.args[..i + 1] == config.args[..i] + [config.args[i]];
      i := i + 1;
    }
    assert config.args[..i] == config.args;
  }

  /** Every variable of the configuration reaches the child, with its last value. */
  lemma {:induction false} EveryVariableSet(env: seq<(string, string)>, i: nat)
    requires i < |env|
    ensures EnvLookup(env, env[i].0).Some?
    ensures (forall j :: i < j < |env| ==> env[j].0 != env[i].0) ==> EnvLookup(env, env[i].0) == Some(env[i].1)
  {
    if i < |env| - 1 {
      EveryVariableSet(env[..|env| - 1], i);
      assert env[..|env| - 1][i] == env[i];
      if forall j :: i < j < |env| ==> env[j].0 != env[i].0 {
        assert env[|env| - 1].0 != env[i].0;
        assert forall j :: i < j < |env| - 1 ==> env[..|env| - 1][j] == env[j];
      }
    }
  }

  /** Setting a variable again overrides the earlier value. */
  lemma LaterAssignmentWins(env: seq<(string, string)>, key: string, first: string, second: string)
    ensures EnvLookup(env + [(key, first), (key, second)], key) == Some(second)
  {
  }

  /** A variable the configuration does not mention is not set by it (the child may still inherit it). */
  lemma UnsetVariable(env: seq<(string, string)>, key: string)
    requires forall i :: 0 <= i < |env| ==> env[i].0 != key
    ensures EnvLookup(env, key) == None
  {
  }
}
