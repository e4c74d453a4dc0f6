/**
  The terminal server's built-in configuration (`TerminalConfig::default`):
  the default shell, size, directory and session timeout, and the table of
  known shells. The only input is the platform the server was built for.
*/
module TerminalConfigModel {
  import opened Utf8
  import opened PtyTypes

  datatype TerminalSize = TerminalSize(columns: u16, rows: u16)

  datatype ShellConfig = ShellConfig(
    command: seq<string>,
    workingDirectory: Option<string>,
    size: Option<TerminalSize>,
    environment: map<string, string>)

  datatype TerminalConfig = TerminalConfig(
    defaultShellType: string,
    defaultSize: TerminalSize,
    defaultWorkingDirectory: string,
    /** milliseconds */
    sessionTimeout: nat,
    shells: map<string, ShellConfig>)

  const Term := "xterm-256color"
  const SystemPath := "/usr/local/sbin:/usr/local/bin:/usr/sbin:/usr/bin:/sbin:/bin"

  /** A shell entry as the defaults write it: no directory, no size of its own. */
  function DefaultShell(command: seq<string>, environment: map<string, string>): (s: ShellConfig)
    ensures s.workingDirectory == None && s.size == None
    ensures s.command == command && s.environment == environment
  {
    ShellConfig(command, None, None, environment)
  }

  /** The built-in shell table. */
  function DefaultShells(): (shells: map<string, ShellConfig>)
    ensures shells.Keys == {"bash", "cmd", "powershell"}
    ensures forall k :: k in shells ==>
      shells[k].workingDirectory == None && shells[k].size == None &&
      "TERM" in shells[k].environment && shells[k].environment["TERM"] == Term &&
      ("PATH" in shells[k].environment <==> k == "bash")
  {
    map[
      "bash" := DefaultShell(["bash", "-l"], map["TERM" := Term, "PATH" := SystemPath]),
      "cmd" := DefaultShell(["cmd.exe", "/c", "cmd"], map["TERM" := Term]),
      "powershell" := DefaultShell(["powershell.exe"], map["TERM" := Term])]
  }

  /** `TerminalConfig::default` on a Windows build (`onWindows`) or any other. */
  function DefaultTerminalConfig(onWindows: bool): (c: TerminalConfig)
    ensures c.defaultShellType in c.shells
    ensures c.defaultShellType == (if onWindows then "cmd" else "bash")
    ensures c.defaultSize == TerminalSize(80, 24)
    ensures c.defaultWorkingDirectory == "." && c.sessionTimeout == 30 * 60 * 1000
    ensures c.shells == DefaultShells()
  {
    TerminalConfig(if onWindows then "cmd" else "bash", TerminalSize(80, 24), ".", 1800000, DefaultShells())
  }

  /** The command each built-in shell runs. */
  lemma ShellCommands()
    ensures DefaultShells()["bash"].command == ["bash", "-l"]
    ensures DefaultShells()["cmd"].command == ["cmd.exe", "/c", "cmd"]
    ensures DefaultShells()["powershell"].command == ["powershell.exe"]
  {
  }

  /** Only the bash entry sets PATH, and to the standard system search path. */
  lemma BashPath()
    ensures DefaultShells()["bash"].environment == map["TERM" := Term, "PATH" := SystemPath]
    ensures DefaultShells()["cmd"].environment == map["TERM" := Term]
    ensures DefaultShells()["powershell"].environment == map["TERM" := Term]
  {
  }
}
