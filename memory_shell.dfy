/**
  The command interpreter of the in-memory PTY (`MemoryPty::process_input`):
  the input is decoded lossily, split into lines, each line is trimmed, and
  the trimmed line selects a canned response. This module holds the pure
  part; the `exit` side effect on the PTY's alive flag is in module
  MemoryPtyModel.
*/
module MemoryShell {
  import opened Utf8

  /** `char::is_whitespace`: the Unicode White_Space property. */
  predicate IsWhitespace(c: char) {
    var cp := c as int;
    (0x09 <= cp <= 0x0D) || cp == 0x20 || cp == 0x85 || cp == 0xA0 || cp == 0x1680
    || (0x2000 <= cp <= 0x200A) || cp == 0x2028 || cp == 0x2029 || cp == 0x202F
    || cp == 0x205F || cp == 0x3000
  }

  // ---------------------------------------------------------------------
  // Trimming
  // ---------------------------------------------------------------------

  /** `trim_start`: drop leading whitespace. */
  function TrimStart(s: string): (r: string)
    ensures |r| <= |s| && r == s[|s| - |r|..]
    ensures r == [] || !IsWhitespace(r[0])
    ensures forall i :: 0 <= i < |s| - |r| ==> IsWhitespace(s[i])
  {
    if s != [] && IsWhitespace(s[0]) then TrimStart(s[1..]) else s
  }

  /** `trim_end`: drop trailing whitespace. */
  function TrimEnd(s: string): (r: string)
    ensures |r| <= |s| && r == s[..|r|]
    ensures r == [] || !IsWhitespace(r[|r| - 1])
    ensures forall i :: |r| <= i < |s| ==> IsWhitespace(s[i])
  {
    if s != [] && IsWhitespace(s[|s| - 1]) then TrimEnd(s[..|s| - 1]) else s
  }

  /** `trim`: drop whitespace at both ends. */
  function Trim(s: string): (r: string)
    ensures |r| <= |s|
    ensures r == [] || (!IsWhitespace(r[0]) && !IsWhitespace(r[|r| - 1]))
    ensures (forall i :: 0 <= i < |s| ==> IsWhitespace(s[i])) <==> r == []
  {
    TrimEnd(TrimStart(s))
  }

  /** `trim_start_matches(pat)`: strip `pat` from the front for as long as it is there. */
  function TrimStartMatches(s: string, pat: string): (r: string)
    requires pat != []
    ensures |r| <= |s| && r == s[|s| - |r|..]
    ensures !(|pat| <= |r| && r[..|pat|] == pat)
    decreases |s|
  {
    if |pat| <= |s| && s[..|pat|] == pat then
      var rest := s[|pat|..];
      var r := TrimStartMatches(rest, pat);
      SliceOfSlice(s, |pat|, |rest| - |r|);
      r
    else s
  }

  /** A suffix of a suffix is a suffix. */
  lemma SliceOfSlice(s: string, a: nat, b: nat)
    requires a <= |s| && b <= |s| - a
    ensures s[a..][b..] == s[a + b..]
  {
  }

  // ---------------------------------------------------------------------
  // Lines
  // ---------------------------------------------------------------------

  /** Index of the first line feed in `s`, or `|s|` when there is none. */
  function FirstLineFeed(s: string): (i: nat)
    ensures i <= |s| && '\n' !in s[..i]
    ensures i < |s| ==> s[i] == '\n'
  {
    if s == [] then 0
    else if s[0] == '\n' then 0
    else
      var j := FirstLineFeed(s[1..]);
      assert s[..j + 1] == [s[0]] + s[1..][..j];
      j + 1
  }

  /** A line ended by a line feed loses one carriage return in front of it too. */
  function StripCarriageReturn(line: string): (r: string)
    ensures r == line || line == r + ['\r']
  {
    if line != [] && line[|line| - 1] == '\r' then line[..|line| - 1] else line
  }

  /**
    `str::lines`: the pieces between line feeds, without their terminators; a
    final piece is a line only when it is not empty, so input ending in a line
    feed has no empty last line, and a final piece keeps a trailing CR.
  */
  function Lines(s: string): (r: seq<string>)
    ensures forall k :: 0 <= k < |r| ==> '\n' !in r[k]
    ensures r == [] <==> s == []
    decreases |s|
  {
    if s == [] then []
    else
      var i := FirstLineFeed(s);
      if i == |s| then [s]
      else [StripCarriageReturn(s[..i])] + Lines(s[i + 1..])
  }

  // ---------------------------------------------------------------------
  // Commands and responses
  // ---------------------------------------------------------------------

  const ListingText := "Memory PTY Directory Contents:\r\n  README.md\r\n  Cargo.toml\r\n  src/\r\n"
  const HelpText :=
    "Memory PTY Commands:\r\n  ls/dir - List directory contents\r\n  pwd/cd - Show current directory\r\n"
    + "  echo - Echo text\r\n  exit - Exit PTY\r\n  help - Show this help\r\n"
  const ExitText := "Exiting Memory PTY...\r\n"
  const NotFoundPrefix := "Command not found: "

  /** The arms of the `match` on the trimmed line. */
  datatype Command = List | PrintDir | Echo | Exit | Help | Unknown(text: string) | Blank

  /** Which arm a trimmed line selects. */
  function Classify(t: string): (c: Command)
    ensures c.Unknown? ==> c.text == t && t != []
    ensures c == Blank <==> t == []
    ensures c == Echo <==> t == "echo"
    ensures c == Exit <==> t == "exit"
    ensures |t| > 4 ==> c == Unknown(t)
  {
    if t == "ls" || t == "dir" then List
    else if t == "pwd" || t == "cd " then PrintDir
    else if t == "echo" then Echo
    else if t == "exit" then Exit
    else if t == "help" then Help
    else if t != [] then Unknown(t)
    else Blank
  }

  /** The line is the `exit` command, which also marks the PTY dead. */
  predicate IsExit(line: string) {
    Classify(Trim(line)) == Exit
  }

  /** The text an arm prints; only `echo` looks at the untrimmed line. */
  function Reply(c: Command, line: string, cwd: Option<string>): string {
    match c
    case List => ListingText
    case PrintDir =>
      (match cwd
       case Some(dir) => dir + "\r\n"
       case None => "/\r\n")
    case Echo => Trim(TrimStartMatches(line, "echo")) + "\r\n"
    case Exit => ExitText
    case Help => HelpText
    case Unknown(t) => NotFoundPrefix + t + "\r\n"
    case Blank => []
  }

  /** What one input line makes the PTY print, given its working directory. */
  function LineResponse(line: string, cwd: Option<string>): string {
    Reply(Classify(Trim(line)), line, cwd)
  }

  /** Texts joined in order. */
  function Concat(parts: seq<string>): string {
    if parts == [] then [] else Concat(parts[..|parts| - 1]) + parts[|parts| - 1]
  }

  /** `f` applied to each item, in order. */
  function Each(f: string -> string, items: seq<string>): (r: seq<string>)
    ensures |r| == |items|
  {
    if items == [] then [] else Each(f, items[..|items| - 1]) + [f(items[|items| - 1])]
  }

  /** The per-line response as a function of the line. */
  function Answer(cwd: Option<string>): string -> string {
    line => LineResponse(line, cwd)
  }

  /** The responses to a sequence of lines, in order. */
  function Response(lines: seq<string>, cwd: Option<string>): string {
    Concat(Each(Answer(cwd), lines))
  }

  /** Some line is the `exit` command. */
  predicate HasExit(lines: seq<string>) {
    lines != [] && (HasExit(lines[..|lines| - 1]) || IsExit(lines[|lines| - 1]))
  }

  // ---------------------------------------------------------------------
  // Properties
  // ---------------------------------------------------------------------

  /** Text without a line feed is one line, unchanged (a trailing CR included). */
  lemma SingleLine(s: string)
    requires s != [] && '\n' !in s
    ensures Lines(s) == [s]
  {
    assert forall j :: 0 <= j < |s| ==> s[j] != '\n';
  }

  /** A line ending in a line feed alone is one line. */
  lemma LineFeedEndsLine(line: string, rest: string)
    requires '\n' !in line && (line == [] || line[|line| - 1] != '\r')
    ensures Lines(line + "\n" + rest) == [line] + Lines(rest)
  {
    var s := line + "\n" + rest;
    assert forall j :: 0 <= j < |line| ==> s[j] == line[j] && s[j] != '\n';
    assert s[|line|] == '\n';
    var i := FirstLineFeed(s);
    assert i == |line|;
    assert s[..i] == line;
    assert s[i + 1..] == rest;
  }

  /** A line ending in CR LF is the same line as one ending in LF alone. */
  lemma CrLfEndsLine(line: string, rest: string)
    requires '\n' !in line && '\r' !in line
    ensures Lines(line + "\r\n" + rest) == [line] + Lines(rest)
  {
    var s := line + "\r\n" + rest;
    assert forall j :: 0 <= j < |line| ==> s[j] == line[j] && s[j] != '\n';
    assert s[|line|] == '\r' && s[|line| + 1] == '\n';
    var i := FirstLineFeed(s);
    assert i == |line| + 1;
    assert s[..i] == line + ['\r'];
    assert s[i + 1..] == rest;
  }

  /** A line holds the `exit` command exactly when some line is one. */
  lemma {:induction false} HasExitMeansSomeLine(lines: seq<string>)
    ensures HasExit(lines) <==> exists k :: 0 <= k < |lines| && IsExit(lines[k])
  {
    if lines != [] {
      var init := lines[..|lines| - 1];
      HasExitMeansSomeLine(init);
      if HasExit(init) {
        var k :| 0 <= k < |init| && IsExit(init[k]);
        assert lines[k] == init[k];
      }
      if k :| 0 <= k < |lines| - 1 && IsExit(lines[k]) {
        assert init[k] == lines[k];
      }
    }
  }

  /** The word `exit` on its own is the `exit` command. */
  lemma ExitWordIsExit(line: string)
    requires line == "exit"
    ensures IsExit(line)
  {
    TrimOfUnpadded(line);
  }

  /** Extending the lines by one adds that line's response and its `exit`. */
  lemma ResponseStep(lines: seq<string>, i: nat, cwd: Option<string>)
    requires i < |lines|
    ensures Response(lines[..i + 1], cwd) == Response(lines[..i], cwd) + LineResponse(lines[i], cwd)
    ensures HasExit(lines[..i + 1]) == (HasExit(lines[..i]) || IsExit(lines[i]))
  {
    var f := Answer(cwd);
    assert lines[..i + 1][..i] == lines[..i];
    assert Each(f, lines[..i + 1]) == Each(f, lines[..i]) + [f(lines[i])];
    ConcatSnoc(Each(f, lines[..i]), f(lines[i]));
  }

  /** Joining one more part appends it. */
  lemma ConcatSnoc(parts: seq<string>, last: string)
    ensures Concat(parts + [last]) == Concat(parts) + last
  {
    assert (parts + [last])[..|parts|] == parts;
  }

  /** The `exit` command is answered with the exit message. */
  lemma ExitRepliesExitText(line: string, cwd: Option<string>)
    requires IsExit(line)
    ensures LineResponse(line, cwd) == ExitText
  {
  }

  /** The response to a single line is that line's response. */
  lemma OneLine(line: string, cwd: Option<string>)
    ensures Response([line], cwd) == LineResponse(line, cwd)
    ensures HasExit([line]) == IsExit(line)
  {
    EachOne(Answer(cwd), line);
    assert [line][..0] == [];
  }

  /** Mapping and joining a single item gives that item's image. */
  lemma EachOne(f: string -> string, x: string)
    ensures Concat(Each(f, [x])) == f(x)
  {
    assert [x][..0] == [];
    assert Each(f, [x]) == [f(x)];
    assert [f(x)][..0] == [];
  }

  /** Input of just the `exit` command stops the PTY and prints only the exit message. */
  lemma SingleExitLine(line: string, cwd: Option<string>)
    requires IsExit(line)
    ensures HasExit([line])
    ensures Response([line], cwd) == ExitText
  {
    OneLine(line, cwd);
    ExitRepliesExitText(line, cwd);
  }

  /** Joining composes: the parts can be cut anywhere. */
  lemma {:induction false} ConcatAppend(p: seq<string>, q: seq<string>)
    ensures Concat(p + q) == Concat(p) + Concat(q)
    decreases |q|
  {
    if q == [] {
      assert p + q == p;
    } else {
      var pq := p + q;
      assert pq[..|pq| - 1] == p + q[..|q| - 1];
      ConcatAppend(p, q[..|q| - 1]);
    }
  }

  /** Mapping composes: the items can be cut anywhere. */
  lemma {:induction false} EachAppend(f: string -> string, a: seq<string>, b: seq<string>)
    ensures Each(f, a + b) == Each(f, a) + Each(f, b)
    decreases |b|
  {
    if b == [] {
      assert a + b == a;
    } else {
      var ab := a + b;
      assert ab[..|ab| - 1] == a + b[..|b| - 1];
      EachAppend(f, a, b[..|b| - 1]);
    }
  }

  /** Responses compose: the input can be cut between any two lines. */
  lemma ResponseAppend(a: seq<string>, b: seq<string>, cwd: Option<string>)
    ensures Response(a + b, cwd) == Response(a, cwd) + Response(b, cwd)
  {
    var f := Answer(cwd);
    EachAppend(f, a, b);
    ConcatAppend(Each(f, a), Each(f, b));
  }

  /** Blank lines produce no output at all. */
  lemma {:induction false} BlankLinesAreSilent(lines: seq<string>, cwd: Option<string>)
    requires forall k :: 0 <= k < |lines| ==> Trim(lines[k]) == []
    ensures Response(lines, cwd) == []
  {
    if lines != [] {
      var n := |lines| - 1;
      BlankLinesAreSilent(lines[..n], cwd);
      ResponseStep(lines, n, cwd);
      assert lines[..n + 1] == lines;
      assert Trim(lines[n]) == [];
    }
  }

  /** Lines are trimmed before matching, so the `"cd "` pattern can never match. */
  lemma CdPatternNeverMatches(line: string)
    ensures Trim(line) != "cd "
  {
    var cd := "cd ";
    assert IsWhitespace(cd[|cd| - 1]);
  }

  /** A text with no blank at either end is its own trim. */
  lemma TrimOfUnpadded(s: string)
    requires s != [] && !IsWhitespace(s[0]) && !IsWhitespace(s[|s| - 1])
    ensures Trim(s) == s
  {
    assert TrimStart(s) == s;
  }

  /**
    `echo` only matches a line that is exactly "echo": `echo <text>` is
    reported as an unknown command instead of printing its argument.
  */
  lemma EchoWithArgumentIsUnknown(arg: string, cwd: Option<string>)
    requires arg != [] && !IsWhitespace(arg[|arg| - 1])
    ensures LineResponse("echo " + arg, cwd) == NotFoundPrefix + "echo " + arg + "\r\n"
  {
    var line := "echo " + arg;
    assert line[0] == 'e' && line[|line| - 1] == arg[|arg| - 1];
    TrimOfUnpadded(line);
    LongLineIsUnknown(line, cwd);
  }

  /** A trimmed line longer than every command word is reported as unknown. */
  lemma LongLineIsUnknown(line: string, cwd: Option<string>)
    requires |Trim(line)| > 4
    ensures LineResponse(line, cwd) == NotFoundPrefix + Trim(line) + "\r\n"
  {
    var t := Trim(line);
    assert Classify(t) == Unknown(t);
  }

  lemma BareEchoPrintsEmptyLine(line: string, cwd: Option<string>)
    requires |line| >= 4 && line[..4] == "echo"
    requires forall i :: 4 <= i < |line| ==> IsWhitespace(line[i])
    ensures LineResponse(line, cwd) == "\r\n"
  {
    var word, rest := line[..4], line[4..];
    assert line == word + rest;
    assert !IsWhitespace(word[0]) && !IsWhitespace(word[3]);
    WordThenBlanks(word, rest);
    StripOnce(word, rest);
    forall l: string | Trim(l) == "echo"
      ensures LineResponse(l, cwd) == Trim(TrimStartMatches(l, "echo")) + "\r\n"
    {
    }
  }

  /** A word followed by blanks trims to the word. */
  lemma WordThenBlanks(word: string, blanks: string)
    requires word != [] && !IsWhitespace(word[0]) && !IsWhitespace(word[|word| - 1])
    requires forall i :: 0 <= i < |blanks| ==> IsWhitespace(blanks[i])
    ensures Trim(word + blanks) == word
    ensures Trim(blanks) == []
  {
    var s := word + blanks;
    assert s[0] == word[0];
    assert TrimStart(s) == s;
    var t := TrimEnd(s);
    assert s[|word| - 1] == word[|word| - 1];
    assert forall i :: |word| <= i < |s| ==> s[i] == blanks[i - |word|];
    assert |t| == |word|;
    assert s[..|word|] == word;
  }

  /** Stripping a pattern from the pattern and blanks leaves the blanks, when the pattern starts with no blank. */
  lemma StripOnce(pat: string, rest: string)
    requires pat != [] && !IsWhitespace(pat[0])
    requires forall i :: 0 <= i < |rest| ==> IsWhitespace(rest[i])
    ensures TrimStartMatches(pat + rest, pat) == rest
  {
    assert rest != [] ==> IsWhitespace(rest[0]);
    var s := pat + rest;
    assert s[..|pat|] == pat && s[|pat|..] == rest;
    NoPatternPrefix(rest, pat);
  }

  /** A text made of the pattern alone is stripped to nothing, which trims to nothing. */
  lemma PatternStripsItself(pat: string)
    requires pat != []
    ensures TrimStartMatches(pat, pat) == [] && Trim(TrimStartMatches(pat, pat)) == []
  {
    assert pat[..|pat|] == pat && pat[|pat|..] == [];
    assert Trim([]) == [];
  }

  /**
    With a blank in front, `echo` prints the word "echo" itself:
    `trim_start_matches` runs on the untrimmed line, which does not start with "echo".
  */
  lemma IndentedEchoPrintsItsName(line: string, cwd: Option<string>)
    requires line == " echo"
    ensures LineResponse(line, cwd) == "echo\r\n"
  {
    var word := line[1..];
    assert word == "echo" && IsWhitespace(line[0]);
    IndentedTrim(line);
    forall l: string | Trim(l) == "echo"
      ensures LineResponse(l, cwd) == Trim(TrimStartMatches(l, "echo")) + "\r\n"
    {
    }
    assert line[..4] != "echo" by { assert line[0] != 'e'; }
    NoPatternPrefix(line, "echo");
  }

  /** Text with one blank in front of an unpadded word trims to the word. */
  lemma IndentedTrim(line: string)
    requires |line| > 1 && IsWhitespace(line[0])
    requires !IsWhitespace(line[1]) && !IsWhitespace(line[|line| - 1])
    ensures Trim(line) == line[1..]
  {
    TrimOfUnpadded(line[1..]);
  }

  /** A text that does not start with the pattern is left as it is. */
  lemma NoPatternPrefix(s: string, pat: string)
    requires pat != [] && !(|pat| <= |s| && s[..|pat|] == pat)
    ensures TrimStartMatches(s, pat) == s
  {
  }

  /** Blanks around a word, ASCII or not (here TAB and U+00A0), are trimmed away. */
  lemma PaddingIsTrimmed(word: string)
    requires word != [] && !IsWhitespace(word[0]) && !IsWhitespace(word[|word| - 1])
    ensures Trim("\t" + word + "\U{00A0}") == word
  {
    var padded := "\t" + word + "\U{00A0}";
    var tail := word + "\U{00A0}";
    assert padded[1..] == tail;
    assert TrimStart(padded) == tail;
    assert tail[..|tail| - 1] == word && IsWhitespace(tail[|tail| - 1]);
    assert TrimEnd(word) == word;
  }

  /** Lines that trim to the same command, other than `echo`, get the same response. */
  lemma SameTrimSameResponse(a: string, b: string, cwd: Option<string>)
    requires Trim(a) == Trim(b) && Trim(a) != "echo"
    ensures LineResponse(a, cwd) == LineResponse(b, cwd)
  {
    var c := Classify(Trim(a));
    assert c == Classify(Trim(b)) && c != Echo;
    ReplyIgnoresLine(c, a, b, cwd);
  }

  /** Only the `echo` arm looks at the line itself. */
  lemma ReplyIgnoresLine(c: Command, a: string, b: string, cwd: Option<string>)
    requires c != Echo
    ensures Reply(c, a, cwd) == Reply(c, b, cwd)
  {
  }

  /**
    Whitespace around a line is ignored, including non-ASCII blanks such as
    U+00A0; `echo` is the exception (see IndentedEchoPrintsItsName).
  */
  lemma PaddingIsIgnored(cmd: string, cwd: Option<string>)
    requires cmd != [] && !IsWhitespace(cmd[0]) && !IsWhitespace(cmd[|cmd| - 1])
    requires cmd != "echo"
    ensures LineResponse("\t" + cmd + "\U{00A0}", cwd) == LineResponse(cmd, cwd)
  {
    PaddingIsTrimmed(cmd);
    assert TrimStart(cmd) == cmd && TrimEnd(cmd) == cmd;
    SameTrimSameResponse("\t" + cmd + "\U{00A0}", cmd, cwd);
  }
}
