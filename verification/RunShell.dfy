/**
  From the text that a client sent to what the single-process server does with it: run_shell
  and the dispatch at the end of string_split, joined to the reading of the command line on
  one side and to the server on the other.
  */
module RunShell {
  import opened CommandLine
  import opened NpSingle
  import opened Options
  import opened PrintedCommand
  import LedgerRuns
  import Pipeline
  import SlotTable

  // ---- The line that was sent ----

  const EOT := 4 as char

  predicate IsBreak(c: char) {
    c == '\r' || c == '\n'
  }

  /** How many characters come before the first line break. */
  function LineLength(s: string): (n: nat)
    ensures n <= |s| && (forall i :: 0 <= i < n ==> !IsBreak(s[i])) && (n < |s| ==> IsBreak(s[n]))
  {
    if s == "" || IsBreak(s[0]) then 0 else 1 + LineLength(s[1..])
  }

  /** What strtok(cmd, "\r\n") leaves of cmd: it skips breaks in front and cuts at the next one. */
  function Cut(s: string): string {
    if s != "" && IsBreak(s[0]) then [s[0]] + Cut(s[1..]) else s[..LineLength(s)]
  }

  predicate IsMessage(words: seq<string>) {
    words != [] && words[0] in ["tell", "yell"]
  }

  /** string_split compares the first word of a line outside pipe mode, and looks users up by their ids. */
  predicate Readable(p: Parsed) {
    |p.collection| >= 1 && (p.pipeMode || p.collection[0] != []) && p.userIn >= 0 && p.userOut >= 0
  }

  /** What the text asks of the server; nothing for a line on which the code is undefined. */
  function InputOf(text: string): Option<Input> {
    if text != "" && text[0] == EOT then Some(EndOfFile)
    else if text == "\r\n" || text == "\n" then Some(Blank)
    else if Cut(text) == "exit" then Some(ExitLine)
    else if IsMessage(Tokens(Cut(text))) then Some(MessageLine)
    else
      var p := Parse(START, Tokens(Cut(text)));
      if !Readable(p) then None
      else if !p.pipeMode && IsBuiltIn(p.collection[0][0]) then Some(BuiltInLine)
      else Some(Commands(LineOf(p)))
  }

  lemma CommandsHaveStages(text: string)
    ensures var input := InputOf(text);
            input.Some? && input.value.Commands? ==> input.value.line.stages >= 1
  {
    PipeModeIsWired(Cut(text));
    hide Parse, Tokens, Cut, IsMessage, IsBuiltIn;
  }

  /** What run_shell does with the text, up to the call that serves it. */
  method ReadInput(cmd: string) returns (input: Option<Input>)
    ensures input == InputOf(cmd)
  {
    hide Parse, Tokens, Cut, LineOf, IsBuiltIn;
    if cmd != "" && cmd[0] == EOT { return Some(EndOfFile); }
    if cmd == "\r\n" || cmd == "\n" { return Some(Blank); }
    var line := Cut(cmd);
    if line == "exit" { return Some(ExitLine); }
    var message := CheckCmd(line);
    if message { return Some(MessageLine); }
    var p := StringSplit(line);
    if !Readable(p) { return None; }
    if !p.pipeMode && IsBuiltIn(p.collection[0][0]) { return Some(BuiltInLine); }
    return Some(Commands(LineOf(p)));
  }

  // ---- What a written line asks for ----

  predicate NoBreak(s: string) {
    forall i :: 0 <= i < |s| ==> !IsBreak(s[i])
  }

  lemma {:induction false} LineLengthIs(s: string, end: string)
    requires NoBreak(s) && (end == "" || IsBreak(end[0]))
    ensures LineLength(s + end) == |s|
  {
    if s == "" {
      assert s + end == end;
    } else {
      assert (s + end)[1..] == s[1..] + end;
      LineLengthIs(s[1..], end);
    }
  }

  lemma CutIs(s: string, end: string)
    requires s != "" && NoBreak(s) && (end == "" || IsBreak(end[0]))
    ensures Cut(s + end) == s
  {
    LineLengthIs(s, end);
    assert (s + end)[0] == s[0];
  }

  lemma CutFirst(s: string)
    ensures Cut(s) != "" ==> Cut(s)[0] == s[0]
  {
  }

  /** A client logs out by typing exactly `exit`, with nothing in front of it and a line break or nothing after it. */
  lemma ExitExactly(text: string)
    ensures InputOf(text) == Some(ExitLine) <==>
            |text| >= 4 && text[..4] == "exit" && (|text| == 4 || IsBreak(text[4]))
  {
    hide Parse, Tokens, LineOf, Readable, IsMessage, IsBuiltIn;
    if |text| >= 4 && text[..4] == "exit" && (|text| == 4 || IsBreak(text[4])) {
      CutIs("exit", text[4..]);
      assert text == "exit" + text[4..];
    }
    if Cut(text) == "exit" {
      CutFirst(text);
      assert text != "" && !IsBreak(text[0]);
      assert text[..LineLength(text)] == "exit";
    }
  }

  lemma {:induction false} SpacesNoBreak(words: seq<string>, gaps: seq<nat>)
    requires |gaps| == |words| + 1 && forall i :: 0 <= i < |words| ==> NoBreak(words[i])
    ensures NoBreak(Written(words, gaps))
    decreases |words|
  {
    assert NoBreak(Spaces(gaps[0]));
    if words != [] {
      SpacesNoBreak(words[1..], gaps[1..]);
      assert NoBreak(words[0]);
    }
  }

  /** The text is the command c, in any spelling and spacing, with the end of line that a terminal sends or none. */
  ghost predicate IsWritten(text: string, c: Command, words: seq<string>, gaps: seq<nat>, end: string) {
    && Writable(c) && c.stages[0] != [] && Spells(words, c) && words != [] && |gaps| == |words| + 1
    && (forall i :: 0 <= i < |words| ==> NoBreak(words[i]))
    && end in ["", "\n", "\r\n"] && text == Written(words, gaps) + end
  }

  /** The line that single_cmd or ordinary_pipe is given for the command. */
  function Meaning(c: Command): Pipeline.Line {
    Pipeline.Line(|c.stages|, c.crossNum, c.file.Some?, c.userIn, c.userOut)
  }

  lemma WrittenSome(words: seq<string>, gaps: seq<nat>)
    requires words != [] && |gaps| == |words| + 1 && Splits(words)
    ensures Written(words, gaps) != ""
  {
    assert words[0] != "";
  }

  /** Every written command is taken for what it is: a message, `exit`, a built-in command or a line to be run. */
  lemma WrittenIsInput(text: string, c: Command, words: seq<string>, gaps: seq<nat>, end: string)
    requires IsWritten(text, c, words, gaps, end) && text[0] != EOT
    ensures InputOf(text) == Some(
              if Written(words, gaps) == "exit" then ExitLine
              else if words[0] in ["tell", "yell"] then MessageLine
              else if |c.stages| == 1 && c.stages[0][0] in ["who", "name", "setenv", "printenv"] then BuiltInLine
              else Commands(Meaning(c)))
  {
    var line := Written(words, gaps);
    WrittenSome(words, gaps);
    SpacesNoBreak(words, gaps);
    CutIs(line, end);
    assert text[0] == line[0] && !IsBreak(line[0]);
    TokensOfWritten(words, gaps);
    WrittenIsRun(c, words, gaps);
    WrittenIsWired(c, words, gaps);
    hide Parse, Tokens, Written, Cut, Spells, Writable, NoBreak;
  }

  /** The text is the command, written in some way, and the command is one that starts programs. */
  ghost predicate AsksFor(text: string, c: Command) {
    && text != "" && text[0] != EOT && |c.stages| >= 1 && c.stages[0] != []
    && !(|c.stages| == 1 && c.stages[0][0] in ["who", "name", "setenv", "printenv"])
    && exists words, gaps, end ::
         IsWritten(text, c, words, gaps, end) && Written(words, gaps) != "exit" && words[0] !in ["tell", "yell"]
  }

  lemma AskedIsInput(text: string, c: Command)
    requires AsksFor(text, c)
    ensures InputOf(text) == Some(Commands(Meaning(c)))
  {
    var words, gaps, end :| IsWritten(text, c, words, gaps, end) && Written(words, gaps) != "exit"
                            && words[0] !in ["tell", "yell"];
    WrittenIsInput(text, c, words, gaps, end);
  }

  /**
    run_shell for a ready descriptor, from the text to the commands: whatever command a client
    writes, exactly the programs of that command are started for it, and its first and last
    program read and write what the command says. The server stays valid while there is room.
    */
  method Run(server: Server, fd: int, cmd: string, openOk: bool, junk0: int, junk1: int)
      returns (c: nat, ghost e: LedgerRuns.Event)
    requires server.Valid() && fd in server.fdIds && InputOf(cmd).Some?
    requires cmd != "" && cmd[0] == EOT ==> server.fdIds[fd] !in server.freed
    modifies server, server.shell`pipes, server.shell`children, server.shell.me
    ensures c == old(server.fdIds[fd])
    ensures forall command :: AsksFor(cmd, command) ==>
              HasRun(old(server.Books()), server.Books(), c, Meaning(command), openOk)
    ensures |cmd| >= 4 && cmd[..4] == "exit" && (|cmd| == 4 || IsBreak(cmd[4])) ==>
              HasLeft(old(server.Books()), server.Books(), c, fd)
    ensures var was, input := old(server.Books()), InputOf(cmd).value;
            && Outcome(was, server.Books(), c, fd, input, openOk)
            && ((if input.Blank? then true
                 else if input.EndOfFile? then SlotTable.Snapshot(was.tables[c])
                 else LedgerRuns.Room(server.Books()) && NoHarm(was, e, server.Books())) ==> server.Valid())
  {
    ghost var s := server.Books();
    var input := ReadInput(cmd);
    ExitExactly(cmd);
    CommandsHaveStages(cmd);
    hide InputOf, HasRun, HasLeft, Does, NoHarm, SelfLine, AsksFor;
    c, e := server.Serve(fd, input.value, openOk, junk0, junk1);
    forall command | AsksFor(cmd, command)
      ensures HasRun(s, server.Books(), c, Meaning(command), openOk)
    {
      AskedIsInput(cmd, command);
    }
  }
}
