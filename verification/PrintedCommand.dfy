/**
  Commands as a user means them, how they are written, and the proof that reading a written
  command gives it back, whatever the spacing.
  */
module PrintedCommand {
  import opened CommandLine
  import opened Decimal
  import opened Options
  import Pipeline

  /**
    The stages of a command and what may follow them: `<n`, then |n (positive) or !n
    (negative), `>n` and `> file`; 0 stands for a number that is not given.
    */
  datatype Command = Command(stages: seq<seq<string>>, userIn: nat, crossNum: int, userOut: nat, file: Option<string>)

  /** A word that is not taken for a separator or for a number. */
  predicate Ordinary(w: string) {
    w != "" && NoSpace(w) && !Marked(w)
  }

  predicate AllOrdinary(words: seq<string>) {
    forall i :: 0 <= i < |words| ==> Ordinary(words[i])
  }

  predicate Writable(c: Command) {
    && |c.stages| >= 1
    && (forall i :: 0 <= i < |c.stages| ==> AllOrdinary(c.stages[i]))
    && (c.file.Some? ==> Ordinary(c.file.value))
  }

  // ---- Writing ----

  function StageWords(stages: seq<seq<string>>): seq<string>
    requires |stages| >= 1
  {
    if |stages| == 1 then stages[0] else stages[0] + ["|"] + StageWords(stages[1..])
  }

  function FileWords(file: Option<string>): seq<string> {
    match file case None => [] case Some(f) => [">", f]
  }

  /** The word is a number for a pipe. */
  predicate IsNumber(w: string) {
    Marked(w) && !Separator(w)
  }

  /** The words without the numbers. */
  function Stripped(words: seq<string>): seq<string> {
    if words == [] then [] else (if IsNumber(words[0]) then [] else [words[0]]) + Stripped(words[1..])
  }

  /** The numbers of the line: of each kind the last one counts. */
  function Numbers(p: Parsed, words: seq<string>): Parsed
    decreases |words|
  {
    if words == [] then p else Numbers(if IsNumber(words[0]) then Step(p, words[0]) else p, words[1..])
  }

  predicate Splits(words: seq<string>) {
    forall i :: 0 <= i < |words| ==> words[i] != "" && NoSpace(words[i])
  }

  /** The words mean the command: its stages and file in order, and its numbers anywhere among them. */
  predicate Spells(words: seq<string>, c: Command)
    requires |c.stages| >= 1
  {
    && Splits(words)
    && Stripped(words) == StageWords(c.stages) + FileWords(c.file)
    && Numbers(START, words) == START.(crossNum := c.crossNum, userIn := c.userIn, userOut := c.userOut)
  }

  function Spaces(n: nat): string {
    seq(n, i => ' ')
  }

  /** The words with at least one space between them, gaps[i] more before word i, and gaps[|words|] at the end. */
  function Written(words: seq<string>, gaps: seq<nat>): string
    requires |gaps| == |words| + 1
  {
    Spaces(gaps[0]) + (if words == [] then ""
                       else
                         var rest := Written(words[1..], gaps[1..]);
                         words[0] + (if |words| == 1 then rest else " " + rest))
  }

  // ---- Reading back ----

  /** The command that the code understands a parsed line as. */
  function Understood(p: Parsed): (c: Option<Command>) {
    var n := |p.collection| - 1;
    if n < 0 || p.userIn < 0 || p.userOut < 0 || (p.redir && FileOf(p.collection[n]).None?) then None
    else Some(Command(if p.redir then p.collection[..n] else p.collection, p.userIn, p.crossNum, p.userOut,
                      if p.redir then FileOf(p.collection[n]) else None))
  }

  lemma {:induction false} SkipSpaces(n: nat, s: string)
    ensures Tokens(Spaces(n) + s) == Tokens(s)
  {
    if n == 0 {
      assert Spaces(0) + s == s;
    } else {
      assert (Spaces(n) + s)[1..] == Spaces(n - 1) + s;
      SkipSpaces(n - 1, s);
    }
  }

  lemma {:induction false} WordLengthIs(w: string, s: string)
    requires NoSpace(w) && (s == "" || s[0] == ' ')
    ensures WordLength(w + s) == |w|
  {
    if w == "" {
      assert w + s == s;
    } else {
      assert (w + s)[1..] == w[1..] + s;
      WordLengthIs(w[1..], s);
    }
  }

  lemma OneWord(w: string, s: string)
    requires w != "" && NoSpace(w) && (s == "" || s[0] == ' ')
    ensures Tokens(w + s) == [w] + Tokens(s)
  {
    WordLengthIs(w, s);
    assert (w + s)[0] == w[0];
    assert (w + s)[..|w|] == w && (w + s)[|w|..] == s;
  }

  /** One more word in front of a text that starts with a space or is empty. */
  lemma WordInFront(n: nat, w: string, s: string)
    requires w != "" && NoSpace(w) && (s == "" || s[0] == ' ')
    ensures Tokens(Spaces(n) + (w + s)) == [w] + Tokens(s)
  {
    OneWord(w, s);
    SkipSpaces(n, w + s);
  }

  lemma SpaceInFront(s: string)
    ensures Tokens(" " + s) == Tokens(s)
  {
    assert (" " + s)[1..] == s;
  }

  /** Splitting gives back the words, whatever the number of spaces around them. */
  lemma {:induction false} TokensOfWritten(words: seq<string>, gaps: seq<nat>)
    requires |gaps| == |words| + 1
    requires forall i :: 0 <= i < |words| ==> words[i] != "" && NoSpace(words[i])
    ensures Tokens(Written(words, gaps)) == words
    decreases |words|
  {
    if words == [] {
      SkipSpaces(gaps[0], "");
      assert Spaces(gaps[0]) + "" == Written(words, gaps);
    } else {
      var rest := Written(words[1..], gaps[1..]);
      TokensOfWritten(words[1..], gaps[1..]);
      var tail := if |words| == 1 then rest else " " + rest;
      if |words| == 1 { EndsBlank(gaps[1], rest, words, gaps); } else { SpaceInFront(rest); }
      WordInFront(gaps[0], words[0], tail);
      assert Written(words, gaps) == Spaces(gaps[0]) + (words[0] + tail);
      hide Tokens, Written, NoSpace;
    }
  }

  lemma EndsBlank(n: nat, rest: string, words: seq<string>, gaps: seq<nat>)
    requires |gaps| == |words| + 1 == 2 && n == gaps[1] && rest == Written(words[1..], gaps[1..])
    ensures rest == "" || rest[0] == ' '
  {
  }

  // ---- Parsing the words of a command ----

  /** p is reading its last stage, which is still `stage`. */
  lemma {:induction false} ParseOrdinary(p: Parsed, before: seq<seq<string>>, stage: seq<string>, words: seq<string>)
    requires p.collection == before + [stage] && AllOrdinary(words)
    ensures Parse(p, words) == p.(collection := before + [stage + words])
    decreases |words|
  {
    if words == [] {
      assert stage + [] == stage;
    } else {
      assert Ordinary(words[0]);
      var q := p.(collection := before + [stage + [words[0]]]);
      assert Step(p, words[0]) == q by {
        assert p.collection[|before| := stage + [words[0]]] == before + [stage + [words[0]]];
      }
      ParseOrdinary(q, before, stage + [words[0]], words[1..]);
      assert stage + [words[0]] + words[1..] == stage + words;
    }
  }

  lemma {:induction false} ParseStages(p: Parsed, before: seq<seq<string>>, stages: seq<seq<string>>)
    requires |stages| >= 1 && p.collection == before + [[]]
    requires forall i :: 0 <= i < |stages| ==> AllOrdinary(stages[i])
    ensures Parse(p, StageWords(stages)) == p.(collection := before + stages, pipeMode := p.pipeMode || |stages| >= 2)
    decreases |stages|
  {
    ParseOrdinary(p, before, [], stages[0]);
    assert [] + stages[0] == stages[0];
    var p1 := p.(collection := before + [stages[0]]);
    if |stages| == 1 {
      assert before + stages == before + [stages[0]];
    } else {
      var p2 := p1.(collection := before + [stages[0]] + [[]], pipeMode := true);
      assert Step(p1, "|") == p2 by { assert "|" != ">" by { assert "|"[0] != ">"[0]; } }
      ParseStages(p2, before + [stages[0]], stages[1..]);
      assert before + [stages[0]] + stages[1..] == before + stages;
      var later := StageWords(stages[1..]);
      CommandLine.Next(p1, "|", later);
      ParseSplit(p, stages[0], ["|"] + later);
      assert stages[0] + ["|"] + later == stages[0] + (["|"] + later);
    }
  }

  // ---- The file ----

  lemma ParseFile(p: Parsed, file: Option<string>)
    requires |p.collection| >= 1 && (file.Some? ==> Ordinary(file.value))
    ensures Parse(p, FileWords(file)) ==
            (match file case None => p case Some(f) => p.(collection := p.collection + [[f]], redir := true))
  {
    if file.Some? {
      var f := file.value;
      var p1 := p.(collection := p.collection + [[]], redir := true);
      assert Step(p, ">") == p1 by { assert ">"[0] != "|"[0]; }
      CommandLine.Next(p, ">", [f]);
      assert [">"] + [f] == [">", f];
      ParseOrdinary(p1, p.collection, [], [f]);
      assert [] + [f] == [f];
    }
  }

  /** What string_split makes of a command. */
  function Meant(c: Command): Parsed {
    Parsed(c.stages + (match c.file case None => [] case Some(f) => [[f]]), c.crossNum, c.file.Some?,
           c.userIn, c.userOut, |c.stages| >= 2)
  }

  /** A command without numbers. */
  lemma ParsePlain(c: Command)
    requires Writable(c)
    ensures Parse(START, StageWords(c.stages) + FileWords(c.file)) ==
            Meant(c).(crossNum := 0, userIn := 0, userOut := 0)
  {
    ParseStages(START, [], c.stages);
    assert [] + c.stages == c.stages && c.stages + [] == c.stages;
    ParseFile(START.(collection := c.stages, pipeMode := |c.stages| >= 2), c.file);
    hide Parse, StageWords, FileWords;
    ParseSplit(START, StageWords(c.stages), FileWords(c.file));
  }

  // ---- The numbers ----

  function WithNumbers(p: Parsed, q: Parsed): Parsed {
    p.(crossNum := q.crossNum, userIn := q.userIn, userOut := q.userOut)
  }

  predicate NoNumber(words: seq<string>) {
    forall i :: 0 <= i < |words| ==> !IsNumber(words[i])
  }

  lemma {:induction false} StrippedHasNone(words: seq<string>)
    ensures NoNumber(Stripped(words))
  {
    if words != [] { StrippedHasNone(words[1..]); }
  }

  /** Words without numbers leave the numbers alone and do not look at them. */
  lemma {:induction false} NumbersUntouched(p: Parsed, q: Parsed, words: seq<string>)
    requires NoNumber(words)
    ensures Parse(WithNumbers(p, q), words) == WithNumbers(Parse(p, words), q)
    decreases |words|
  {
    if words != [] {
      assert Step(WithNumbers(p, q), words[0]) == WithNumbers(Step(p, words[0]), q);
      NumbersUntouched(Step(p, words[0]), q, words[1..]);
    }
  }

  lemma {:induction false} NumbersOnly(p: Parsed, words: seq<string>)
    ensures Numbers(p, words) == WithNumbers(p, Numbers(p, words))
    decreases |words|
  {
    if words != [] { NumbersOnly(if IsNumber(words[0]) then Step(p, words[0]) else p, words[1..]); }
  }

  /** What does not touch the numbers may be done first. */
  lemma {:induction false} NumbersSame(p: Parsed, r: Parsed, words: seq<string>)
    requires p == WithNumbers(p, r)
    ensures WithNumbers(p, Numbers(r, words)) == Numbers(p, words)
    decreases |words|
  {
    if words != [] {
      if IsNumber(words[0]) {
        NumbersSame(Step(p, words[0]), Step(r, words[0]), words[1..]);
      } else {
        NumbersSame(p, r, words[1..]);
      }
    }
  }

  /** Numbers and other words are read independently of each other. */
  lemma {:induction false} NumbersApart(p: Parsed, words: seq<string>)
    ensures Parse(p, words) == WithNumbers(Parse(p, Stripped(words)), Numbers(p, words))
    decreases |words|
  {
    if words == [] {
    } else if IsNumber(words[0]) {
      var q := Step(p, words[0]);
      NumbersApart(q, words[1..]);
      StrippedHasNone(words[1..]);
      assert [] + Stripped(words[1..]) == Stripped(words[1..]);
      NumbersUntouched(p, q, Stripped(words[1..]));
    } else {
      var q := Step(p, words[0]);
      NumbersApart(q, words[1..]);
      CommandLine.Next(p, words[0], Stripped(words[1..]));
      NumbersSame(q, p, words[1..]);
      NumbersOnly(p, words[1..]);
    }
  }

  lemma ParseSpelled(words: seq<string>, c: Command)
    requires Writable(c) && Spells(words, c)
    ensures Parse(START, words) == Meant(c)
  {
    NumbersApart(START, words);
    ParsePlain(c);
    hide Parse, Stripped, Numbers;
  }

  // ---- How a command can be spelled ----

  lemma NumberIsMarked(mark: char, n: nat)
    requires mark == '|' || mark == '!' || mark == '<' || mark == '>'
    ensures var w := [mark] + Notation(n);
            w != "" && NoSpace(w) && IsNumber(w) && w[0] == mark && Atoi(w[1..]) == n
  {
    var w := [mark] + Notation(n);
    assert w[1..] == Notation(n);
    PrintedIsRead(n, "");
    assert |w| >= 2;
    forall i | 0 <= i < |w|
      ensures w[i] != ' '
    {
      if i > 0 { assert IsDigit(w[1..][i - 1]); }
    }
  }

  /** The command with one more number. */
  function WithNumber(c: Command, mark: char, n: nat): Command {
    match mark
    case '|' => c.(crossNum := n)
    case '!' => c.(crossNum := -(n as int))
    case '<' => c.(userIn := n)
    case _ => c.(userOut := n)
  }

  /** A number after which the one with this mark counts no more. */
  predicate Overrides(w: string, mark: char) {
    IsNumber(w) && (w[0] == mark || (w[0] == '|' && mark == '!') || (w[0] == '!' && mark == '|'))
  }

  lemma {:induction false} StrippedSplit(a: seq<string>, b: seq<string>)
    ensures Stripped(a + b) == Stripped(a) + Stripped(b)
    decreases |a|
  {
    if a == [] {
      assert a + b == b;
    } else {
      StrippedSplit(a[1..], b);
      assert (a + b)[1..] == a[1..] + b;
    }
  }

  lemma {:induction false} NumbersSplit(p: Parsed, a: seq<string>, b: seq<string>)
    ensures Numbers(p, a + b) == Numbers(Numbers(p, a), b)
    decreases |a|
  {
    if a == [] {
      assert a + b == b;
    } else {
      NumbersSplit(if IsNumber(a[0]) then Step(p, a[0]) else p, a[1..], b);
      assert (a + b)[1..] == a[1..] + b;
    }
  }

  /** Reading a number earlier than words that do not override it. */
  lemma {:induction false} NumberEarlier(p: Parsed, w: string, words: seq<string>)
    requires IsNumber(w) && forall i :: 0 <= i < |words| ==> !Overrides(words[i], w[0])
    ensures Numbers(Step(p, w), words) == Step(Numbers(p, words), w)
    decreases |words|
  {
    if words != [] {
      assert !Overrides(words[0], w[0]);
      if IsNumber(words[0]) {
        assert Step(Step(p, w), words[0]) == Step(Step(p, words[0]), w);
        NumberEarlier(Step(p, words[0]), w, words[1..]);
      } else {
        NumberEarlier(p, w, words[1..]);
      }
    }
  }

  lemma InsertStripped(words: seq<string>, i: nat, w: string)
    requires i <= |words| && IsNumber(w)
    ensures Stripped(words[..i] + [w] + words[i..]) == Stripped(words)
  {
    StrippedSplit(words[..i] + [w], words[i..]);
    StrippedSplit(words[..i], [w]);
    StrippedSplit(words[..i], words[i..]);
    assert words[..i] + words[i..] == words;
    assert Stripped([w]) == [];
    assert Stripped(words[..i]) + [] == Stripped(words[..i]);
  }

  /** A number may be written at any place, as long as no number that overrides it follows. */
  lemma NumberAnywhere(words: seq<string>, c: Command, i: nat, mark: char, n: nat)
    requires |c.stages| >= 1 && Spells(words, c) && i <= |words|
    requires mark == '|' || mark == '!' || mark == '<' || mark == '>'
    requires forall j :: i <= j < |words| ==> !Overrides(words[j], mark)
    ensures Spells(words[..i] + [[mark] + Notation(n)] + words[i..], WithNumber(c, mark, n))
  {
    var w := [mark] + Notation(n);
    NumberIsMarked(mark, n);
    InsertStripped(words, i, w);
    NumbersSplit(START, words[..i] + [w], words[i..]);
    NumbersSplit(START, words[..i], [w]);
    NumbersSplit(START, words[..i], words[i..]);
    assert words[..i] + words[i..] == words;
    var p := Numbers(START, words[..i]);
    assert Numbers(p, [w]) == Step(p, w) by { assert [w][1..] == []; }
    forall j | 0 <= j < |words[i..]|
      ensures !Overrides(words[i..][j], w[0])
    {
      assert words[i..][j] == words[i + j];
    }
    NumberEarlier(p, w, words[i..]);
    hide Stripped, Numbers;
  }

  lemma {:induction false} PlainHasNone(words: seq<string>)
    requires NoNumber(words)
    ensures Stripped(words) == words && Numbers(START, words) == START
  {
    if words != [] { PlainHasNone(words[1..]); }
  }

  lemma {:induction false} StageWordsPlain(stages: seq<seq<string>>, i: nat)
    requires |stages| >= 1 && forall i :: 0 <= i < |stages| ==> AllOrdinary(stages[i])
    requires i < |StageWords(stages)|
    ensures StageWords(stages)[i] != "" && NoSpace(StageWords(stages)[i]) && !IsNumber(StageWords(stages)[i])
    decreases |stages|
  {
    if |stages| > 1 && i > |stages[0]| {
      StageWordsPlain(stages[1..], i - |stages[0]| - 1);
    } else if i < |stages[0]| {
      assert Ordinary(stages[0][i]);
    }
  }

  /** A command without numbers is spelled by its stages and its file. */
  lemma PlainSpells(c: Command)
    requires Writable(c) && c.crossNum == 0 && c.userIn == 0 && c.userOut == 0
    ensures Spells(StageWords(c.stages) + FileWords(c.file), c)
  {
    var words := StageWords(c.stages) + FileWords(c.file);
    forall i | 0 <= i < |words|
      ensures words[i] != "" && NoSpace(words[i]) && !IsNumber(words[i])
    {
      if i < |StageWords(c.stages)| { StageWordsPlain(c.stages, i); }
    }
    PlainHasNone(words);
  }

  // ---- Round trips ----

  /**
    Reading a written command gives the command back: for all stages of ordinary words, with
    or without a file, numbers at any place, and whatever spaces stand between the words.
    */
  lemma WrittenIsUnderstood(c: Command, words: seq<string>, gaps: seq<nat>)
    requires Writable(c) && Spells(words, c) && |gaps| == |words| + 1
    ensures Understood(Parse(START, Tokens(Written(words, gaps)))) == Some(c)
    ensures Parse(START, Tokens(Written(words, gaps))).pipeMode <==> |c.stages| >= 2
  {
    TokensOfWritten(words, gaps);
    ParseSpelled(words, c);
    hide *;
    MeantIsUnderstood(c);
  }

  lemma MeantIsUnderstood(c: Command)
    requires Writable(c)
    ensures Understood(Meant(c)) == Some(c) && (Meant(c).pipeMode <==> |c.stages| >= 2)
  {
    var p := Meant(c);
    if c.file.Some? {
      assert p.collection[..|p.collection| - 1] == c.stages;
    } else {
      assert p.collection == c.stages;
    }
  }

  /** What the written command runs. */
  lemma WrittenIsRun(c: Command, words: seq<string>, gaps: seq<nat>)
    requires Writable(c) && Spells(words, c) && |gaps| == |words| + 1 && c.stages[0] != []
    ensures var p := Parse(START, Tokens(Written(words, gaps)));
            && |p.collection| >= 1 && p.collection[0] == c.stages[0]
            && Ordered(p) == (if |c.stages| >= 2 then Pipes(c.stages, c.file)
                              else if c.stages[0][0] in ["who", "name", "setenv", "printenv"] then BuiltIn(c.stages[0])
                              else Single(c.stages[0], c.file))
  {
    TokensOfWritten(words, gaps);
    ParseSpelled(words, c);
    var p := Meant(c);
    assert p.collection[..|c.stages|] == c.stages;
    hide Stripped, Numbers, Parse, Tokens, Written;
  }

  // ---- tell and yell ----

  predicate OccursAt(s: string, t: string, i: int) {
    0 <= i <= |s| - |t| && s[i..i + |t|] == t
  }

  /** strstr(s, t) != NULL */
  predicate Contains(s: string, t: string) {
    exists i | 0 <= i <= |s| :: OccursAt(s, t, i)
  }

  /** check_cmd: whether the line is a tell or a yell. */
  method CheckCmd(cmd: string) returns (message: bool)
    ensures message <==> Tokens(cmd) != [] && (Tokens(cmd)[0] == "tell" || Tokens(cmd)[0] == "yell")
  {
    FirstWordIsInside(cmd);
    if !Contains(cmd, "tell") && !Contains(cmd, "yell") { return false; }
    var strtok := new Strtok(cmd);
    assert cmd[0..] == cmd;
    var buf := strtok.Next();
    if buf.None? { return false; }
    return buf.value == "tell" || buf.value == "yell";
  }

  lemma {:induction false} FirstWordIsInside(s: string)
    ensures Tokens(s) != [] ==> Contains(s, Tokens(s)[0])
  {
    if s != "" {
      if s[0] == ' ' {
        FirstWordIsInside(s[1..]);
        if Tokens(s[1..]) != [] {
          var w := Tokens(s[1..])[0];
          var i :| 0 <= i <= |s[1..]| && OccursAt(s[1..], w, i);
          assert s[1..][i..i + |w|] == s[i + 1..i + 1 + |w|];
          assert OccursAt(s, w, i + 1);
        }
      } else {
        assert OccursAt(s, s[..WordLength(s)], 0);
      }
    }
  }

  // ---- The line that the wiring is given ----

  /** The stages, numbers and redirection of a parsed line, as single_cmd and ordinary_pipe receive them. */
  function LineOf(p: Parsed): Pipeline.Line
    requires |p.collection| >= 1 && p.userIn >= 0 && p.userOut >= 0
  {
    var n := if !p.pipeMode then 1 else if p.redir then |p.collection| - 1 else |p.collection|;
    Pipeline.Line(n, p.crossNum, p.redir, p.userIn, p.userOut)
  }

  /** ordinary_pipe is only called with two stages or more, whatever the text of the line. */
  lemma PipeModeIsWired(text: string)
    ensures var p := Parse(START, Tokens(text));
            |p.collection| >= 1 && (p.userIn >= 0 && p.userOut >= 0 ==> (p.pipeMode <==> LineOf(p).stages >= 2))
  {
    Separators(START, Tokens(text));
  }

  /** The wiring is given the line that was written: as many stages, the same numbers, and a file if there is one. */
  lemma WrittenIsWired(c: Command, words: seq<string>, gaps: seq<nat>)
    requires Writable(c) && Spells(words, c) && |gaps| == |words| + 1
    ensures var p := Parse(START, Tokens(Written(words, gaps)));
            && |p.collection| >= 1 && p.userIn >= 0 && p.userOut >= 0
            && var line := LineOf(p);
               && line.stages == |c.stages| && line.crossNum == c.crossNum && (line.redir <==> c.file.Some?)
               && line.userIn == c.userIn && line.userOut == c.userOut
  {
    TokensOfWritten(words, gaps);
    ParseSpelled(words, c);
    hide Stripped, Numbers, Parse, Tokens, Written, Spells;
  }
}
