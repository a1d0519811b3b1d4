/**
  How a line is read: strtok on spaces (section 7.24.5.8 of ISO/IEC 9899:2011) and
  string_split, with the printed form of a command that string_split undoes.
  */
module CommandLine {
  import opened Decimal
  import opened Options

  // ---- strtok ----

  predicate NoSpace(s: string) {
    forall i :: 0 <= i < |s| ==> s[i] != ' '
  }

  /** How many characters come before the first space. */
  function WordLength(s: string): (n: nat)
    ensures n <= |s| && NoSpace(s[..n]) && (n < |s| ==> s[n] == ' ')
  {
    if s == "" || s[0] == ' ' then 0 else 1 + WordLength(s[1..])
  }

  /** The words of a text: what is left between runs of spaces. */
  function Tokens(s: string): seq<string> {
    if s == "" then []
    else if s[0] == ' ' then Tokens(s[1..])
    else [s[..WordLength(s)]] + Tokens(s[WordLength(s)..])
  }

  /** strtok with " ": it keeps the place in the text where the last word ended. */
  class Strtok {
    const text: string
    var at: nat

    constructor (text: string)
      ensures this.text == text && at == 0
    {
      this.text := text;
      at := 0;
    }

    method Next() returns (word: Option<string>)
      requires at <= |text|
      modifies this
      ensures at <= |text|
      ensures match word
              case None => Tokens(text[old(at)..]) == []
              case Some(w) => Tokens(text[old(at)..]) == [w] + Tokens(text[at..])
    {
      hide Tokens, WordLength;
      ghost var start := at;
      while at < |text| && text[at] == ' '
        invariant start <= at <= |text| && Tokens(text[start..]) == Tokens(text[at..])
      {
        SpaceAt(text, at);
        at := at + 1;
      }
      if at == |text| {
        NothingLeft(text);
        return None;
      }
      var from := at;
      while at < |text| && text[at] != ' '
        invariant from <= at <= |text| && WordLength(text[from..]) == at - from + WordLength(text[at..])
      {
        LetterAt(text, at);
        at := at + 1;
      }
      word := Some(text[from..at]);
      WordAt(text, from);
    }
  }

  lemma LetterAt(text: string, at: nat)
    requires at < |text| && text[at] != ' '
    ensures WordLength(text[at..]) == 1 + WordLength(text[at + 1..])
  {
    assert text[at..][1..] == text[at + 1..];
  }

  lemma NothingLeft(text: string)
    ensures Tokens(text[|text|..]) == []
  {
  }

  lemma SpaceAt(text: string, at: nat)
    requires at < |text| && text[at] == ' '
    ensures Tokens(text[at..]) == Tokens(text[at + 1..])
  {
    assert text[at..][1..] == text[at + 1..];
  }

  lemma WordAt(text: string, at: nat)
    requires at < |text| && text[at] != ' '
    ensures var end := at + WordLength(text[at..]);
            end <= |text| && Tokens(text[at..]) == [text[at..end]] + Tokens(text[end..])
  {
    var n := WordLength(text[at..]);
    assert text[at..][..n] == text[at..at + n] && text[at..][n..] == text[at + n..];
  }

  // ---- string_split ----

  /** `collection` is cmd_collection[0..cmd_num]; pipeMode is mode == 1. */
  datatype Parsed = Parsed(collection: seq<seq<string>>, crossNum: int, redir: bool, userIn: int, userOut: int,
                           pipeMode: bool)

  const START := Parsed([[]], 0, false, 0, 0, false)

  predicate Separator(w: string) {
    w == "|" || w == ">"
  }

  predicate Marked(w: string) {
    w != "" && (w[0] == '|' || w[0] == '!' || w[0] == '<' || w[0] == '>')
  }

  /** One word of the line. */
  function Step(p: Parsed, w: string): Parsed {
    if Separator(w) then
      p.(collection := p.collection + [[]], pipeMode := p.pipeMode || w == "|", redir := p.redir || w == ">")
    else if Marked(w) then
      match w[0]
      case '|' => p.(crossNum := Atoi(w[1..]))
      case '!' => p.(crossNum := -Atoi(w[1..]))
      case '<' => p.(userIn := Atoi(w[1..]))
      case _ => p.(userOut := Atoi(w[1..]))
    else AddWord(p, w)
  }

  function AddWord(p: Parsed, w: string): Parsed {
    if p.collection == [] then p
    else p.(collection := p.collection[|p.collection| - 1 := p.collection[|p.collection| - 1] + [w]])
  }

  function Parse(p: Parsed, words: seq<string>): Parsed
    decreases |words|
  {
    if words == [] then p else Parse(Step(p, words[0]), words[1..])
  }

  /** One round of the reading loop of string_split. */
  method ReadWord(p: Parsed, w: string) returns (q: Parsed)
    requires |p.collection| >= 1
    ensures q == Step(p, w) && |q.collection| >= 1
  {
    var collection, crossNum, redir, userIn, userOut := p.collection, p.crossNum, p.redir, p.userIn, p.userOut;
    var mode := p.pipeMode;
    if w == "|" || w == ">" {
      collection := collection + [[]];
      if w == "|" {
        if !mode { mode := true; }
      } else {
        redir := true;
      }
    } else if w != "" && (w[0] == '|' || w[0] == '!' || w[0] == '<' || w[0] == '>') {
      var num := w[1..];
      if w[0] == '|' || w[0] == '!' {
        crossNum := Atoi(num);
        if w[0] == '!' { crossNum := crossNum * -1; }
      } else if w[0] == '<' {
        userIn := Atoi(num);
      } else {
        userOut := Atoi(num);
      }
    } else {
      var cmdNum := |collection| - 1;
      collection := collection[cmdNum := collection[cmdNum] + [w]];
    }
    q := Parsed(collection, crossNum, redir, userIn, userOut, mode);
  }

  /** The reading loop of string_split. */
  method StringSplit(allCmd: string) returns (p: Parsed)
    ensures p == Parse(START, Tokens(allCmd)) && |p.collection| >= 1
  {
    p := START;
    var strtok := new Strtok(allCmd);
    ghost var left := Tokens(allCmd);
    assert allCmd[0..] == allCmd;
    var buf := strtok.Next();
    while buf.Some?
      invariant strtok.text == allCmd && strtok.at <= |allCmd| && |p.collection| >= 1
      invariant left == (if buf.Some? then [buf.value] + Tokens(allCmd[strtok.at..]) else [])
      invariant Parse(START, Tokens(allCmd)) == Parse(p, left)
      decreases |left|
    {
      p := ReadWord(p, buf.value);
      left := left[1..];
      buf := strtok.Next();
    }
  }

  // ---- What is run ----

  datatype Order =
    | BuiltIn(words: seq<string>)
    | Single(words: seq<string>, file: Option<string>)
    | Pipes(stages: seq<seq<string>>, file: Option<string>)

  predicate IsBuiltIn(w: string) {
    w == "who" || w == "name" || w == "setenv" || w == "printenv"
  }

  /** The first word of a stage, which the code takes for the name of the file. */
  function FileOf(words: seq<string>): Option<string> {
    if words == [] then None else Some(words[0])
  }

  /** The dispatch at the end of string_split; every line it is given has a first word. */
  function Ordered(p: Parsed): Order
    requires |p.collection| >= 1 && p.collection[0] != []
  {
    var n := |p.collection| - 1;
    if !p.pipeMode then
      if IsBuiltIn(p.collection[0][0]) then BuiltIn(p.collection[0])
      else Single(p.collection[0], if p.redir && n >= 1 then FileOf(p.collection[1]) else None)
    else if p.redir then Pipes(p.collection[..n], FileOf(p.collection[n]))
    else Pipes(p.collection, None)
  }

  // ---- Reading word by word ----

  lemma {:induction false} ParseSplit(p: Parsed, a: seq<string>, b: seq<string>)
    ensures Parse(p, a + b) == Parse(Parse(p, a), b)
    decreases |a|
  {
    if a == [] {
      assert a + b == b;
    } else {
      ParseSplit(Step(p, a[0]), a[1..], b);
      assert (a + b)[1..] == a[1..] + b;
    }
  }

  /** How many words start a new stage, and of which kind. */
  lemma {:induction false} Separators(p: Parsed, words: seq<string>)
    requires |p.collection| >= 1
    ensures |Parse(p, words).collection| >= |p.collection|
    ensures Parse(p, words).pipeMode && !p.pipeMode ==> |Parse(p, words).collection| >= |p.collection| + 1
    ensures Parse(p, words).redir && !p.redir ==> |Parse(p, words).collection| >= |p.collection| + 1
    ensures Parse(p, words).pipeMode && !p.pipeMode && Parse(p, words).redir && !p.redir ==>
              |Parse(p, words).collection| >= |p.collection| + 2
    decreases |words|
  {
    if words != [] { Separators(Step(p, words[0]), words[1..]); }
  }

  /**
    Whatever the line is, a line that string_split gives to ordinary_pipe has at least two
    stages, so its first and last commands differ; with a `> file` there is a stage for the file.
    */
  lemma PipeModeHasTwoStages(text: string)
    ensures var p := Parse(START, Tokens(text));
            && |p.collection| >= 1
            && (p.pipeMode && p.collection[0] != [] ==> Ordered(p).Pipes? && |Ordered(p).stages| >= 2)
            && (p.redir ==> |p.collection| >= 2)
  {
    Separators(START, Tokens(text));
  }

  predicate NoSeparator(words: seq<string>) {
    forall i :: 0 <= i < |words| ==> !Separator(words[i])
  }

  lemma PlainStep(p: Parsed, w: string)
    requires |p.collection| >= 1 && !Separator(w)
    ensures var n := |p.collection| - 1;
            Step(p, w).collection == p.collection[n := p.collection[n] + (if Marked(w) then [] else [w])]
    ensures Step(p, w).redir == p.redir && Step(p, w).pipeMode == p.pipeMode
  {
    assert p.collection[|p.collection| - 1] + [] == p.collection[|p.collection| - 1];
  }

  lemma {:induction false} WithoutSeparator(p: Parsed, words: seq<string>)
    requires |p.collection| >= 1 && NoSeparator(words)
    ensures var n := |p.collection| - 1;
            Parse(p, words).collection == p.collection[n := p.collection[n] + Unmarked(words)]
    ensures Parse(p, words).redir == p.redir && Parse(p, words).pipeMode == p.pipeMode
    decreases |words|
  {
    var n := |p.collection| - 1;
    if words == [] {
      assert p.collection[n] + [] == p.collection[n];
    } else {
      PlainStep(p, words[0]);
      WithoutSeparator(Step(p, words[0]), words[1..]);
      hide Step, Separator, Marked;
      var first := if Marked(words[0]) then [] else [words[0]];
      assert p.collection[n] + first + Unmarked(words[1..]) == p.collection[n] + Unmarked(words);
    }
  }

  /** The words that are not numbers for a pipe. */
  function Unmarked(words: seq<string>): seq<string> {
    if words == [] then [] else (if Marked(words[0]) then [] else [words[0]]) + Unmarked(words[1..])
  }

  /**
    The file of a pipeline is the first word after the last separator. So it is the word
    that follows a `>` exactly when the last separator is `>`: in `ls > f | cat` the
    commands are `ls` and `f`, and the file is `cat`.
    */
  lemma FileFollowsLastSeparator(before: seq<string>, sep: string, after: seq<string>)
    requires Separator(sep) && NoSeparator(after)
    ensures var p := Parse(START, before + [sep] + after);
            && |p.collection| >= 2 && p.collection[|p.collection| - 1] == Unmarked(after)
            && (p.pipeMode && p.redir && p.collection[0] != [] ==>
                  Ordered(p).Pipes? && Ordered(p).file == FileOf(Unmarked(after)))
  {
    Separators(START, before);
    ParseSplit(START, before, [sep]);
    ParseSplit(START, before + [sep], after);
    var p := Parse(START, before);
    assert Parse(p, [sep]) == Step(p, sep) by { assert [sep][1..] == []; }
    WithoutSeparator(Step(p, sep), after);
    assert [] + Unmarked(after) == Unmarked(after);
  }

  lemma PlainWord(p: Parsed, w: string)
    requires w != "" && w[0] != '|' && w[0] != '!' && w[0] != '<' && w[0] != '>'
    ensures Step(p, w) == AddWord(p, w)
  {
  }

  lemma MixupSteps()
    ensures Step(START, "ls") == Parsed([["ls"]], 0, false, 0, 0, false)
    ensures Step(Parsed([["ls"]], 0, false, 0, 0, false), ">") == Parsed([["ls"], []], 0, true, 0, 0, false)
    ensures Step(Parsed([["ls"], []], 0, true, 0, 0, false), "f") == Parsed([["ls"], ["f"]], 0, true, 0, 0, false)
    ensures Step(Parsed([["ls"], ["f"]], 0, true, 0, 0, false), "|") == Parsed([["ls"], ["f"], []], 0, true, 0, 0, true)
    ensures Step(Parsed([["ls"], ["f"], []], 0, true, 0, 0, true), "cat")
            == Parsed([["ls"], ["f"], ["cat"]], 0, true, 0, 0, true)
  {
    PlainWord(START, "ls");
    assert [] + ["ls"] == ["ls"];
    assert [[]][0 := [] + ["ls"]] == [["ls"]];
    assert ">"[0] == '>' && "|"[0] == '|';
    PlainWord(Parsed([["ls"], []], 0, true, 0, 0, false), "f");
    assert [] + ["f"] == ["f"];
    assert [["ls"], []][1 := [] + ["f"]] == [["ls"], ["f"]];
    PlainWord(Parsed([["ls"], ["f"], []], 0, true, 0, 0, true), "cat");
    assert [] + ["cat"] == ["cat"];
    assert [["ls"], ["f"], []][2 := [] + ["cat"]] == [["ls"], ["f"], ["cat"]];
  }

  /** Such a line. */
  lemma FileMixup()
    ensures var p := Parse(START, ["ls", ">", "f", "|", "cat"]);
            p.collection == [["ls"], ["f"], ["cat"]] && Ordered(p) == Pipes([["ls"], ["f"]], Some("cat"))
  {
    var p1 := Parsed([["ls"]], 0, false, 0, 0, false);
    var p2 := Parsed([["ls"], []], 0, true, 0, 0, false);
    var p3 := Parsed([["ls"], ["f"]], 0, true, 0, 0, false);
    var p4 := Parsed([["ls"], ["f"], []], 0, true, 0, 0, true);
    var p5 := Parsed([["ls"], ["f"], ["cat"]], 0, true, 0, 0, true);
    MixupSteps();
    Next(START, "ls", [">", "f", "|", "cat"]);
    Next(p1, ">", ["f", "|", "cat"]);
    Next(p2, "f", ["|", "cat"]);
    Next(p3, "|", ["cat"]);
    Next(p4, "cat", []);
    assert p5.collection[..2] == [["ls"], ["f"]];
  }

  lemma Next(p: Parsed, w: string, rest: seq<string>)
    ensures Parse(p, [w] + rest) == Parse(Step(p, w), rest)
  {
    assert ([w] + rest)[1..] == rest;
  }
}
