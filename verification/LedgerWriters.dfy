/**
  Exactly which commands can still write a pipe, over whole runs: for numbered pipes from the
  line that reads them on, and for user pipes from the line that made them on.
  */
module LedgerWriters {
  import opened Kernel
  import opened Ledger
  import opened LedgerCommands
  import opened LedgerEnds
  import opened LedgerLeaks
  import opened LedgerLine
  import opened LedgerRuns
  import opened LedgerSession
  import opened Options
  import opened Pipeline
  import opened Wiring

  /** The command has a write end of the pipe. */
  ghost predicate CanWrite(child: Child, p: nat) {
    exists f :: HasEnd(child.fds, f, WriteEnd(p))
  }

  // ---- The life of a command ----

  lemma LineKeepsCommands(s: Server, e: Event, s': Server)
    requires Good(s) && Step(s, e, s') && IsLine(e)
    ensures |s.children| <= |s'.children| && forall j :: 0 <= j < |s.children| ==> s'.children[j] == s.children[j]
  {
    LineHolds(s, e, s');
    LineIsTypists(s, e, s');
    hide Good, Step, NewCommandsHold, Ready;
    assert forall j :: 0 <= j < |s.children| ==> s'.children[j] == e.x.children[..|e.x.before|][j];
  }

  /** A command keeps its descriptors until it ends. */
  lemma StepKeepsCommands(s: Server, e: Event, s': Server)
    requires Good(s) && Step(s, e, s')
    ensures |s.children| <= |s'.children| && (|s.children| < |s'.children| ==> IsLine(e))
    ensures forall j :: 0 <= j < |s.children| ==>
              s'.children[j] == if e == Ended(j) then s.children[j].(fds := map[]) else s.children[j]
    ensures e.Ended? ==> e.command < |s.children|
  {
    if IsLine(e) { LineKeepsCommands(s, e, s'); }
    hide Good, CountedServer, LoggedOut, SingleDone, PipelineDone, StartsAt, ServerAfter;
  }

  predicate EndedIn(events: seq<Event>, i: nat, m: nat, j: nat)
    requires i <= m <= |events|
  {
    Ended(j) in events[i..m]
  }

  lemma StepOfCommand(n: nat, states: seq<Server>, events: seq<Event>, m: nat, j: nat)
    requires RoomyRun(n, states, events) && m < |events| && m + 1 < |states| && j < |states[m].children|
    ensures j < |states[m + 1].children|
    ensures states[m + 1].children[j] == if events[m] == Ended(j) then states[m].children[j].(fds := map[])
            else states[m].children[j]
  {
    StepOfRun(n, states, events, m);
    hide RoomyRun, Good, Step;
    StepKeepsCommands(states[m], events[m], states[m + 1]);
  }

  lemma {:induction false} CommandHistory(n: nat, states: seq<Server>, events: seq<Event>, i: nat, m: nat, j: nat)
    requires RoomyRun(n, states, events) && i <= m < |states| == |events| + 1 && j < |states[i].children|
    ensures j < |states[m].children|
    ensures states[m].children[j] == if EndedIn(events, i, m, j) then states[i].children[j].(fds := map[])
            else states[i].children[j]
  {
    hide RoomyRun;
    if i < m {
      CommandHistory(n, states, events, i, m - 1, j);
      StepOfCommand(n, states, events, m - 1, j);
      assert events[i..m] == events[i..m - 1] + [events[m - 1]];
    }
  }

  /** Event i started command j. */
  predicate Started(states: seq<Server>, i: nat, j: nat) {
    i + 1 < |states| && |states[i].children| <= j < |states[i + 1].children|
  }

  lemma {:induction false} StartOf(n: nat, states: seq<Server>, events: seq<Event>, m: nat, j: nat) returns (i: nat)
    requires RoomyRun(n, states, events) && m < |states| == |events| + 1 && j < |states[m].children|
    ensures i < m && Started(states, i, j) && IsLine(events[i])
  {
    RunBoots(n, states, events);
    assert m > 0;
    hide RoomyRun, Booted;
    if j < |states[m - 1].children| {
      i := StartOf(n, states, events, m - 1, j);
    } else {
      i := m - 1;
      OnlyLinesStart(n, states, events, i);
    }
  }

  lemma OnlyLinesStart(n: nat, states: seq<Server>, events: seq<Event>, i: nat)
    requires RoomyRun(n, states, events) && i < |events| && i + 1 < |states|
             && |states[i].children| < |states[i + 1].children|
    ensures IsLine(events[i])
  {
    StepOfRun(n, states, events, i);
    hide RoomyRun, Good, Step;
    StepKeepsCommands(states[i], events[i], states[i + 1]);
  }

  /** A command does not end before it was started, and is started once. */
  lemma StartedOnce(n: nat, states: seq<Server>, events: seq<Event>, i: nat, k: nat, j: nat)
    requires RoomyRun(n, states, events) && Started(states, i, j) && k < |states| == |events| + 1
    ensures Started(states, k, j) ==> k == i
    ensures k <= i ==> !EndedIn(events, 0, k, j)
  {
    hide RoomyRun;
    if i < k { CommandHistory(n, states, events, i + 1, k, j); }
    if k < i && Started(states, k, j) { CommandHistory(n, states, events, k + 1, i, j); }
    if k <= i && EndedIn(events, 0, k, j) {
      var l :| 0 <= l < k && events[..k][l] == Ended(j);
      EndsStarted(n, states, events, l, j);
      CommandHistory(n, states, events, l, i, j);
    }
  }

  lemma EndsStarted(n: nat, states: seq<Server>, events: seq<Event>, l: nat, j: nat)
    requires RoomyRun(n, states, events) && l < |events| && l < |states| && events[l] == Ended(j)
    ensures j < |states[l].children|
  {
    StepOfRun(n, states, events, l);
    hide RoomyRun, Good;
  }

  /** From its start on a command has its first descriptors, until it ends. */
  lemma SinceStart(n: nat, states: seq<Server>, events: seq<Event>, i: nat, m: nat, j: nat, p: nat)
    requires RoomyRun(n, states, events) && i < m < |states| == |events| + 1 && Started(states, i, j)
    ensures j < |states[m].children| && states[m].children[j].client == states[i + 1].children[j].client
    ensures states[m].children[j].sink == states[i + 1].children[j].sink
    ensures CanWrite(states[m].children[j], p) <==> CanWrite(states[i + 1].children[j], p) && Ended(j) !in events[..m]
  {
    hide RoomyRun;
    CommandHistory(n, states, events, i + 1, m, j);
    StartedOnce(n, states, events, i, i, j);
    NotItsOwnEnd(n, states, events, i, j);
    assert events[..m] == events[0..i] + [events[i]] + events[i + 1..m];
  }

  lemma NotItsOwnEnd(n: nat, states: seq<Server>, events: seq<Event>, i: nat, j: nat)
    requires RoomyRun(n, states, events) && i < |events| && Started(states, i, j)
    ensures events[i] != Ended(j)
  {
    StepOfRun(n, states, events, i);
    hide RoomyRun, Good;
  }

  // ---- What a new command can write ----

  /** A new command's old pipe ends are ends that the server keeps. */
  lemma NewHasKept(s: Server, e: Event, s': Server, j: nat, f: int, p: nat)
    requires Good(s) && Step(s, e, s') && IsLine(e) && |s.children| <= j < |s'.children|
    requires HasEnd(s'.children[j].fds, f, WriteEnd(p)) && p < |s.kinds|
    ensures exists g :: HasEnd(s'.fds, g, WriteEnd(p))
  {
    LineHolds(s, e, s');
    LineEffect(s, e, s');
    GoodIsInv(s);
    SourceEnd(s, e.x);
    LineIsTypists(s, e, s');
    hide Good, Inv, Step, Ready, FdsAfter, GainedEnds, LineKinds, Source;
    assert StillHeld(e.x, WriteEnd(p));
    var g :| g in e.x.fds && e.x.fds[g] == WriteEnd(p);
    assert HasEnd(s'.fds, g, WriteEnd(p));
  }

  /** A command whose |n or !n resolved to a pipe writes it on its standard output. */
  lemma SinkIsWritten(s: Server, e: Event, s': Server, j: nat, p: nat)
    requires Good(s) && Step(s, e, s') && IsLine(e) && |s.children| <= j < |s'.children|
    requires s'.children[j].sink == Some(p)
    ensures HasEnd(s'.children[j].fds, STDOUT, WriteEnd(p))
  {
    LineEffect(s, e, s');
    LineIsTypists(s, e, s');
    hide Good, Step, FdsAfter, GainedEnds, LineKinds;
    if e.RunPipeline? {
      PipelineSink(s, e.x, j, p);
    } else {
      SingleSinks(s, e.x, e.openOk, e.junk0, e.junk1, j, p);
    }
  }

  lemma SingleSinks(s: Server, x: Turn, openOk: bool, junk0: int, junk1: int, j: nat, p: nat)
    requires TypedAt(s, x) && SingleDone(x, openOk, junk0, junk1) && !SelfPipe(x.t, x.u, x.line)
    requires |x.before| <= j < |x.children| && x.children[j].sink == Some(p)
    ensures HasEnd(x.children[j].fds, STDOUT, WriteEnd(p))
  {
    assert j == |x.before|;
    SingleIsFinal(s, x, openOk, junk0, junk1);
    hide SingleDone, Source, SinkEnd, Shed, TypedAt;
    FinalSinks(x, false, Source(x.entry, x.t, x.u, x.line), SinkEnd(x.entry, x.t, x.u, x.line, x.p0), p);
  }

  lemma PipelineSink(s: Server, x: Turn, j: nat, p: nat)
    requires TypedAt(s, x) && PipelineDone(x) && |x.before| <= j < |x.children| && x.children[j].sink == Some(p)
    ensures HasEnd(x.children[j].fds, STDOUT, WriteEnd(p))
  {
    PipelineIsFinal(s, x);
    if j < FinalIndex(x, true) {
      CommandIsStage(x, j - |x.before|);
      hide PipelineDone, Source, Ready, Shed;
    } else {
      var w, rest := AfterInput(x.t, x.u, x.line), BeforeLast(x.entry, x.t, x.u, x.line, x.fdRedir);
      hide PipelineDone, SinkEnd, IsFinal, AfterInput, BeforeLast;
      FinalSinks(x, true, ReadEnd(x.p0 + x.line.stages - 2), SinkEnd(rest, x.t, w, x.line, LastPipe(x, true)), p);
    }
  }

  lemma FinalSinks(x: Turn, pipeline: bool, input: End, output: End, p: nat)
    requires LineFormed(x) && (pipeline ==> x.line.stages >= 1) && IsFinal(x, pipeline, input, output)
    requires x.children[FinalIndex(x, pipeline)].sink == Some(p)
    ensures HasEnd(x.children[FinalIndex(x, pipeline)].fds, STDOUT, WriteEnd(p))
  {
    hide MakesUser, Shed;
  }

  lemma OthersWrite(s: Server, e: Event, s': Server, c: nat, p: nat, j: nat)
    requires Good(s) && Step(s, e, s') && IsLine(e) && c != e.x.u.me && LivePipe(s, c, p)
             && |s.children| <= j < |s'.children|
    ensures CanWrite(s'.children[j], p)
  {
    var i :| SlotPipe(s, c, i, p);
    hide Good, Step;
    OthersInherit(s, e, s', c, i, j);
    assert HasEnd(s'.children[j].fds, s.tables[c].list[i].writeFd, WriteEnd(p));
  }

  lemma OthersTable(s: Server, e: Event, s': Server, c: nat)
    requires Good(s) && Step(s, e, s') && IsLine(e) && c != e.x.u.me && Client(s', c)
    ensures Formed(s) && Client(s, c) && c < |s'.tables| && s'.tables[c] == s.tables[c]
  {
    LineEffect(s, e, s');
    hide Good, Step, FdsAfter, GainedEnds, LineKinds, Gained, InputFds;
  }

  lemma OldEndOfLine(s: Server, e: Event, s': Server, f: int)
    requires Good(s) && Step(s, e, s') && IsLine(e) && f in s'.fds && IsPipe(s'.fds[f]) && s'.fds[f].pipe < |s.kinds|
    ensures f in s.fds && s.fds[f] == s'.fds[f]
  {
    LineEffect(s, e, s');
    hide Good, Step, Effect;
    OldEnd(s, e.x, e.RunPipeline?, f);
  }

  /** A line of another client leaves client c's slots alone. */
  lemma OthersSlots(s: Server, e: Event, s': Server, c: nat, p: nat)
    requires Good(s) && Step(s, e, s') && IsLine(e) && c != e.x.u.me && LivePipe(s', c, p)
    requires p < |s.kinds|
    ensures LivePipe(s, c, p)
  {
    hide Good, Step;
    var i :| SlotPipe(s', c, i, p);
    OthersTable(s, e, s', c);
    OldEndOfLine(s, e, s', s.tables[c].list[i].readFd);
    OldEndOfLine(s, e, s', s.tables[c].list[i].writeFd);
    assert SlotPipe(s, c, i, p);
  }

  lemma OldEnd(s: Server, x: Turn, pipeline: bool, f: int)
    requires Effect(s, x, pipeline) && f in x.fds && IsPipe(x.fds[f]) && x.fds[f].pipe < |s.kinds|
    ensures f in s.fds && s.fds[f] == x.fds[f]
  {
    if f in Gained(x, pipeline) { GainedEnd(x, pipeline, f); }
    hide LineKinds, GainedEnds, Gained, InputFds;
  }

  /**
    What a new command can write of a numbered pipe of client c: a command of c the pipe that
    its |n or !n resolved to, a command of another client every pipe that waits in a slot of c.
    */
  lemma NewWriters(s: Server, e: Event, s': Server, c: nat, p: nat, j: nat)
    requires Good(s) && Good(s') && Step(s, e, s') && IsLine(e) && |s.children| <= j < |s'.children|
    requires p < |s'.kinds| && s'.kinds[p] == Numbered(c)
    ensures CanWrite(s'.children[j], p) <==>
              if s'.children[j].client == c then s'.children[j].sink == Some(p) else LivePipe(s, c, p)
  {
    LineIsTypists(s, e, s');
    if CanWrite(s'.children[j], p) {
      var f :| HasEnd(s'.children[j].fds, f, WriteEnd(p));
      WritersWriteTheirs(s, e, s', c, p, j, f);
    } else if s'.children[j].sink == Some(p) {
      SinkIsWritten(s, e, s', j, p);
    }
    hide Good, Step;
    if s'.children[j].client != c && LivePipe(s, c, p) { OthersWrite(s, e, s', c, p, j); }
  }

  lemma WritersWriteTheirs(s: Server, e: Event, s': Server, c: nat, p: nat, j: nat, f: int)
    requires Good(s) && Good(s') && Step(s, e, s') && IsLine(e) && |s.children| <= j < |s'.children|
    requires p < |s'.kinds| && s'.kinds[p] == Numbered(c) && HasEnd(s'.children[j].fds, f, WriteEnd(p))
    ensures if s'.children[j].client == c then s'.children[j].sink == Some(p) else LivePipe(s, c, p)
  {
    LineIsTypists(s, e, s');
    GoodIsInv(s');
    assert ChildEnd(s', j, f);
    if s'.children[j].client != c {
      NumberedOfOthersIsOld(s, e, s', c, p);
      hide Good, Step, Inv;
      NewHasKept(s, e, s', j, f, p);
      var g :| HasEnd(s'.fds, g, WriteEnd(p));
      OpenNumberedIsLive(s', c, p, g);
      OthersSlots(s, e, s', c, p);
    }
  }

  lemma NumberedOfOthersIsOld(s: Server, e: Event, s': Server, c: nat, p: nat)
    requires Good(s) && Step(s, e, s') && IsLine(e) && c != e.x.u.me && p < |s'.kinds| && s'.kinds[p] == Numbered(c)
    ensures p < |s.kinds|
  {
    LineEffect(s, e, s');
    hide Good, Step, FdsAfter, GainedEnds, TypedAt, Gained, LineKinds;
    if p >= |s.kinds| { NumberedIsTypists(e.x, e.RunPipeline?, p - |s.kinds|); }
  }

  lemma NumberedIsTypists(x: Turn, pipeline: bool, i: nat)
    requires LineFormed(x) && (pipeline ==> x.line.stages >= 1) && i < |LineKinds(x, pipeline)|
             && LineKinds(x, pipeline)[i].Numbered?
    ensures LineKinds(x, pipeline)[i].client == x.u.me
  {
  }

  lemma LivePipeIsOld(s: Server, c: nat, p: nat)
    requires Good(s) && LivePipe(s, c, p)
    ensures p < |s.kinds|
  {
    GoodIsInv(s);
    ServerBelow(s);
    var i :| SlotPipe(s, c, i, p);
    hide Good, Inv;
  }

  lemma WrittenIsOld(s: Server, j: nat, p: nat)
    requires Good(s) && j < |s.children| && CanWrite(s.children[j], p)
    ensures p < |s.kinds|
  {
    GoodIsInv(s);
    var f :| HasEnd(s.children[j].fds, f, WriteEnd(p));
    assert ChildEnd(s, j, f);
    hide Good, Inv;
  }

  lemma LineAddsKinds(s: Server, e: Event, s': Server)
    requires Good(s) && Step(s, e, s') && IsLine(e)
    ensures |s.kinds| <= |s'.kinds|
  {
    LineEffect(s, e, s');
    hide Good, Step, FdsAfter, GainedEnds, LineKinds;
  }

  /** Of a pipe that does not exist yet a new command has nothing. */
  lemma NothingOfFuture(s: Server, e: Event, s': Server, c: nat, p: nat, j: nat)
    requires Good(s) && Good(s') && Step(s, e, s') && IsLine(e) && |s.children| <= j < |s'.children| && p >= |s'.kinds|
    ensures !CanWrite(s'.children[j], p) && s'.children[j].sink != Some(p) && !LivePipe(s, c, p)
  {
    hide Good, Step, CanWrite, LivePipe;
    LineAddsKinds(s, e, s');
    if LivePipe(s, c, p) { LivePipeIsOld(s, c, p); }
    if CanWrite(s'.children[j], p) { WrittenIsOld(s', j, p); }
    if s'.children[j].sink == Some(p) {
      SinkIsWritten(s, e, s', j, p);
      WritesBy(s'.children[j], STDOUT, p);
      WrittenIsOld(s', j, p);
    }
  }

  lemma WritesBy(child: Child, f: int, p: nat)
    requires HasEnd(child.fds, f, WriteEnd(p))
    ensures CanWrite(child, p)
  {
  }

  // ---- Over whole runs ----

  lemma KindWas(s: Server, e: Event, s': Server, c: nat, p: nat)
    requires Good(s) && Step(s, e, s') && p < |s.kinds|
    ensures p < |s'.kinds| && (s'.kinds[p] == Numbered(c) ==> s.kinds[p] == Numbered(c))
  {
    hide Good;
    if IsLine(e) { LineKeepsKinds(s, e, s', c, p); }
    hide SingleDone, PipelineDone, StartsAt, ServerAfter, Counted;
  }

  lemma NumberedJustBefore(n: nat, states: seq<Server>, events: seq<Event>, m: nat, c: nat, p: nat)
    requires RoomyRun(n, states, events) && m < |events| && m + 1 < |states| && p < |states[m].kinds|
    ensures p < |states[m + 1].kinds| && (states[m + 1].kinds[p] == Numbered(c) ==> states[m].kinds[p] == Numbered(c))
  {
    StepOfRun(n, states, events, m);
    hide RoomyRun, Good, Step;
    KindWas(states[m], events[m], states[m + 1], c, p);
  }

  lemma {:induction false} NumberedBefore(n: nat, states: seq<Server>, events: seq<Event>, i: nat, m: nat, c: nat,
                                          p: nat)
    requires RoomyRun(n, states, events) && i <= m < |states| == |events| + 1 && p < |states[i].kinds|
    ensures p < |states[m].kinds| && (states[m].kinds[p] == Numbered(c) ==> states[i].kinds[p] == Numbered(c))
  {
    hide RoomyRun;
    if i < m {
      NumberedBefore(n, states, events, i, m - 1, c, p);
      NumberedJustBefore(n, states, events, m - 1, c, p);
    }
  }

  /** Command j was started while pipe p waited in a slot of client c. */
  ghost predicate StartedBeside(states: seq<Server>, j: nat, c: nat, p: nat) {
    exists i :: 0 <= i < |states| && Started(states, i, j) && LivePipe(states[i], c, p)
  }

  lemma FirstWriters(n: nat, states: seq<Server>, events: seq<Event>, i: nat, m: nat, c: nat, p: nat, j: nat)
    requires RoomyRun(n, states, events) && i < m < |states| == |events| + 1 && Started(states, i, j)
             && IsLine(events[i])
    requires p < |states[m].kinds| && states[m].kinds[p] == Numbered(c)
    ensures CanWrite(states[i + 1].children[j], p)
            <==> if states[i + 1].children[j].client == c then states[i + 1].children[j].sink == Some(p)
              else LivePipe(states[i], c, p)
  {
    StepOfRun(n, states, events, i);
    hide RoomyRun, Good, Step, CanWrite, LivePipe;
    if p < |states[i + 1].kinds| {
      NumberedBefore(n, states, events, i + 1, m, c, p);
      NewWriters(states[i], events[i], states[i + 1], c, p, j);
    } else {
      NothingOfFuture(states[i], events[i], states[i + 1], c, p, j);
    }
  }

  /** As long as a numbered pipe of client c has not lapsed. */
  lemma NumberedWriters(n: nat, states: seq<Server>, events: seq<Event>, m: nat, c: nat, p: nat, j: nat)
    requires RoomyRun(n, states, events) && m < |states| == |events| + 1 && j < |states[m].children|
    requires p < |states[m].kinds| && states[m].kinds[p] == Numbered(c)
    ensures CanWrite(states[m].children[j], p)
            <==> && Ended(j) !in events[..m]
                 && if states[m].children[j].client == c then states[m].children[j].sink == Some(p)
                   else StartedBeside(states, j, c, p)
  {
    var i := StartOf(n, states, events, m, j);
    hide RoomyRun, CanWrite, LivePipe;
    SinceStart(n, states, events, i, m, j, p);
    FirstWriters(n, states, events, i, m, c, p, j);
    forall k: nat | k < |states|
      ensures Started(states, k, j) ==> k == i
    {
      StartedOnce(n, states, events, i, k, j);
    }
  }

  /**
    End-of-file, exactly. Line k of client c reads numbered pipe p. In every later state the
    server holds no end of p, and a command can still write p if and only if it has not ended
    and is a command of c whose |n or !n resolved to p, or a command of another client that
    was started while p waited in its slot. The reader sees end-of-file when these have ended.
    */
  lemma WritersExactly(n: nat, states: seq<Server>, events: seq<Event>, k: nat, m: nat, c: nat, p: nat, j: nat)
    requires RoomyRun(n, states, events) && k < m < |states| == |events| + 1 && ReadsPipe(states[k], events[k], c, p)
    requires j < |states[m].children|
    ensures Released(states[m], p)
    ensures CanWrite(states[m].children[j], p)
            <==> && Ended(j) !in events[..m]
                 && if states[m].children[j].client == c then states[m].children[j].sink == Some(p)
                   else StartedBeside(states, j, c, p)
    ensures CanWrite(states[m].children[j], p) ==> j < |states[k].children|
  {
    hide RoomyRun, ReadsPipe, Released, CanWrite;
    PipeStaysNumbered(n, states, events, k, m, c, p);
    NumberedWriters(n, states, events, m, c, p, j);
    ReaderSeesEnd(n, states, events, k, m, c, p);
    if CanWrite(states[m].children[j], p) { WriterIsOlder(states[k], states[m], c, p, j); }
  }

  lemma WriterIsOlder(s: Server, s': Server, c: nat, p: nat, j: nat)
    requires j < |s'.children| && CanWrite(s'.children[j], p)
    requires forall i, f :: 0 <= i < |s'.children| && f in s'.children[i].fds &&
                            s'.children[i].fds[f] == WriteEnd(p) ==>
               i < |s.children|
    ensures j < |s.children|
  {
  }

  /** When only client c types, only the commands whose |n or !n resolved to the pipe count. */
  lemma SoleClientSeesEnd(n: nat, states: seq<Server>, events: seq<Event>, k: nat, m: nat, c: nat, p: nat, j: nat)
    requires RoomyRun(n, states, events) && TypedBy(events, c)
    requires k < m < |states| == |events| + 1 && ReadsPipe(states[k], events[k], c, p) && j < |states[m].children|
    ensures Released(states[m], p)
    ensures CanWrite(states[m].children[j], p) <==> Ended(j) !in events[..m] && states[m].children[j].sink == Some(p)
  {
    CommandsAreTypists(n, states, events, c, m);
    hide RoomyRun, ReadsPipe, Released, CanWrite, StartedBeside;
    WritersExactly(n, states, events, k, m, c, p, j);
  }

  // ---- User pipes ----

  /** The line stores user pipe p. */
  ghost predicate StoresPipe(s: Server, e: Event, p: nat) {
    && IsLine(e) && StartsAt(s, e.x) && StoresUser(e.x, e.RunPipeline?)
    && (e.RunPipeline? ==> e.x.line.stages >= 1) && p == LastPipe(e.x, e.RunPipeline?)
  }

  predicate IsUserBy(s: Server, p: nat, w: nat) {
    p < |s.kinds| && s.kinds[p].User? && s.kinds[p].writer == w
  }

  lemma StoredIsUser(s: Server, e: Event, s': Server, p: nat)
    requires Good(s) && Step(s, e, s') && StoresPipe(s, e, p)
    ensures IsUserBy(s', p, FinalIndex(e.x, e.RunPipeline?))
  {
    LineEffect(s, e, s');
    NewKind(s, e.x, e.RunPipeline?);
    hide Good, Step, ServerAfter, FdsAfter, GainedEnds;
  }

  lemma UserStays(s: Server, e: Event, s': Server, p: nat, w: nat)
    requires Good(s) && Step(s, e, s') && IsUserBy(s, p, w)
    ensures IsUserBy(s', p, w)
  {
    if IsLine(e) { LineKeepsKinds(s, e, s', 0, p); }
    if e.BuiltIn? || e.LogOut? { CountingKeepsUser(s, e.client, p, w); }
    hide Good, CountedServer, SingleDone, PipelineDone, StartsAt, ServerAfter;
  }

  lemma CountingKeepsUser(s: Server, c: nat, p: nat, w: nat)
    requires Good(s) && Client(s, c) && IsUserBy(s, p, w)
    ensures IsUserBy(CountedServer(s, c), p, w)
  {
    GoodIsInv(s);
    if Counted(s, c).outputPoint >= 0 { ExpiredSlot(s, c); }
    hide Good, Inv, Counted;
  }

  /** The server itself never holds the write end of a user pipe between lines. */
  lemma ServerOnlyReads(s: Server, p: nat, w: nat, f: int)
    requires Good(s) && IsUserBy(s, p, w)
    ensures !HasEnd(s.fds, f, WriteEnd(p))
  {
    if f in s.fds { assert RoleOk(s, f); }
  }

  lemma NewCannotWriteUser(s: Server, e: Event, s': Server, j: nat, p: nat, w: nat)
    requires Good(s) && Good(s') && Step(s, e, s') && IsLine(e) && |s.children| <= j < |s'.children|
    requires IsUserBy(s, p, w) && IsUserBy(s', p, w)
    ensures !CanWrite(s'.children[j], p)
  {
    hide Good, Step;
    if f :| HasEnd(s'.children[j].fds, f, WriteEnd(p)) {
      NewHasKept(s, e, s', j, f, p);
      var g :| HasEnd(s'.fds, g, WriteEnd(p));
      ServerOnlyReads(s', p, w, g);
    }
  }

  lemma UserJustStays(n: nat, states: seq<Server>, events: seq<Event>, m: nat, p: nat, w: nat)
    requires RoomyRun(n, states, events) && m < |events| && m + 1 < |states| && IsUserBy(states[m], p, w)
    ensures IsUserBy(states[m + 1], p, w)
  {
    StepOfRun(n, states, events, m);
    hide RoomyRun, Good, Step, IsUserBy;
    UserStays(states[m], events[m], states[m + 1], p, w);
  }

  lemma {:induction false} UserForGood(n: nat, states: seq<Server>, events: seq<Event>, t: nat, m: nat, p: nat, w: nat)
    requires RoomyRun(n, states, events) && t <= m < |states| == |events| + 1 && IsUserBy(states[t], p, w)
    ensures IsUserBy(states[m], p, w)
  {
    hide RoomyRun, IsUserBy;
    if t < m {
      UserForGood(n, states, events, t, m - 1, p, w);
      UserJustStays(n, states, events, m - 1, p, w);
    }
  }

  lemma WriterIsNamed(s: Server, p: nat, w: nat, j: nat)
    requires Good(s) && IsUserBy(s, p, w) && j < |s.children| && CanWrite(s.children[j], p)
    ensures j == w
  {
    GoodIsInv(s);
    var f :| HasEnd(s.children[j].fds, f, WriteEnd(p));
    assert ChildEnd(s, j, f);
    hide Good, Inv;
  }

  /** Of all commands exactly the last one of the line, if it was started, has the write end. */
  lemma StoringWriters(s: Server, e: Event, s': Server, p: nat, j: nat)
    requires Good(s) && Good(s') && Step(s, e, s') && StoresPipe(s, e, p) && j < |s'.children|
    ensures CanWrite(s'.children[j], p) <==> j == FinalIndex(e.x, e.RunPipeline?)
  {
    StoredIsUser(s, e, s', p);
    hide Good, Step, CanWrite, IsUserBy;
    if CanWrite(s'.children[j], p) { WriterIsNamed(s', p, FinalIndex(e.x, e.RunPipeline?), j); }
    if j == FinalIndex(e.x, e.RunPipeline?) { LastWrites(s, e, s', p); }
  }

  lemma LastWrites(s: Server, e: Event, s': Server, p: nat)
    requires Good(s) && Step(s, e, s') && StoresPipe(s, e, p) && FinalIndex(e.x, e.RunPipeline?) < |s'.children|
    ensures CanWrite(s'.children[FinalIndex(e.x, e.RunPipeline?)], p)
  {
    LineEffect(s, e, s');
    LineIsTypists(s, e, s');
    hide Good, Step, FdsAfter, LineKinds;
    if e.RunPipeline? {
      PipelineLastWrites(s, e.x, p);
    } else {
      SingleLastWrites(s, e.x, e.openOk, e.junk0, e.junk1, p);
    }
  }

  lemma PipelineLastWrites(s: Server, x: Turn, p: nat)
    requires TypedAt(s, x) && PipelineDone(x) && StoresUser(x, true) && p == LastPipe(x, true)
    ensures FinalIndex(x, true) < |x.children| && CanWrite(x.children[FinalIndex(x, true)], p)
  {
    PipelineIsFinal(s, x);
    var w, rest := AfterInput(x.t, x.u, x.line), BeforeLast(x.entry, x.t, x.u, x.line, x.fdRedir);
    assert SinkEnd(rest, x.t, w, x.line, LastPipe(x, true)) == WriteEnd(p);
    hide PipelineDone, SinkEnd, AfterInput, BeforeLast, Shed, TypedAt;
    assert HasEnd(x.children[FinalIndex(x, true)].fds, STDOUT, WriteEnd(p));
  }

  lemma SingleLastWrites(s: Server, x: Turn, openOk: bool, junk0: int, junk1: int, p: nat)
    requires TypedAt(s, x) && SingleDone(x, openOk, junk0, junk1) && !SelfPipe(x.t, x.u, x.line)
    requires StoresUser(x, false) && p == LastPipe(x, false) && FinalIndex(x, false) < |x.children|
    ensures CanWrite(x.children[FinalIndex(x, false)], p)
  {
    SingleIsFinal(s, x, openOk, junk0, junk1);
    assert NewEnds(x.entry, x.fd0, x.fd1);
    assert !x.line.redir ==> SinkEnd(x.entry, x.t, x.u, x.line, x.p0) == WriteEnd(p);
    hide SingleDone, Source, SinkEnd, Shed, TypedAt, MakesUserPipe;
    assert HasEnd(x.children[FinalIndex(x, false)].fds, if x.line.redir then x.fd1 else STDOUT, WriteEnd(p));
  }

  lemma StoredInRun(n: nat, states: seq<Server>, events: seq<Event>, t: nat, m: nat, p: nat)
    requires RoomyRun(n, states, events) && t < m < |states| == |events| + 1 && StoresPipe(states[t], events[t], p)
    ensures IsUserBy(states[m], p, FinalIndex(events[t].x, events[t].RunPipeline?))
  {
    StepOfRun(n, states, events, t);
    hide RoomyRun, Good, Step, StoresPipe, IsUserBy;
    StoredIsUser(states[t], events[t], states[t + 1], p);
    UserForGood(n, states, events, t + 1, m, p, FinalIndex(events[t].x, events[t].RunPipeline?));
  }

  /** A command started after line t. */
  lemma LaterCommand(n: nat, states: seq<Server>, events: seq<Event>, t: nat, i: nat, m: nat, p: nat, j: nat)
    requires RoomyRun(n, states, events) && t < i < m < |states| == |events| + 1 && StoresPipe(states[t], events[t], p)
    requires Started(states, i, j) && IsLine(events[i])
    ensures j < |states[m].children| && !CanWrite(states[m].children[j], p) && j >= |states[t + 1].children|
  {
    var w := FinalIndex(events[t].x, events[t].RunPipeline?);
    hide RoomyRun, CanWrite, StoresPipe, IsUserBy;
    SinceStart(n, states, events, i, m, j, p);
    StoredInRun(n, states, events, t, i, p);
    StoredInRun(n, states, events, t, i + 1, p);
    LaterCannotWrite(n, states, events, i, p, w, j);
    if j < |states[t + 1].children| { CommandHistory(n, states, events, t + 1, i, j); }
  }

  lemma StoringInRun(n: nat, states: seq<Server>, events: seq<Event>, t: nat, p: nat, j: nat)
    requires RoomyRun(n, states, events) && t < |events| && t + 1 < |states| && StoresPipe(states[t], events[t], p)
    requires j < |states[t + 1].children|
    ensures CanWrite(states[t + 1].children[j], p) <==> j == FinalIndex(events[t].x, events[t].RunPipeline?)
  {
    StepOfRun(n, states, events, t);
    hide RoomyRun, Good, Step, StoresPipe, CanWrite;
    StoringWriters(states[t], events[t], states[t + 1], p, j);
  }

  /** A command started on line t or before. */
  lemma EarlierCommand(n: nat, states: seq<Server>, events: seq<Event>, t: nat, i: nat, m: nat, p: nat, j: nat)
    requires RoomyRun(n, states, events) && i <= t < m < |states| == |events| + 1 && StoresPipe(states[t], events[t], p)
    requires Started(states, i, j)
    ensures j < |states[m].children| && j < |states[t + 1].children|
    ensures CanWrite(states[m].children[j], p)
            <==> j == FinalIndex(events[t].x, events[t].RunPipeline?) && Ended(j) !in events[..m]
  {
    hide RoomyRun, CanWrite, StoresPipe;
    SinceStart(n, states, events, i, m, j, p);
    SinceStart(n, states, events, i, t + 1, j, p);
    StoringInRun(n, states, events, t, p, j);
    assert events[..t + 1] == events[..m][..t + 1];
  }

  /**
    End-of-file of a user pipe. Line t stores user pipe p. In every later state the server has
    no write end of p, and a command can write p if and only if it is the last command of line
    t, was started, and has not ended: the reader sees end-of-file exactly when it has.
    */
  lemma UserPipeWriters(n: nat, states: seq<Server>, events: seq<Event>, t: nat, m: nat, p: nat, j: nat)
    requires RoomyRun(n, states, events) && t < m < |states| == |events| + 1 && StoresPipe(states[t], events[t], p)
    requires j < |states[m].children|
    ensures forall f :: f in states[m].fds ==> states[m].fds[f] != WriteEnd(p)
    ensures CanWrite(states[m].children[j], p)
            <==> && j == FinalIndex(events[t].x, events[t].RunPipeline?) && j < |states[t + 1].children|
                 && Ended(j) !in events[..m]
  {
    var w := FinalIndex(events[t].x, events[t].RunPipeline?);
    hide RoomyRun, StoresPipe, CanWrite, IsUserBy;
    StoredInRun(n, states, events, t, m, p);
    NoServerWrites(n, states, events, m, p, w);
    var i := StartOf(n, states, events, m, j);
    if i > t {
      LaterCommand(n, states, events, t, i, m, p, j);
    } else {
      EarlierCommand(n, states, events, t, i, m, p, j);
    }
  }

  lemma NoServerWrites(n: nat, states: seq<Server>, events: seq<Event>, m: nat, p: nat, w: nat)
    requires RoomyRun(n, states, events) && m < |states| && IsUserBy(states[m], p, w)
    ensures forall f :: f in states[m].fds ==> states[m].fds[f] != WriteEnd(p)
  {
    RunsKeepTheBooks(n, states, events, m);
    hide RoomyRun, Good, IsUserBy;
    forall f | f in states[m].fds
      ensures states[m].fds[f] != WriteEnd(p)
    {
      ServerOnlyReads(states[m], p, w, f);
    }
  }

  lemma LaterCannotWrite(n: nat, states: seq<Server>, events: seq<Event>, i: nat, p: nat, w: nat, j: nat)
    requires RoomyRun(n, states, events) && i < |events| && Started(states, i, j) && IsLine(events[i])
    requires IsUserBy(states[i], p, w) && IsUserBy(states[i + 1], p, w)
    ensures !CanWrite(states[i + 1].children[j], p)
  {
    StepOfRun(n, states, events, i);
    hide RoomyRun, Good, Step, IsUserBy;
    NewCannotWriteUser(states[i], events[i], states[i + 1], j, p, w);
  }
}
