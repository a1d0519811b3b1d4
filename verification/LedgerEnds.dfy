/**
  When the reader of a numbered pipe sees end-of-file. From the line that reads the pipe on,
  the server holds no end of it, and the commands that can still write it are those started
  earlier whose |n or !n resolved to it, and earlier commands of other clients.
  */
module LedgerEnds {
  import opened Chains
  import opened Kernel
  import opened Ledger
  import opened LedgerCommands
  import opened LedgerLine
  import opened LedgerRuns
  import opened LedgerSession
  import opened Options
  import opened Pipeline
  import opened SlotTable
  import opened Wiring

  predicate IsEndOf(e: End, p: nat) {
    IsPipe(e) && e.pipe == p
  }

  /** The pipe exists, and the server holds neither end of it. */
  ghost predicate Released(s: Server, p: nat) {
    p < |s.kinds| && forall f :: f in s.fds ==> !IsEndOf(s.fds[f], p)
  }

  // ---- A command has what the server keeps, or new pipes ----

  /** If this is a pipe end, the server still holds it after the line, or its pipe is new. */
  ghost predicate StillHeld(x: Turn, e: End) {
    IsPipe(e) ==> e.pipe >= x.p0 || exists f :: f in x.fds && x.fds[f] == e
  }

  lemma KeptIsHeld(x: Turn, pipeline: bool, f: int)
    requires LineFormed(x) && FdsAfter(x, pipeline) && f in x.entry && f !in InputFds(x.t, x.u, x.line)
    ensures StillHeld(x, x.entry[f])
  {
    assert f in x.fds && x.fds[f] == x.entry[f];
  }

  lemma NewIsHeld(x: Turn, p: nat)
    requires p >= x.p0
    ensures StillHeld(x, ReadEnd(p)) && StillHeld(x, WriteEnd(p))
  {
  }

  lemma SocketIsHeld(x: Turn, pipeline: bool)
    requires LineFormed(x) && FdsAfter(x, pipeline) && Ready(x.entry, x.t, x.u, x.line)
    ensures StillHeld(x, x.entry[x.u.sock])
  {
    KeptIsHeld(x, pipeline, x.u.sock);
    hide FdsAfter, StillHeld, LineFormed, RecordApart;
  }

  /** Every stage but the last; the first one also has the line's input. */
  lemma StageHolds(x: Turn, i: nat, f: int)
    requires LineFormed(x) && FdsAfter(x, true)
    requires Ready(x.entry, x.t, x.u, x.line) && IsStage(x, i) && f in x.children[|x.before| + i].fds
    requires !(i == 0 && f == STDIN)
    ensures StillHeld(x, x.children[|x.before| + i].fds[f])
  {
    SocketIsHeld(x, true);
    hide Ready, Source, StillHeld, FdsAfter, InputFds;
    if f < 0 || f > 2 { KeptIsHeld(x, true, f); }
    NewIsHeld(x, x.p0 + i);
    if i > 0 { NewIsHeld(x, x.p0 + i - 1); }
  }

  lemma FinalHolds(x: Turn, pipeline: bool, input: End, output: End, f: int)
    requires LineFormed(x) && FdsAfter(x, pipeline) && Ready(x.entry, x.t, x.u, x.line)
    requires (pipeline ==> x.line.stages >= 1) && IsFinal(x, pipeline, input, output) && StillHeld(x, output)
    requires f in x.children[FinalIndex(x, pipeline)].fds
    requires f == STDIN ==> StillHeld(x, input)
    ensures StillHeld(x, x.children[FinalIndex(x, pipeline)].fds[f])
  {
    SocketIsHeld(x, pipeline);
    hide StillHeld, MakesUser, FdsAfter, InputFds, Ready, LineFormed;
    if f in x.entry && f !in Shed(x.t, x.u, x.line) { KeptIsHeld(x, pipeline, f); }
    NewIsHeld(x, LastPipe(x, pipeline));
  }

  lemma OutputIsHeld(x: Turn, pipeline: bool, from: Fds, w: Users, p: nat)
    requires LineFormed(x) && FdsAfter(x, pipeline) && Ready(x.entry, x.t, x.u, x.line)
    requires UsersFormed(w) && w.sock in from && p >= x.p0
    requires Resolved(x.t, x.line) >= 0 ==> x.t.list[Resolved(x.t, x.line)].writeFd in from
    requires forall f :: f in from && IsPipe(from[f]) ==>
               f in x.entry && f !in InputFds(x.t, x.u, x.line) && x.entry[f] == from[f]
    ensures StillHeld(x, SinkEnd(from, x.t, w, x.line, p))
  {
    NewIsHeld(x, p);
    hide Resolved, UsersFormed, StillHeld, FdsAfter, InputFds, Ready, LineFormed;
    if IsPipe(from[w.sock]) { KeptIsHeld(x, pipeline, w.sock); }
    if Resolved(x.t, x.line) >= 0 {
      if IsPipe(from[x.t.list[Resolved(x.t, x.line)].writeFd]) {
        KeptIsHeld(x, pipeline, x.t.list[Resolved(x.t, x.line)].writeFd);
      }
    }
  }

  /** What a new command holds the server still holds, or it is new, or it is the line's input. */
  ghost predicate NewCommandsHold(x: Turn)
    requires Ready(x.entry, x.t, x.u, x.line)
  {
    forall k, f :: |x.before| <= k < |x.children| && f in x.children[k].fds ==>
      StillHeld(x, x.children[k].fds[f])
      || (k == |x.before| && f == STDIN && x.children[k].fds[f] == Source(x.entry, x.t, x.u, x.line))
  }

  lemma ResolvedIsKept(x: Turn)
    requires LineFormed(x) && Ready(x.entry, x.t, x.u, x.line) && Resolved(x.t, x.line) >= 0
    ensures x.t.list[Resolved(x.t, x.line)].writeFd in x.entry - InputFds(x.t, x.u, x.line)
  {
    var i := Resolved(x.t, x.line);
    assert i in x.t.record;
    var k :| 0 <= k < |x.t.record| && x.t.record[k] == i;
    RecordedHas(x.t, -1, |x.t.record|, k);
    hide Find, Resolved, InputFds;
  }

  lemma SingleHolds(s: Server, x: Turn, openOk: bool, junk0: int, junk1: int)
    requires TypedAt(s, x) && SingleDone(x, openOk, junk0, junk1) && !SelfPipe(x.t, x.u, x.line) && FdsAfter(x, false)
    ensures Ready(x.entry, x.t, x.u, x.line) && NewCommandsHold(x)
  {
    var rest := x.entry - InputFds(x.t, x.u, x.line);
    var input, output := Source(x.entry, x.t, x.u, x.line), SinkEnd(x.entry, x.t, x.u, x.line, x.p0);
    assert |x.children| <= |x.before| + 1;
    if Resolved(x.t, x.line) >= 0 { ResolvedIsKept(x); }
    if |x.children| > |x.before| {
      SingleIsFinal(s, x, openOk, junk0, junk1);
      SingleOutputHeld(x, openOk, junk0, junk1);
      assert Ready(x.entry, x.t, x.u, x.line);
      hide SingleDone, IsFinal, StillHeld, Ready, FdsAfter, SinkEnd, TypedAt, Resolved, InputFds;
      forall f | f in x.children[|x.before|].fds && f != STDIN
        ensures StillHeld(x, x.children[|x.before|].fds[f])
      {
        FinalHolds(x, false, input, output, f);
      }
      FinalReads(x, false, input, output);
    }
  }

  lemma FinalReads(x: Turn, pipeline: bool, input: End, output: End)
    requires LineFormed(x) && (pipeline ==> x.line.stages >= 1) && IsFinal(x, pipeline, input, output)
    ensures var child := x.children[FinalIndex(x, pipeline)];
            STDIN in child.fds && child.fds[STDIN] == input && child.client == x.u.me
  {
    hide MakesUser, Shed;
  }

  lemma SingleOutputHeld(x: Turn, openOk: bool, junk0: int, junk1: int)
    requires LineFormed(x) && SingleDone(x, openOk, junk0, junk1) && FdsAfter(x, false)
    ensures StillHeld(x, SinkEnd(x.entry, x.t, x.u, x.line, x.p0))
  {
    var rest := x.entry - InputFds(x.t, x.u, x.line);
    assert Ready(x.entry, x.t, x.u, x.line);
    if Resolved(x.t, x.line) >= 0 { ResolvedIsKept(x); }
    assert x.u.sock in rest;
    hide SingleDone, StillHeld, FdsAfter, Resolved, InputFds;
    OutputIsHeld(x, false, rest, x.u, x.p0);
    assert SinkEnd(rest, x.t, x.u, x.line, x.p0) == SinkEnd(x.entry, x.t, x.u, x.line, x.p0);
  }

  lemma LastHolds(s: Server, x: Turn, f: int)
    requires TypedAt(s, x) && PipelineDone(x) && FdsAfter(x, true) && |x.children| == |x.before| + x.line.stages
    requires f in x.children[FinalIndex(x, true)].fds
    ensures StillHeld(x, x.children[FinalIndex(x, true)].fds[f])
  {
    var w, rest := AfterInput(x.t, x.u, x.line), BeforeLast(x.entry, x.t, x.u, x.line, x.fdRedir);
    PipelineIsFinal(s, x);
    assert ForkReady(rest, x.t, w) && x.line.stages >= 2 && Ready(x.entry, x.t, x.u, x.line);
    assert forall g :: g in rest && IsPipe(rest[g]) ==>
        g in x.entry && g !in InputFds(x.t, x.u, x.line) && x.entry[g] == rest[g];
    NewIsHeld(x, x.p0 + x.line.stages - 2);
    assert Resolved(x.t, x.line) >= 0 ==> x.t.list[Resolved(x.t, x.line)].writeFd in rest;
    hide PipelineDone, StillHeld, IsFinal, SinkEnd, AfterInput, BeforeLast, FdsAfter, Ready, TypedAt, InputFds,
      Resolved;
    OutputIsHeld(x, true, rest, w, LastPipe(x, true));
    FinalHolds(x, true, ReadEnd(x.p0 + x.line.stages - 2), SinkEnd(rest, x.t, w, x.line, LastPipe(x, true)), f);
  }

  lemma PipelineHolds(s: Server, x: Turn)
    requires TypedAt(s, x) && PipelineDone(x) && FdsAfter(x, true)
    ensures Ready(x.entry, x.t, x.u, x.line) && NewCommandsHold(x)
  {
    PipelineIsFinal(s, x);
    assert Ready(x.entry, x.t, x.u, x.line) && x.line.stages >= 2;
    forall k, f | |x.before| <= k < |x.children| && f in x.children[k].fds
      ensures StillHeld(x, x.children[k].fds[f])
              || (k == |x.before| && f == STDIN && x.children[k].fds[f] == Source(x.entry, x.t, x.u, x.line))
    {
      if k == FinalIndex(x, true) {
        LastHolds(s, x, f);
      } else {
        CommandIsStage(x, k - |x.before|);
        hide PipelineDone, StillHeld, FdsAfter, Ready;
        if !(k == |x.before| && f == STDIN) { StageHolds(x, k - |x.before|, f); }
      }
    }
  }

  // ---- One step ----

  predicate IsLine(e: Event) {
    e.RunSingle? || e.RunPipeline?
  }

  lemma LineEffect(s: Server, e: Event, s': Server)
    requires Good(s) && Step(s, e, s') && IsLine(e)
    ensures TypedAt(s, e.x) && Effect(s, e.x, e.RunPipeline?) && s' == ServerAfter(s, e.x, e.RunPipeline?)
  {
    LineHint(s, e.x);
    hide Good, FdsAfter, GainedEnds, TypedAt;
    if e.RunPipeline? {
      PipelineEffect(s, e.x);
    } else {
      SingleEffect(s, e.x, e.openOk, e.junk0, e.junk1);
    }
  }

  lemma LineHolds(s: Server, e: Event, s': Server)
    requires Good(s) && Step(s, e, s') && IsLine(e)
    ensures Ready(e.x.entry, e.x.t, e.x.u, e.x.line) && NewCommandsHold(e.x)
    ensures |e.x.before| <= |e.x.children| && e.x.children[..|e.x.before|] == e.x.before
  {
    LineEffect(s, e, s');
    hide Good, FdsAfter, GainedEnds, TypedAt, NewCommandsHold, Ready;
    if e.RunPipeline? {
      PipelineHolds(s, e.x);
      CommandAt(e.x, 0);
    } else {
      SingleHolds(s, e.x, e.openOk, e.junk0, e.junk1);
    }
  }

  /** Line e of client c reads numbered pipe p. */
  ghost predicate ReadsPipe(s: Server, e: Event, c: nat, p: nat) {
    && IsLine(e) && StartsAt(s, e.x) && e.x.u.me == c && e.x.t.outputPoint >= 0
    && e.x.t.list[e.x.t.outputPoint].readFd in s.fds && s.fds[e.x.t.list[e.x.t.outputPoint].readFd] == ReadEnd(p)
  }

  /** The line that reads a pipe leaves no end of it with the server. */
  lemma ReadingReleases(s: Server, e: Event, s': Server, c: nat, p: nat)
    requires Good(s) && Step(s, e, s') && ReadsPipe(s, e, c, p)
    ensures Released(s', p) && p < |s.kinds| && s.kinds[p] == Numbered(c) && s'.kinds[p] == Numbered(c)
  {
    var x := e.x;
    LineEffect(s, e, s');
    assert Inv(s);
    ExpiredSlot(s, c);
    hide Good, Inv, GainedEnds, LineKinds, Ready, NewCommandsHold, Step, Counted;
    forall f | f in s'.fds
      ensures !IsEndOf(s'.fds[f], p)
    {
      if f in Gained(x, e.RunPipeline?) {
        GainedEnd(x, e.RunPipeline?, f);
      } else if IsPipe(s.fds[f]) {
        OnlyItsEnds(s, c, f);
      }
    }
    KindKept(s, x, e.RunPipeline?, ReadEnd(p));
  }

  /** Whoever holds an end of p after the step held it before. */
  ghost predicate OldHolders(s: Server, s': Server, p: nat) {
    && |s.children| <= |s'.children|
    && (forall j :: 0 <= j < |s.children| ==>
        s.children[j].client == s'.children[j].client && s.children[j].sink == s'.children[j].sink)
    && forall j, f :: 0 <= j < |s'.children| && f in s'.children[j].fds && IsEndOf(s'.children[j].fds[f], p) ==>
         j < |s.children| && f in s.children[j].fds && s.children[j].fds[f] == s'.children[j].fds[f]
  }

  lemma LineKeepsReleased(s: Server, e: Event, s': Server, p: nat)
    requires Good(s) && Step(s, e, s') && Released(s, p) && IsLine(e)
    ensures Released(s', p) && OldHolders(s, s', p) && s'.kinds[p] == s.kinds[p]
  {
    var x := e.x;
    LineEffect(s, e, s');
    LineHolds(s, e, s');
    LineFdsReleased(s, x, e.RunPipeline?, p);
    KindKept(s, x, e.RunPipeline?, ReadEnd(p));
    assert x.entry == s.fds && x.before == s.children && x.p0 == |s.kinds|;
    hide Good, LineKinds, Step, Effect, TypedAt, NewCommandsHold, Ready, LineFormed, InputFds;
    LineAddsNoHolder(s, x, p);
  }

  lemma LineFdsReleased(s: Server, x: Turn, pipeline: bool, p: nat)
    requires Effect(s, x, pipeline) && Released(s, p)
    ensures forall f :: f in x.fds ==> !IsEndOf(x.fds[f], p)
  {
    hide LineKinds, Counted, UsersOf, StoredUsers, TableAfterLine;
    forall f | f in x.fds
      ensures !IsEndOf(x.fds[f], p)
    {
      if f in Gained(x, pipeline) { GainedEnd(x, pipeline, f); }
    }
  }

  lemma LineAddsNoHolder(s: Server, x: Turn, p: nat)
    requires Ready(x.entry, x.t, x.u, x.line) && NewCommandsHold(x) && x.entry == s.fds && x.before == s.children
             && x.p0 == |s.kinds|
    requires |x.before| <= |x.children| && x.children[..|x.before|] == x.before
    requires Released(s, p) && forall f :: f in x.fds ==> !IsEndOf(x.fds[f], p)
    ensures forall j, f :: 0 <= j < |x.children| && f in x.children[j].fds && IsEndOf(x.children[j].fds[f], p) ==>
              j < |s.children| && f in s.children[j].fds && s.children[j].fds[f] == x.children[j].fds[f]
    ensures forall j :: 0 <= j < |s.children| ==> s.children[j] == x.children[j]
  {
    SourceIsNoEnd(s, x, p);
    forall j | 0 <= j < |s.children|
      ensures s.children[j] == x.children[j]
    {
      assert x.children[j] == x.children[..|x.before|][j];
    }
    hide Source, Ready;
  }

  lemma SourceIsNoEnd(s: Server, x: Turn, p: nat)
    requires Ready(x.entry, x.t, x.u, x.line) && x.entry == s.fds && Released(s, p)
    ensures !IsEndOf(Source(x.entry, x.t, x.u, x.line), p)
  {
  }

  lemma StepKeepsReleased(s: Server, e: Event, s': Server, p: nat)
    requires Good(s) && Step(s, e, s') && Released(s, p)
    ensures StaysReleased(s, s', p)
  {
    if IsLine(e) {
      LineKeepsReleased(s, e, s', p);
    } else if e.BuiltIn? {
      CountingKeepsReleased(s, e.client, p);
    } else if e.LogOut? {
      CountingKeepsReleased(s, e.client, p);
    }
    hide Good, LeaverFds, CountedServer;
  }

  lemma CountingKeepsReleased(s: Server, c: nat, p: nat)
    requires Good(s) && Released(s, p) && Client(s, c)
    ensures var s' := CountedServer(s, c);
            s'.fds == s.fds && s'.children == s.children && |s'.kinds| == |s.kinds| && s'.kinds[p] == s.kinds[p]
  {
    assert Inv(s);
    if Counted(s, c).outputPoint >= 0 { ExpiredSlot(s, c); }
    hide Good, Inv;
  }

  // ---- Runs ----

  ghost predicate RoomyRun(n: nat, states: seq<Server>, events: seq<Event>) {
    IsRun(n, states, events) && forall i :: 0 <= i < |states| ==> Room(states[i])
  }

  lemma StepOfRun(n: nat, states: seq<Server>, events: seq<Event>, k: nat)
    requires RoomyRun(n, states, events) && k < |events|
    ensures |states| == |events| + 1 && Good(states[k]) && Good(states[k + 1])
            && Step(states[k], events[k], states[k + 1])
  {
    RunsKeepTheBooks(n, states, events, k);
    RunsKeepTheBooks(n, states, events, k + 1);
  }

  /** The pipe stays released, with fewer holders, and its kind does not change. */
  ghost predicate StaysReleased(s: Server, s': Server, p: nat) {
    && p < |s.kinds| && p < |s'.kinds| && s'.kinds[p] == s.kinds[p]
    && Released(s', p) && OldHolders(s, s', p)
  }

  lemma NextStaysReleased(n: nat, states: seq<Server>, events: seq<Event>, m: nat, p: nat)
    requires RoomyRun(n, states, events) && m < |events| && m + 1 < |states| && Released(states[m], p)
    ensures StaysReleased(states[m], states[m + 1], p)
  {
    StepOfRun(n, states, events, m);
    hide *;
    StepKeepsReleased(states[m], events[m], states[m + 1], p);
  }

  /** A pipe that the server let go of stays gone: its holders only become fewer. */
  lemma {:induction false} ReleasedForGood(n: nat, states: seq<Server>, events: seq<Event>, k: nat, m: nat, p: nat)
    requires RoomyRun(n, states, events) && k <= m < |states| && Released(states[k], p)
    ensures StaysReleased(states[k], states[m], p)
  {
    assert |states| == |events| + 1;
    if k < m {
      ReleasedForGood(n, states, events, k, m - 1, p);
      ReleasedChain(n, states, events, k, m - 1, p);
    }
    hide RoomyRun;
  }

  lemma ReleasedChain(n: nat, states: seq<Server>, events: seq<Event>, k: nat, m: nat, p: nat)
    requires RoomyRun(n, states, events) && k <= m < |events| && m + 1 < |states|
             && StaysReleased(states[k], states[m], p)
    ensures StaysReleased(states[k], states[m + 1], p)
  {
    assert Released(states[m], p);
    hide RoomyRun, Released, OldHolders;
    NextStaysReleased(n, states, events, m, p);
    HoldersTransitive(states[k], states[m], states[m + 1], p);
  }

  lemma HoldersTransitive(s: Server, s1: Server, s2: Server, p: nat)
    requires OldHolders(s, s1, p) && OldHolders(s1, s2, p)
    ensures OldHolders(s, s2, p)
  {
  }

  /** Right after the reading line: the writers are older commands. */
  lemma WritersAreOlder(s: Server, e: Event, s': Server, c: nat, p: nat, j: nat, f: int)
    requires Good(s) && Step(s, e, s') && ReadsPipe(s, e, c, p)
    requires j < |s'.children| && f in s'.children[j].fds && s'.children[j].fds[f] == WriteEnd(p)
    ensures j < |s.children| && f in s.children[j].fds && s.children[j].fds[f] == WriteEnd(p)
  {
    LineEffect(s, e, s');
    LineHolds(s, e, s');
    ReadingReleases(s, e, s', c, p);
    var x := e.x;
    assert Source(x.entry, x.t, x.u, x.line) == ReadEnd(p);
    if j < |x.before| { assert x.children[j] == x.children[..|x.before|][j]; }
    hide Good, Step, ReadsPipe, Source, Ready, FdsAfter, GainedEnds, LineKinds;
  }

  /**
    End-of-file. Line k of client c reads numbered pipe p. In every later state the server
    holds no end of p, and every command that can still write p was started before line k,
    and is one whose |n or !n resolved to p or one of another client. So the reader sees
    end-of-file when these have ended.
    */
  lemma ReaderSeesEnd(n: nat, states: seq<Server>, events: seq<Event>, k: nat, m: nat, c: nat, p: nat)
    requires RoomyRun(n, states, events) && k < m < |states| && k < |events| && ReadsPipe(states[k], events[k], c, p)
    ensures Released(states[m], p)
    ensures forall j, f :: 0 <= j < |states[m].children| && f in states[m].children[j].fds &&
                           states[m].children[j].fds[f] == WriteEnd(p) ==>
              && j < |states[k].children| && f in states[k].children[j].fds
              && states[k].children[j].fds[f] == WriteEnd(p)
              && (states[m].children[j].sink == Some(p) || states[m].children[j].client != c)
  {
    StepOfRun(n, states, events, k);
    ReadingReleases(states[k], events[k], states[k + 1], c, p);
    ReleasedForGood(n, states, events, k + 1, m, p);
    RunsKeepTheBooks(n, states, events, m);
    forall j, f | 0 <= j < |states[m].children| && f in states[m].children[j].fds
      && states[m].children[j].fds[f] == WriteEnd(p)
      ensures j < |states[k].children| && f in states[k].children[j].fds && states[k].children[j].fds[f] == WriteEnd(p)
      ensures states[m].children[j].sink == Some(p) || states[m].children[j].client != c
    {
      assert IsEndOf(states[m].children[j].fds[f], p);
      hide RoomyRun, Step, Good, ReadsPipe;
      WritersAreOlder(states[k], events[k], states[k + 1], c, p, j, f);
      GoodIsInv(states[m]);
      WritersAreResolved(states[m], p, c, j, f);
    }
  }

  lemma GoodIsInv(s: Server)
    ensures Good(s) ==> Inv(s)
  {
  }

  /** The first command of the reading line reads the pipe. */
  lemma ReaderReads(s: Server, e: Event, s': Server, c: nat, p: nat)
    requires Good(s) && Step(s, e, s') && ReadsPipe(s, e, c, p) && |s'.children| > |s.children|
    ensures var reader := s'.children[|s.children|];
            reader.client == c && STDIN in reader.fds && reader.fds[STDIN] == ReadEnd(p)
  {
    var x := e.x;
    LineEffect(s, e, s');
    assert Source(x.entry, x.t, x.u, x.line) == ReadEnd(p);
    if e.RunPipeline? {
      CommandIsStage(x, 0);
    } else {
      SingleIsFinal(s, x, e.openOk, e.junk0, e.junk1);
      FinalReads(x, false, Source(x.entry, x.t, x.u, x.line), SinkEnd(x.entry, x.t, x.u, x.line, x.p0));
    }
    hide Good, Step, Source, Ready, FdsAfter, GainedEnds, LineKinds, Effect;
  }

  // ---- Where end-of-file is held back ----

  /** A descriptor that the line does not take over is inherited by every command of the line. */
  lemma StageInherits(x: Turn, i: nat, f: int)
    requires Ready(x.entry, x.t, x.u, x.line) && IsStage(x, i)
    requires f in x.entry && f !in Shed(x.t, x.u, x.line) && f > 2
    ensures f in x.children[|x.before| + i].fds && x.children[|x.before| + i].fds[f] == x.entry[f]
  {
    hide Ready, Shed, Source;
  }

  lemma FinalInherits(x: Turn, pipeline: bool, input: End, output: End, f: int)
    requires LineFormed(x) && (pipeline ==> x.line.stages >= 1) && IsFinal(x, pipeline, input, output)
    requires f in x.entry && f !in Shed(x.t, x.u, x.line) && f > 2
    requires x.line.redir && MakesUser(x, pipeline) ==> f != x.fd0 && f != x.fd1
    ensures f in x.children[FinalIndex(x, pipeline)].fds && x.children[FinalIndex(x, pipeline)].fds[f] == x.entry[f]
  {
    hide Shed, MakesUser;
  }

  lemma NewEndsAreNew(s: Server, e: Event, s': Server, f: int)
    requires Good(s) && Step(s, e, s') && IsLine(e) && MakesUser(e.x, e.RunPipeline?)
    requires f in s.fds && f !in Shed(e.x.t, e.x.u, e.x.line)
    ensures f != e.x.fd0 && f != e.x.fd1
  {
    LineEffect(s, e, s');
    hide Good, FdsAfter, GainedEnds;
  }

  /** What a command of client c's line needs not be closed: a live numbered pipe of another client. */
  lemma OthersAreNotShed(s: Server, x: Turn, c: nat, i: nat)
    requires Inv(s) && TypedAt(s, x) && Client(s, c) && c != x.u.me && i < |s.tables[c].list| && Live(s.tables[c], i)
    ensures SlotOwned(s, c, i)
    ensures s.tables[c].list[i].writeFd > 2 && s.tables[c].list[i].readFd > 2
    ensures s.tables[c].list[i].writeFd !in Shed(x.t, x.u, x.line)
            && s.tables[c].list[i].readFd !in Shed(x.t, x.u, x.line)
  {
    assert SlotOwned(s, c, i);
    NotShedIfOther(s, x, s.tables[c].list[i].writeFd);
    NotShedIfOther(s, x, s.tables[c].list[i].readFd);
  }

  lemma NotShedIfOther(s: Server, x: Turn, f: int)
    requires Inv(s) && TypedAt(s, x) && f in s.role && (s.role[f].NumWrite? || s.role[f].NumRead?)
             && s.role[f].client != x.u.me
    ensures f > 2 && f !in Shed(x.t, x.u, x.line)
  {
    assert RoleOk(s, f);
    if f in InputFds(x.t, x.u, x.line) { InputOwned(s, x.u.me, x.line, f); }
    if f in RecordedFds(x.t, -1, |x.t.record|) { var i := RecordedOwned(s, x.u.me, f); }
  }

  /**
    The single-process server closes only the acting client's numbered pipes in a command:
    every command that a line of one client starts inherits both ends of every live
    numbered pipe of every other client, so the readers of those pipes see no end-of-file
    before it ends as well.
    */
  lemma OthersInherit(s: Server, e: Event, s': Server, c: nat, i: nat, k: nat)
    requires Good(s) && Step(s, e, s') && IsLine(e) && Client(s, c) && c != e.x.u.me
    requires i < |s.tables[c].list| && Live(s.tables[c], i) && |s.children| <= k < |s'.children|
    ensures var slot, child := s.tables[c].list[i], s'.children[k];
            && slot.writeFd in child.fds && slot.writeFd in s.fds && child.fds[slot.writeFd] == s.fds[slot.writeFd]
            && slot.readFd in child.fds && slot.readFd in s.fds && child.fds[slot.readFd] == s.fds[slot.readFd]
  {
    LineEffect(s, e, s');
    GoodIsInv(s);
    OthersAreNotShed(s, e.x, c, i);
    assert s'.children == e.x.children && e.x.before == s.children;
    hide Good, Inv, Effect, TypedAt;
    Inherited(s, e, s', k, s.tables[c].list[i].writeFd);
    Inherited(s, e, s', k, s.tables[c].list[i].readFd);
  }

  lemma Inherited(s: Server, e: Event, s': Server, k: nat, f: int)
    requires Good(s) && Step(s, e, s') && IsLine(e) && |s.children| <= k < |e.x.children|
    requires f in s.fds && f > 2 && LineFormed(e.x) && f !in Shed(e.x.t, e.x.u, e.x.line)
    ensures f in e.x.children[k].fds && e.x.children[k].fds[f] == s.fds[f]
  {
    var x := e.x;
    LineEffect(s, e, s');
    assert x.entry == s.fds && x.before == s.children;
    hide Good, Effect, Shed, Ready;
    if MakesUser(x, e.RunPipeline?) { NewEndsAreNew(s, e, s', f); }
    if e.RunPipeline? {
      PipelineInherits(s, x, k, f);
    } else {
      SingleInherits(s, x, e.openOk, e.junk0, e.junk1, k, f);
    }
  }

  lemma SingleInherits(s: Server, x: Turn, openOk: bool, junk0: int, junk1: int, k: nat, f: int)
    requires TypedAt(s, x) && SingleDone(x, openOk, junk0, junk1) && !SelfPipe(x.t, x.u, x.line)
             && |s.children| <= k < |x.children|
    requires f in s.fds && f > 2 && f !in Shed(x.t, x.u, x.line)
    requires MakesUser(x, false) ==> f != x.fd0 && f != x.fd1
    ensures f in x.children[k].fds && x.children[k].fds[f] == s.fds[f]
  {
    assert x.entry == s.fds && x.before == s.children && k == |x.before|;
    SingleIsFinal(s, x, openOk, junk0, junk1);
    hide Shed, SingleDone, Source, SinkEnd;
    FinalInherits(x, false, Source(x.entry, x.t, x.u, x.line), SinkEnd(x.entry, x.t, x.u, x.line, x.p0), f);
  }

  lemma PipelineInherits(s: Server, x: Turn, k: nat, f: int)
    requires TypedAt(s, x) && PipelineDone(x) && |s.children| <= k < |x.children|
    requires f in s.fds && f > 2 && f !in Shed(x.t, x.u, x.line)
    requires MakesUser(x, true) ==> f != x.fd0 && f != x.fd1
    ensures f in x.children[k].fds && x.children[k].fds[f] == s.fds[f]
  {
    PipelineIsFinal(s, x);
    assert x.entry == s.fds && x.before == s.children && x.line.stages >= 2;
    if k < FinalIndex(x, true) {
      CommandIsStage(x, k - |x.before|);
      hide Shed, Ready, PipelineDone;
      StageInherits(x, k - |x.before|, f);
    } else {
      var w, rest := AfterInput(x.t, x.u, x.line), BeforeLast(x.entry, x.t, x.u, x.line, x.fdRedir);
      hide Shed, PipelineDone, SinkEnd, AfterInput, BeforeLast;
      FinalInherits(x, true, ReadEnd(x.p0 + x.line.stages - 2), SinkEnd(rest, x.t, w, x.line, LastPipe(x, true)), f);
    }
  }

  // ---- When one client types ----

  lemma SingleIsTypists(s: Server, x: Turn, openOk: bool, junk0: int, junk1: int, k: nat)
    requires TypedAt(s, x) && SingleDone(x, openOk, junk0, junk1) && !SelfPipe(x.t, x.u, x.line)
             && |x.before| <= k < |x.children|
    ensures x.children[k].client == x.u.me
  {
    assert k == |x.before|;
    SingleIsFinal(s, x, openOk, junk0, junk1);
    hide SingleDone, Source, SinkEnd;
    FinalReads(x, false, Source(x.entry, x.t, x.u, x.line), SinkEnd(x.entry, x.t, x.u, x.line, x.p0));
  }

  lemma PipelineIsTypists(s: Server, x: Turn, k: nat)
    requires TypedAt(s, x) && PipelineDone(x) && |x.before| <= k < |x.children|
    ensures x.children[k].client == x.u.me
  {
    PipelineIsFinal(s, x);
    assert x.line.stages >= 2;
    if k < FinalIndex(x, true) {
      CommandIsStage(x, k - |x.before|);
      hide PipelineDone, Source, Ready, Shed;
    } else {
      var w, rest := AfterInput(x.t, x.u, x.line), BeforeLast(x.entry, x.t, x.u, x.line, x.fdRedir);
      hide PipelineDone, SinkEnd, IsFinal, AfterInput, BeforeLast;
      FinalReads(x, true, ReadEnd(x.p0 + x.line.stages - 2), SinkEnd(rest, x.t, w, x.line, LastPipe(x, true)));
    }
  }

  lemma LineIsTypists(s: Server, e: Event, s': Server)
    requires Good(s) && Step(s, e, s') && IsLine(e)
    ensures e.x.children == s'.children && e.x.before == s.children
    ensures forall k :: |e.x.before| <= k < |e.x.children| ==> e.x.children[k].client == e.x.u.me
  {
    LineEffect(s, e, s');
    hide Good, FdsAfter, GainedEnds;
    forall k | |e.x.before| <= k < |e.x.children|
      ensures e.x.children[k].client == e.x.u.me
    {
      if e.RunPipeline? {
        PipelineIsTypists(s, e.x, k);
      } else {
        SingleIsTypists(s, e.x, e.openOk, e.junk0, e.junk1, k);
      }
    }
  }

  ghost predicate TypedBy(events: seq<Event>, c: nat) {
    forall k :: 0 <= k < |events| && IsLine(events[k]) ==> events[k].x.u.me == c
  }

  /** All commands so far are client c's. */
  predicate OnlyFrom(s: Server, c: nat) {
    forall j :: 0 <= j < |s.children| ==> s.children[j].client == c
  }

  lemma StepKeepsTypist(s: Server, e: Event, s': Server, c: nat)
    requires Good(s) && Step(s, e, s') && (IsLine(e) ==> e.x.u.me == c)
    requires OnlyFrom(s, c)
    ensures OnlyFrom(s', c)
  {
    if IsLine(e) {
      hide Good, NewCommandsHold, Ready, Step;
      LineHolds(s, e, s');
      LineIsTypists(s, e, s');
      assert forall j :: 0 <= j < |s.children| ==> s'.children[j] == e.x.children[..|e.x.before|][j];
    }
  }

  lemma NextIsTypists(n: nat, states: seq<Server>, events: seq<Event>, c: nat, m: nat)
    requires RoomyRun(n, states, events) && TypedBy(events, c) && m < |events| && m + 1 < |states|
    requires OnlyFrom(states[m], c)
    ensures OnlyFrom(states[m + 1], c)
  {
    StepOfRun(n, states, events, m);
    assert IsLine(events[m]) ==> events[m].x.u.me == c;
    hide RoomyRun, TypedBy, Good, Step, OnlyFrom;
    StepKeepsTypist(states[m], events[m], states[m + 1], c);
  }

  lemma {:induction false} CommandsAreTypists(n: nat, states: seq<Server>, events: seq<Event>, c: nat, m: nat)
    requires RoomyRun(n, states, events) && TypedBy(events, c) && m < |states| == |events| + 1
    ensures OnlyFrom(states[m], c)
  {
    if m == 0 {
      NoCommandsYet(n, states, events);
    } else {
      hide RoomyRun, TypedBy, OnlyFrom;
      CommandsAreTypists(n, states, events, c, m - 1);
      NextIsTypists(n, states, events, c, m - 1);
    }
  }

  lemma NoCommandsYet(n: nat, states: seq<Server>, events: seq<Event>)
    requires RoomyRun(n, states, events)
    ensures |states| > 0 && states[0].children == []
  {
    hide Room, Step;
  }

  lemma PipeStaysNumbered(n: nat, states: seq<Server>, events: seq<Event>, k: nat, m: nat, c: nat, p: nat)
    requires RoomyRun(n, states, events) && k < m < |states| && k < |events| && ReadsPipe(states[k], events[k], c, p)
    ensures p < |states[m].kinds| && states[m].kinds[p] == Numbered(c)
  {
    StepOfRun(n, states, events, k);
    ReadingReleases(states[k], events[k], states[k + 1], c, p);
    hide Good, Step, ReadsPipe, Released;
    ReleasedForGood(n, states, events, k + 1, m, p);
  }
}
