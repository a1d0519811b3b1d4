/**
  The commands that a line starts fit into the ledger, so the line as a whole keeps the
  invariant.
  */
module LedgerCommands {
  import opened Chains
  import opened Kernel
  import opened Ledger
  import opened LedgerLine
  import opened Options
  import opened Pipeline
  import opened SlotTable
  import opened Wiring

  lemma InheritedOk(s: Server, x: Turn, pipeline: bool, k: nat, f: int)
    requires Effect(s, x, pipeline) && k < |x.children| && f in x.children[k].fds
    requires x.children[k].client == x.u.me && Inheritable(s, x.u.me, x.children[k].fds[f])
    ensures ChildEnd(ServerAfter(s, x, pipeline), k, f)
  {
    if IsPipe(x.children[k].fds[f]) { KindKept(s, x, pipeline, x.children[k].fds[f]); }
    hide Effect;
  }

  /** A standard input that is the line's input. */
  lemma SourceOk(s: Server, x: Turn, pipeline: bool, k: nat)
    requires Inv(s) && Effect(s, x, pipeline) && Ready(x.entry, x.t, x.u, x.line)
    requires k < |x.children| && STDIN in x.children[k].fds
    requires x.children[k].fds[STDIN] == Source(x.entry, x.t, x.u, x.line)
    ensures ChildEnd(ServerAfter(s, x, pipeline), k, STDIN)
  {
    SourceEnd(s, x);
    if IsPipe(x.children[k].fds[STDIN]) { KindKept(s, x, pipeline, x.children[k].fds[STDIN]); }
    hide Effect, Inv, Source, Ready;
  }

  lemma SocketIsNoPipe(s: Server, x: Turn)
    requires Inv(s) && TypedAt(s, x)
    ensures x.u.sock in s.fds && x.u.sock in x.entry && x.entry[x.u.sock] == s.fds[x.u.sock] && !IsPipe(s.fds[x.u.sock])
  {
    assert ClientOwns(s, x.u.me) && RoleOk(s, s.sockfd[x.u.me]);
  }

  /** The pipe between stages i and i+1. */
  lemma LinkKind(s: Server, x: Turn, i: nat)
    requires Effect(s, x, true) && i < x.line.stages - 1
    ensures x.p0 + i < |ServerAfter(s, x, true).kinds|
    ensures ServerAfter(s, x, true).kinds[x.p0 + i] == Stage(|x.before| + i)
  {
  }

  /** A descriptor beyond the standard three that a command inherits from the server. */
  lemma KeptOk(s: Server, x: Turn, pipeline: bool, k: nat, f: int)
    requires Inv(s) && Effect(s, x, pipeline) && k < |x.children| && x.children[k].client == x.u.me
    requires f in s.fds && f !in Shed(x.t, x.u, x.line) && f in x.children[k].fds && x.children[k].fds[f] == s.fds[f]
    ensures ChildEnd(ServerAfter(s, x, pipeline), k, f)
  {
    KeptEnd(s, x, f);
    InheritedOk(s, x, pipeline, k, f);
    hide *;
  }

  /** The command of stage i, when that is not the last. */
  ghost predicate IsStage(x: Turn, i: nat)
    requires Ready(x.entry, x.t, x.u, x.line)
  {
    && |x.before| + i < |x.children|
    && x.children[|x.before| + i] ==
       Child(x.u.me, Runs(x.entry - Shed(x.t, x.u, x.line),
                          if i == 0 then Source(x.entry, x.t, x.u, x.line) else ReadEnd(x.p0 + i - 1),
                          WriteEnd(x.p0 + i), x.entry[x.u.sock]), None)
  }

  lemma StageInput(s: Server, x: Turn, i: nat)
    requires Inv(s) && Effect(s, x, true) && i < x.line.stages - 1
    requires Ready(x.entry, x.t, x.u, x.line) && IsStage(x, i)
    ensures STDIN in x.children[|x.before| + i].fds && ChildEnd(ServerAfter(s, x, true), |x.before| + i, STDIN)
  {
    hide Inv, Shed, Ready, Source, LineKinds, Gained;
    if i > 0 { LinkKind(s, x, i - 1); }
    hide Effect;
    if i == 0 { SourceOk(s, x, true, |x.before|); }
  }

  lemma LinkWriteOk(s: Server, x: Turn, i: nat)
    requires Effect(s, x, true) && i < x.line.stages - 1 && |x.before| + i < |x.children|
    requires STDOUT in x.children[|x.before| + i].fds && x.children[|x.before| + i].fds[STDOUT] == WriteEnd(x.p0 + i)
    ensures ChildEnd(ServerAfter(s, x, true), |x.before| + i, STDOUT)
  {
    LinkKind(s, x, i);
    hide Effect;
  }

  lemma NoPipeOk(s: Server, x: Turn, pipeline: bool, k: nat, f: int)
    requires Effect(s, x, pipeline) && k < |x.children| && f in x.children[k].fds && !IsPipe(x.children[k].fds[f])
    ensures ChildEnd(ServerAfter(s, x, pipeline), k, f)
  {
    hide Effect;
  }

  lemma StageOutput(s: Server, x: Turn, i: nat, f: int)
    requires Inv(s) && Effect(s, x, true) && i < x.line.stages - 1 && 1 <= f <= 2
    requires Ready(x.entry, x.t, x.u, x.line) && IsStage(x, i)
    requires f in x.children[|x.before| + i].fds
    ensures ChildEnd(ServerAfter(s, x, true), |x.before| + i, f)
  {
    SocketIsNoPipe(s, x);
    hide Effect, Inv, Shed, Ready, TypedAt, Source, LineFormed, ServerAfter, ChildEnd;
    if f == STDOUT { LinkWriteOk(s, x, i); } else { NoPipeOk(s, x, true, |x.before| + i, f); }
  }

  lemma StageCommand(s: Server, x: Turn, i: nat, f: int)
    requires Inv(s) && Effect(s, x, true) && i < x.line.stages - 1
    requires Ready(x.entry, x.t, x.u, x.line) && IsStage(x, i)
    requires f in x.children[|x.before| + i].fds
    ensures ChildEnd(ServerAfter(s, x, true), |x.before| + i, f)
  {
    if f == STDIN {
      StageInput(s, x, i);
    } else if 1 <= f <= 2 {
      StageOutput(s, x, i, f);
    } else {
      assert x.entry == s.fds;
      hide Effect, Inv, Shed, Ready, Source;
      KeptOk(s, x, true, |x.before| + i, f);
    }
  }

  // ---- The command that writes the line's output ----

  function FinalIndex(x: Turn, pipeline: bool): nat
    requires pipeline ==> x.line.stages >= 1
  {
    |x.before| + if pipeline then x.line.stages - 1 else 0
  }

  /** The last, or only, command: it inherits what others do, and the pipe that a `> file` left without use. */
  ghost predicate IsFinal(x: Turn, pipeline: bool, input: End, output: End)
    requires LineFormed(x) && (pipeline ==> x.line.stages >= 1)
  {
    var kept := x.entry - Shed(x.t, x.u, x.line);
    var p := LastPipe(x, pipeline);
    && x.u.sock in x.entry
    && FinalIndex(x, pipeline) < |x.children|
    && x.children[FinalIndex(x, pipeline)] ==
       Child(x.u.me, Runs(if x.line.redir && MakesUser(x, pipeline)
                          then kept[x.fd0 := ReadEnd(p)][x.fd1 := WriteEnd(p)] else kept,
                          input, output, if x.line.crossNum < 0 then output else x.entry[x.u.sock]),
             SinkPipe(x.line, output))
  }

  /** What the output may be: see SinkIs. */
  predicate OutputIs(s': Server, x: Turn, pipeline: bool, e: End)
    requires pipeline ==> x.line.stages >= 1
  {
    IsPipe(e) ==>
      && e.WriteEnd? && e.pipe < |s'.kinds|
      && ((s'.kinds[e.pipe] == Numbered(x.u.me) && x.line.crossNum != 0)
          || s'.kinds[e.pipe] == User(x.line.userOut, x.u.me, FinalIndex(x, pipeline)))
  }

  lemma FinalOutput(s: Server, x: Turn, pipeline: bool, input: End, output: End, f: int)
    requires Inv(s) && Effect(s, x, pipeline) && IsFinal(x, pipeline, input, output)
    requires OutputIs(ServerAfter(s, x, pipeline), x, pipeline, output)
    requires f == STDOUT || f == STDERR
    ensures f in x.children[FinalIndex(x, pipeline)].fds
            && ChildEnd(ServerAfter(s, x, pipeline), FinalIndex(x, pipeline), f)
  {
    SocketIsNoPipe(s, x);
    hide Effect, Inv, Shed, TypedAt, LineKinds, Gained, MakesUser;
  }

  /** The pipe that a `> file` left without use. */
  lemma FinalStray(s: Server, x: Turn, pipeline: bool, input: End, output: End, f: int)
    requires Inv(s) && Effect(s, x, pipeline) && IsFinal(x, pipeline, input, output)
    requires x.line.redir && MakesUser(x, pipeline) && (f == x.fd0 || f == x.fd1) && x.fd0 != x.fd1
    requires (f < 0 || f > 2) && f in x.children[FinalIndex(x, pipeline)].fds
    ensures ChildEnd(ServerAfter(s, x, pipeline), FinalIndex(x, pipeline), f)
  {
    NewKind(s, x, pipeline);
    hide Inv, Shed, TypedAt, LineKinds, Gained, MakesUserPipe, FdsAfter, GainedEnds;
  }

  lemma FinalKept(s: Server, x: Turn, pipeline: bool, input: End, output: End, f: int)
    requires Inv(s) && Effect(s, x, pipeline) && IsFinal(x, pipeline, input, output)
    requires !(x.line.redir && MakesUser(x, pipeline) && (f == x.fd0 || f == x.fd1))
    requires (f < 0 || f > 2) && f in x.children[FinalIndex(x, pipeline)].fds
    ensures ChildEnd(ServerAfter(s, x, pipeline), FinalIndex(x, pipeline), f)
  {
    assert x.entry == s.fds;
    hide Effect, Inv, Shed, MakesUser;
    KeptOk(s, x, pipeline, FinalIndex(x, pipeline), f);
  }

  lemma FinalCommand(s: Server, x: Turn, pipeline: bool, input: End, output: End, f: int)
    requires Inv(s) && Effect(s, x, pipeline) && IsFinal(x, pipeline, input, output)
    requires OutputIs(ServerAfter(s, x, pipeline), x, pipeline, output)
    requires STDIN in x.children[FinalIndex(x, pipeline)].fds
    requires ChildEnd(ServerAfter(s, x, pipeline), FinalIndex(x, pipeline), STDIN)
    requires x.line.redir && MakesUser(x, pipeline) ==> x.fd0 != x.fd1
    requires f in x.children[FinalIndex(x, pipeline)].fds
    ensures ChildEnd(ServerAfter(s, x, pipeline), FinalIndex(x, pipeline), f)
  {
    assert UsersFormed(x.u);
    hide Inv, Effect, IsFinal, ServerAfter, ChildEnd, OutputIs, MakesUser;
    if f == STDOUT || f == STDERR {
      FinalOutput(s, x, pipeline, input, output, f);
    } else if f != STDIN {
      if x.line.redir && MakesUser(x, pipeline) && (f == x.fd0 || f == x.fd1) {
        FinalStray(s, x, pipeline, input, output, f);
      } else {
        FinalKept(s, x, pipeline, input, output, f);
      }
    }
  }

  // ---- single_cmd and ordinary_pipe ----

  lemma SingleIsFinal(s: Server, x: Turn, openOk: bool, junk0: int, junk1: int)
    requires TypedAt(s, x) && SingleDone(x, openOk, junk0, junk1) && !SelfPipe(x.t, x.u, x.line)
    requires |x.children| > |x.before|
    ensures IsFinal(x, false, Source(x.entry, x.t, x.u, x.line), SinkEnd(x.entry, x.t, x.u, x.line, x.p0))
  {
    hide Source, SinkEnd, Shed, TypedAt, Inv, SingleServer, StoreOutput;
  }

  lemma PipelineIsFinal(s: Server, x: Turn)
    requires TypedAt(s, x) && PipelineDone(x)
    ensures |x.children| == |x.before| + x.line.stages
    ensures var w := AfterInput(x.t, x.u, x.line);
            var rest := BeforeLast(x.entry, x.t, x.u, x.line, x.fdRedir);
            IsFinal(x, true, ReadEnd(x.p0 + x.line.stages - 2), SinkEnd(rest, x.t, w, x.line, LastPipe(x, true)))
  {
    CommandAt(x, x.line.stages - 1);
    InputLeavesReady(x.entry, x.t, x.u, x.line, x.fdRedir);
    hide Source, SinkEnd, Shed, TypedAt, Inv, ServerKeeps, AfterOutput, Stages, MakesUserPipe, ForkReady;
  }

  /** The commands that were already there. */
  lemma OldCommands(s: Server, x: Turn, pipeline: bool, k: nat, f: int)
    requires Inv(s) && Effect(s, x, pipeline) && k < |x.before| <= |x.children| && x.children[k] == x.before[k]
    requires f in x.children[k].fds
    ensures ChildEnd(ServerAfter(s, x, pipeline), k, f)
  {
    assert ChildEnd(s, k, f);
    if IsPipe(s.children[k].fds[f]) { KindKept(s, x, pipeline, s.children[k].fds[f]); }
    hide Effect, Inv;
  }

  lemma SingleOutputIs(s: Server, x: Turn, openOk: bool, junk0: int, junk1: int)
    requires Inv(s) && TypedAt(s, x) && SingleDone(x, openOk, junk0, junk1) && Effect(s, x, false)
    ensures OutputIs(ServerAfter(s, x, false), x, false, SinkEnd(x.entry, x.t, x.u, x.line, x.p0))
  {
    SocketIsNoPipe(s, x);
    assert x.entry == s.fds && (Resolved(x.t, x.line) >= 0 ==> x.t.list[Resolved(x.t, x.line)].writeFd in x.entry);
    hide Inv, SingleDone, ServerAfter, TypedAt, FdsAfter, GainedEnds, LineKinds, Gained, SinkEnd, InputFds, Resolved;
    SinkIs(s, x, false, x.entry, x.u);
  }

  lemma SingleFinal(s: Server, x: Turn, openOk: bool, junk0: int, junk1: int, f: int)
    requires Inv(s) && TypedAt(s, x) && SingleDone(x, openOk, junk0, junk1) && !SelfPipe(x.t, x.u, x.line)
    requires |x.children| > |x.before| && f in x.children[|x.before|].fds && Effect(s, x, false)
    ensures ChildEnd(ServerAfter(s, x, false), |x.before|, f)
  {
    SingleIsFinal(s, x, openOk, junk0, junk1);
    SocketIsNoPipe(s, x);
    SingleOutputIs(s, x, openOk, junk0, junk1);
    var input, output := Source(x.entry, x.t, x.u, x.line), SinkEnd(x.entry, x.t, x.u, x.line, x.p0);
    assert Ready(x.entry, x.t, x.u, x.line) && (NeedsPipe(x.t, x.u, x.line) ==> x.fd0 != x.fd1);
    hide Effect, SingleDone, Inv, Source, SinkEnd, ServerAfter, TypedAt, Ready, Shed, OutputIs, ChildEnd, MakesUserPipe;
    SourceOk(s, x, false, |x.before|);
    FinalCommand(s, x, false, input, output, f);
  }

  lemma LastReads(s: Server, x: Turn, k: nat)
    requires Effect(s, x, true) && k == |x.before| + x.line.stages - 1 && k < |x.children|
    requires STDIN in x.children[k].fds && x.children[k].fds[STDIN] == ReadEnd(x.p0 + x.line.stages - 2)
    ensures ChildEnd(ServerAfter(s, x, true), k, STDIN)
  {
    LinkKind(s, x, x.line.stages - 2);
    hide Effect;
  }

  lemma PipelineOutputIs(s: Server, x: Turn)
    requires Inv(s) && TypedAt(s, x) && PipelineDone(x) && Effect(s, x, true)
    ensures var w := AfterInput(x.t, x.u, x.line);
            var rest := BeforeLast(x.entry, x.t, x.u, x.line, x.fdRedir);
            OutputIs(ServerAfter(s, x, true), x, true, SinkEnd(rest, x.t, w, x.line, LastPipe(x, true)))
  {
    var w := AfterInput(x.t, x.u, x.line);
    var rest := BeforeLast(x.entry, x.t, x.u, x.line, x.fdRedir);
    SocketIsNoPipe(s, x);
    assert ForkReady(rest, x.t, w);
    if Resolved(x.t, x.line) >= 0 { ResolvedStays(s, x); }
    assert FinalIndex(x, true) == |x.before| + x.line.stages - 1;
    hide Inv, PipelineDone, ServerAfter, TypedAt, FdsAfter, GainedEnds, LineKinds, Gained, SinkEnd, InputFds,
      MakesUserPipe, ForkReady;
    SinkIs(s, x, true, rest, w);
  }

  /** The pipe that |n or !n resolved to is still there when the last command is forked. */
  lemma ResolvedStays(s: Server, x: Turn)
    requires TypedAt(s, x) && PipelineDone(x) && Resolved(x.t, x.line) >= 0
    ensures var rest := BeforeLast(x.entry, x.t, x.u, x.line, x.fdRedir);
            var f := x.t.list[Resolved(x.t, x.line)].writeFd;
            f in rest && f in s.fds && rest[f] == s.fds[f]
  {
    var i := Resolved(x.t, x.line);
    assert i in x.t.record;
    var k :| 0 <= k < |x.t.record| && x.t.record[k] == i;
    RecordedHas(x.t, -1, |x.t.record|, k);
    hide Find, Resolved, LastChild, ServerKeeps, Stages, InputFds;
  }

  lemma PipelineFinal(s: Server, x: Turn, f: int)
    requires Inv(s) && TypedAt(s, x) && PipelineDone(x) && Effect(s, x, true)
    requires |x.children| == |x.before| + x.line.stages && f in x.children[FinalIndex(x, true)].fds
    ensures ChildEnd(ServerAfter(s, x, true), FinalIndex(x, true), f)
  {
    PipelineIsFinal(s, x);
    PipelineOutputIs(s, x);
    assert x.line.redir && MakesUser(x, true) ==> x.fd0 != x.fd1;
    var input := ReadEnd(x.p0 + x.line.stages - 2);
    var output := SinkEnd(BeforeLast(x.entry, x.t, x.u, x.line, x.fdRedir), x.t, AfterInput(x.t, x.u, x.line),
                          x.line, LastPipe(x, true));
    assert x.line.stages >= 2;
    hide Effect, PipelineDone, Inv, Source, SinkEnd, ServerAfter, TypedAt, Ready, Shed, MakesUser, BeforeLast,
      AfterInput, OutputIs, ChildEnd;
    LastReads(s, x, FinalIndex(x, true));
    FinalCommand(s, x, true, input, output, f);
  }

  lemma CommandIsStage(x: Turn, i: nat)
    requires PipelineDone(x) && i < x.line.stages - 1
    ensures Ready(x.entry, x.t, x.u, x.line) && IsStage(x, i)
  {
    CommandAt(x, i);
    hide Ready, Source, Shed, BeforeLast, ServerKeeps;
  }

  lemma StageOk(s: Server, x: Turn, i: nat, f: int)
    requires Inv(s) && TypedAt(s, x) && PipelineDone(x) && Effect(s, x, true) && i < x.line.stages
    requires |x.children| == |x.before| + x.line.stages && f in x.children[|x.before| + i].fds
    ensures ChildEnd(ServerAfter(s, x, true), |x.before| + i, f)
  {
    hide Effect, PipelineDone, Inv, ServerAfter, TypedAt, ChildEnd, IsStage, Ready;
    assert FinalIndex(x, true) == |x.before| + x.line.stages - 1;
    if i == x.line.stages - 1 {
      PipelineFinal(s, x, f);
    } else {
      CommandIsStage(x, i);
      StageCommand(s, x, i, f);
    }
  }

  // ---- The invariant ----

  lemma InvAfter(s: Server, x: Turn, pipeline: bool)
    requires Inv(s) && Effect(s, x, pipeline)
    requires |x.before| <= |x.children| && x.children[..|x.before|] == x.before
    requires forall k, f :: |x.before| <= k < |x.children| && f in x.children[k].fds ==>
               ChildEnd(ServerAfter(s, x, pipeline), k, f)
    ensures Inv(ServerAfter(s, x, pipeline))
  {
    AfterIsFormed(s, x, pipeline);
    RolesAfter(s, x, pipeline);
    RecordedAfter(s, x, pipeline);
    OnceAfter(s, x, pipeline);
    assert ServerAfter(s, x, pipeline).children == x.children;
    hide Inv, Effect, Roles, Recorded, Once, Formed, ServerAfter, ChildEnd;
    forall k, f | 0 <= k < |x.children| && f in x.children[k].fds
      ensures ChildEnd(ServerAfter(s, x, pipeline), k, f)
    {
      if k < |x.before| {
        assert x.children[k] == x.children[..|x.before|][k];
        OldCommands(s, x, pipeline, k, f);
      }
    }
    assert Commands(ServerAfter(s, x, pipeline));
    InvFrom(ServerAfter(s, x, pipeline));
  }

  lemma InvFrom(s: Server)
    requires Formed(s) && Roles(s) && Recorded(s) && Once(s) && Commands(s)
    ensures Inv(s)
  {
  }

  /** Every single_cmd that is not `<self >self` keeps the books. */
  lemma SingleKeepsInv(s: Server, x: Turn, openOk: bool, junk0: int, junk1: int)
    requires Inv(s) && TypedAt(s, x) && SingleDone(x, openOk, junk0, junk1) && !SelfPipe(x.t, x.u, x.line)
    ensures LineFormed(x) && Inv(ServerAfter(s, x, false))
  {
    SingleEffect(s, x, openOk, junk0, junk1);
    assert x.children[..|x.before|] == x.before && |x.children| <= |x.before| + 1;
    forall k, f | |x.before| <= k < |x.children| && f in x.children[k].fds
      ensures ChildEnd(ServerAfter(s, x, false), k, f)
    {
      SingleFinal(s, x, openOk, junk0, junk1, f);
    }
    hide Effect, SingleDone, Inv, ServerAfter, ChildEnd;
    InvAfter(s, x, false);
  }

  /** Every ordinary_pipe keeps the books. */
  lemma PipelineKeepsInv(s: Server, x: Turn)
    requires Inv(s) && TypedAt(s, x) && PipelineDone(x)
    ensures LineFormed(x) && Inv(ServerAfter(s, x, true))
  {
    PipelineEffect(s, x);
    CommandAt(x, 0);
    assert x.children[..|x.before|] == x.before;
    hide Effect, PipelineDone, Inv, ServerAfter, ChildEnd;
    forall k, f | |x.before| <= k < |x.children| && f in x.children[k].fds
      ensures ChildEnd(ServerAfter(s, x, true), k, f)
    {
      StageOk(s, x, k - |x.before|, f);
    }
    InvAfter(s, x, true);
  }
}
