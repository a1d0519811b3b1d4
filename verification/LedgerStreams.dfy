/**
  What the commands of a line have on their standard descriptors, told from the client table
  and the line as it was typed.
  */
module LedgerStreams {
  import opened Kernel
  import opened Ledger
  import opened LedgerCommands
  import opened LedgerEnds
  import opened LedgerLine
  import opened LedgerRuns
  import opened LedgerSession
  import opened Pipeline
  import opened SlotTable
  import opened Wiring

  /** Line e is typed by client c and starts a command. */
  ghost predicate Types(s: Server, e: Event, s': Server, c: nat) {
    Good(s) && Step(s, e, s') && IsLine(e) && e.x.u.me == c && |s'.children| > |s.children|
  }

  /** A numbered pipe of client c is due on its next line. */
  ghost predicate DueNow(s: Server, c: nat) {
    c < |s.tables| && exists i :: 0 <= i < |s.tables[c].list| && s.tables[c].list[i].count == 1
  }

  /** There is a pipe to client `to` from a client that is logged in. */
  predicate HasUserPipe(s: Server, to: nat, from: nat) {
    && from < |s.state| && s.state[from]
    && to < |s.userPipe| && from < |s.userPipe[to]| && s.userPipe[to][from] >= 0
  }

  lemma DueExactly(s: Server, c: nat)
    requires Inv(s) && Client(s, c)
    ensures DueNow(s, c) <==> Counted(s, c).outputPoint >= 0
    ensures forall i :: 0 <= i < |s.tables[c].list| && s.tables[c].list[i].count == 1 ==> Counted(s, c).outputPoint == i
  {
    assert Ok(s.tables[c]);
    var t := s.tables[c];
    ExpiredInRange(t.list, |t.list|);
    hide Inv, Ok;
    forall i | 0 <= i < |t.list| && t.list[i].count == 1
      ensures Counted(s, c).outputPoint == i
    {
      ExpiresAt(s, c, i);
    }
  }

  lemma ExpiresAt(s: Server, c: nat, i: nat)
    requires Inv(s) && Client(s, c) && i < |s.tables[c].list| && s.tables[c].list[i].count == 1
    ensures Counted(s, c).outputPoint == i
  {
    assert Ok(s.tables[c]);
    hide Inv;
    OneExpires(s.tables[c], i);
  }

  lemma SocketIs(s: Server, c: nat)
    requires Inv(s) && Client(s, c)
    ensures s.sockfd[c] in s.fds && s.fds[s.sockfd[c]] == Socket(c)
  {
    assert ClientOwns(s, c) && RoleOk(s, s.sockfd[c]);
  }

  lemma UserPipeIs(s: Server, to: nat, from: nat)
    requires Inv(s) && to < |s.state| && HasUserPipe(s, to, from)
    ensures s.userPipe[to][from] in s.fds && s.fds[s.userPipe[to][from]].ReadEnd?
  {
    UserPipesAreApart(s, to, from);
  }

  lemma TypistIsClient(s: Server, e: Event, s': Server, c: nat)
    requires Good(s) && Step(s, e, s') && IsLine(e) && e.x.u.me == c
    ensures Formed(s) && Client(s, c) && TypedAt(s, e.x) && e.x.u.sock == s.sockfd[c]
  {
    LineEffect(s, e, s');
    hide Good, Step, Effect, Counted;
  }

  // ---- The first command's input ----

  lemma FirstIsSource(s: Server, e: Event, s': Server, c: nat)
    requires Types(s, e, s', c)
    ensures TypedAt(s, e.x) && Ready(e.x.entry, e.x.t, e.x.u, e.x.line)
    ensures var first := s'.children[|s.children|];
            && first.client == c && STDIN in first.fds
            && first.fds[STDIN] == Source(e.x.entry, e.x.t, e.x.u, e.x.line)
  {
    var x := e.x;
    LineEffect(s, e, s');
    LineIsTypists(s, e, s');
    if e.RunPipeline? {
      CommandIsStage(x, 0);
    } else {
      SingleIsFinal(s, x, e.openOk, e.junk0, e.junk1);
      FinalReads(x, false, Source(x.entry, x.t, x.u, x.line), SinkEnd(x.entry, x.t, x.u, x.line, x.p0));
    }
    hide Good, Source, Ready, FdsAfter, GainedEnds, LineKinds, Effect, SinkEnd;
  }

  /**
    The first of the commands started since s is client c's and reads: the numbered pipe that
    is due; else, without `<id`, the client's socket; with it, the pipe from that user, or
    /dev/null when there is none.
    */
  ghost predicate ReadsAsTyped(s: Server, s': Server, c: nat, line: Line)
    requires Formed(s) && Client(s, c) && |s.children| < |s'.children|
  {
    var first, from := s'.children[|s.children|], line.userIn;
    && first.client == c && STDIN in first.fds
    && (forall i :: 0 <= i < |s.tables[c].list| && s.tables[c].list[i].count == 1 ==>
          HasEnd(s.fds, s.tables[c].list[i].readFd, first.fds[STDIN]))
    && (!DueNow(s, c) ==>
          if from == 0 then first.fds[STDIN] == Socket(c)
          else if HasUserPipe(s, c, from)
            then HasEnd(s.fds, s.userPipe[c][from], first.fds[STDIN]) && first.fds[STDIN].ReadEnd?
          else first.fds[STDIN] == Null)
  }

  /** The first command of a line reads what the client typed. */
  lemma FirstReads(s: Server, e: Event, s': Server, c: nat)
    requires Types(s, e, s', c)
    ensures Formed(s) && Client(s, c) && ReadsAsTyped(s, s', c, e.x.line)
  {
    FirstIsSource(s, e, s', c);
    GoodIsInv(s);
    var from := e.x.line.userIn;
    hide Good, Step, Inv, Ready, Counted;
    SocketIs(s, c);
    DueExactly(s, c);
    if DueNow(s, c) { ExpiredSlot(s, c); }
    if HasUserPipe(s, c, from) { UserPipeIs(s, c, from); }
  }

  // ---- The last command's output ----

  /**
    Client c has a pipe to the user of `>id` already. A pipeline looks when its first command
    has its input, which may be the client's pipe to itself.
    */
  ghost predicate HasPipeTo(s: Server, c: nat, line: Line, pipeline: bool) {
    var to := line.userOut;
    && to < |s.userPipe| && c < |s.userPipe[to]| && s.userPipe[to][c] >= 0
    && !(pipeline && to == c == line.userIn && !DueNow(s, c))
  }

  /** What the line's last command writes to when the line has no `|n` or `!n`; p is the number of its new pipe. */
  lemma SinkIs(u: Users, line: Line, t: Table, fds: Fds, p: nat)
    requires UsersFormed(u) && RecordInRange(t) && u.sock in fds && line.crossNum == 0
    ensures var out := SinkEnd(fds, t, u, line, p);
            out == (if line.redir then File(0)
                    else if line.userOut == 0 then fds[u.sock]
                    else if line.userOut < |u.state| && u.state[line.userOut] && u.userPipe[line.userOut][u.me] < 0
                    then WriteEnd(p) else Null)
  {
  }

  lemma SingleLast(s: Server, e: Event, s': Server, c: nat)
    requires Types(s, e, s', c) && e.RunSingle?
    ensures TypedAt(s, e.x) && e.x.u.sock in e.x.entry && RecordInRange(e.x.t)
    ensures Resolved(e.x.t, e.x.line) >= 0 ==> e.x.t.list[Resolved(e.x.t, e.x.line)].writeFd in e.x.entry
    ensures var last := s'.children[|s'.children| - 1];
            var out := SinkEnd(e.x.entry, e.x.t, e.x.u, e.x.line, e.x.p0);
            && last.client == c && STDOUT in last.fds && STDERR in last.fds && last.fds[STDOUT] == out
            && last.fds[STDERR] == (if e.x.line.crossNum < 0 then out else e.x.entry[e.x.u.sock])
  {
    var x := e.x;
    LineEffect(s, e, s');
    LineIsTypists(s, e, s');
    assert |x.children| == |x.before| + 1;
    SingleIsFinal(s, x, e.openOk, e.junk0, e.junk1);
    hide Good, Source, Ready, FdsAfter, GainedEnds, LineKinds, Effect, SinkEnd, SingleDone, Resolved, MakesUser;
  }

  /** The tables that a pipeline looks at for its last command. */
  function BeforeEnd(x: Turn): Fds
    requires LineFormed(x)
  {
    BeforeLast(x.entry, x.t, x.u, x.line, x.fdRedir)
  }

  lemma PipelineLast(s: Server, e: Event, s': Server, c: nat)
    requires Types(s, e, s', c) && e.RunPipeline?
    ensures TypedAt(s, e.x) && e.x.line.stages >= 2 && Ready(e.x.entry, e.x.t, e.x.u, e.x.line)
    ensures var rest, w := BeforeEnd(e.x), AfterInput(e.x.t, e.x.u, e.x.line);
            && UsersFormed(w) && w.sock == e.x.u.sock && w.me == c && w.sock in rest
            && rest[w.sock] == e.x.entry[e.x.u.sock]
            && (Resolved(e.x.t, e.x.line) >= 0 ==> e.x.t.list[Resolved(e.x.t, e.x.line)].writeFd in rest)
            && var last := s'.children[|s'.children| - 1];
               var out := SinkEnd(rest, e.x.t, w, e.x.line, LastPipe(e.x, true));
               && last.client == c && STDOUT in last.fds && STDERR in last.fds && last.fds[STDOUT] == out
               && last.fds[STDERR] == (if e.x.line.crossNum < 0 then out else e.x.entry[e.x.u.sock])
  {
    var x := e.x;
    LineEffect(s, e, s');
    LineIsTypists(s, e, s');
    PipelineIsFinal(s, x);
    assert ForkReady(BeforeEnd(x), x.t, AfterInput(x.t, x.u, x.line));
    hide Good, Source, FdsAfter, GainedEnds, LineKinds, Effect, SinkEnd, Resolved, MakesUser, Stages, ServerKeeps;
  }

  /** How many pipes a line makes between its commands. */
  function Links(line: Line, pipeline: bool): nat {
    if pipeline && line.stages >= 1 then line.stages - 1 else 0
  }

  /** The output end of the last command of a line without `|n` and `!n`, when `sock` is the client's socket. */
  ghost predicate IsOutput(s: Server, c: nat, line: Line, pipeline: bool, sock: End, output: End) {
    var to := line.userOut;
    if line.redir then output == File(0)
    else if to == 0 then output == sock
    else if to < |s.state| && s.state[to] && !HasPipeTo(s, c, line, pipeline)
      then output == WriteEnd(|s.kinds| + Links(line, pipeline))
    else output == Null
  }

  /**
    The last command started is client c's and writes, when the line has no `|n` and `!n`: to
    the file of `> file`; else, without `>id`, to the client's socket; with it, to a new pipe,
    or to /dev/null when that user is not there or has a pipe from the client already. Its
    errors go to the socket.
    */
  ghost predicate WritesAsTyped(s: Server, s': Server, c: nat, line: Line, pipeline: bool)
    requires |s'.children| > 0
  {
    var last := s'.children[|s'.children| - 1];
    && last.client == c && STDERR in last.fds && last.fds[STDERR] == Socket(c)
    && STDOUT in last.fds && IsOutput(s, c, line, pipeline, Socket(c), last.fds[STDOUT])
  }

  lemma SingleWrites(s: Server, e: Event, s': Server, c: nat)
    requires Types(s, e, s', c) && e.x.line.crossNum == 0 && e.RunSingle?
    ensures Formed(s) && Client(s, c) && s.sockfd[c] in s.fds
    ensures var last, sock := s'.children[|s'.children| - 1], s.fds[s.sockfd[c]];
            && last.client == c && STDERR in last.fds && last.fds[STDERR] == sock && STDOUT in last.fds
            && IsOutput(s, c, e.x.line, false, sock, last.fds[STDOUT])
  {
    var x := e.x;
    hide Good, Step, Counted, SinkEnd, Resolved, Ready;
    SingleLast(s, e, s', c);
    SinkIs(x.u, x.line, x.t, x.entry, x.p0);
  }

  lemma PipelineWrites(s: Server, e: Event, s': Server, c: nat)
    requires Types(s, e, s', c) && e.x.line.crossNum == 0 && e.RunPipeline?
    requires Formed(s) && Client(s, c) && (DueNow(s, c) <==> Counted(s, c).outputPoint >= 0)
    ensures s.sockfd[c] in s.fds
    ensures var last, sock := s'.children[|s'.children| - 1], s.fds[s.sockfd[c]];
            && last.client == c && STDERR in last.fds && last.fds[STDERR] == sock && STDOUT in last.fds
            && IsOutput(s, c, e.x.line, true, sock, last.fds[STDOUT])
  {
    var x := e.x;
    hide Good, Step, Counted, SinkEnd, Resolved, Ready, BeforeEnd, DueNow;
    PipelineLast(s, e, s', c);
    SinkIs(AfterInput(x.t, x.u, x.line), x.line, x.t, BeforeEnd(x), LastPipe(x, true));
  }

  /** The last command of a line without `|n` and `!n` writes where the client typed. */
  lemma LastWrites(s: Server, e: Event, s': Server, c: nat)
    requires Types(s, e, s', c) && e.x.line.crossNum == 0
    ensures WritesAsTyped(s, s', c, e.x.line, e.RunPipeline?)
  {
    GoodIsInv(s);
    hide Good, Step, Inv, Counted, SinkEnd, Resolved, Ready, IsOutput;
    TypistIsClient(s, e, s', c);
    SocketIs(s, c);
    DueExactly(s, c);
    if e.RunPipeline? {
      PipelineWrites(s, e, s', c);
    } else {
      SingleWrites(s, e, s', c);
    }
  }

  lemma StageIs(s: Server, x: Turn, k: nat)
    requires TypedAt(s, x) && PipelineDone(x) && |x.before| <= k < |x.children| - 1
    ensures x.u.sock in x.entry && x.children[k].client == x.u.me
    ensures STDERR in x.children[k].fds && x.children[k].fds[STDERR] == x.entry[x.u.sock]
  {
    PipelineIsFinal(s, x);
    CommandIsStage(x, k - |x.before|);
    hide Source, Ready, PipelineDone, Shed;
  }

  lemma OnlyPipelinesHaveStages(s: Server, e: Event, s': Server)
    requires Good(s) && Step(s, e, s') && IsLine(e) && |s'.children| > |s.children| + 1
    ensures e.RunPipeline? && TypedAt(s, e.x) && PipelineDone(e.x)
    ensures s'.children == e.x.children && s.children == e.x.before
  {
    LineEffect(s, e, s');
    LineIsTypists(s, e, s');
    hide Good, PipelineDone, Effect, TypedAt, Ready;
  }

  /** Every command of a pipeline but the last sends its errors to the client's socket. */
  lemma StageErrors(s: Server, e: Event, s': Server, c: nat, k: nat)
    requires Types(s, e, s', c) && |s.children| <= k < |s'.children| - 1
    ensures s'.children[k].client == c && STDERR in s'.children[k].fds && s'.children[k].fds[STDERR] == Socket(c)
  {
    GoodIsInv(s);
    OnlyPipelinesHaveStages(s, e, s');
    TypistIsClient(s, e, s', c);
    hide Good, Inv, PipelineDone, Step;
    StageIs(s, e.x, k);
    SocketIs(s, c);
  }

  /** How many commands a line starts; `openOk` says whether the file of `> file` can be opened. */
  function Starts(line: Line, pipeline: bool, openOk: bool): nat {
    if pipeline then line.stages else if line.redir && !openOk && line.crossNum == 0 then 0 else 1
  }

  /** Since s client c started k commands, and nobody else any. */
  ghost predicate Started(s: Server, s': Server, c: nat, k: nat) {
    && |s'.children| == |s.children| + k
    && (forall i :: 0 <= i < |s.children| ==> s'.children[i] == s.children[i])
    && (forall i :: |s.children| <= i < |s'.children| ==> s'.children[i].client == c)
  }

  /**
    A line starts its commands and no others: all of a pipeline, and the one of single_cmd
    unless its file cannot be opened, which is not looked at when there is `|n` or `!n`.
    */
  lemma StartsExactly(s: Server, e: Event, s': Server)
    requires Good(s) && Step(s, e, s') && IsLine(e)
    ensures Started(s, s', e.x.u.me, Starts(e.x.line, e.RunPipeline?, e.RunPipeline? || e.openOk))
  {
    var x := e.x;
    LineEffect(s, e, s');
    LineIsTypists(s, e, s');
    LineHolds(s, e, s');
    if e.RunPipeline? { PipelineIsFinal(s, x); }
    hide Good, Effect, TypedAt, NewCommandsHold, Ready, PipelineDone, SingleCommand, SingleServer;
    assert forall k :: 0 <= k < |s.children| ==> s'.children[k] == x.children[..|x.before|][k];
  }
}
