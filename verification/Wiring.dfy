/**
  The server's side of a command line: the loop that forks the commands of a pipeline. The
  contract says exactly which descriptors every command runs with and which ones the
  server is left with; module Chains draws the consequences.
  */
module Wiring {
  import opened Kernel
  import opened Options
  import opened Pipeline
  import opened SlotTable

  /**
    A started command: the client that typed it, its descriptors, and the numbered pipe
    that its |n or !n resolved to (none for other commands).
    */
  datatype Child = Child(client: nat, fds: Fds, sink: Option<nat>)

  /** The user table once the first command has taken over its user pipe. */
  function AfterInput(t: Table, u: Users, line: Line): Users
    requires UsersFormed(u)
  {
    if ReadsUserPipe(t, u, line) then
      u.(userPipe := u.userPipe[u.me := u.userPipe[u.me][line.userIn := -1]])
    else u
  }

  /** Everything of a client's own that no command keeps: live numbered pipes and the input taken over. */
  function Shed(t: Table, u: Users, line: Line): set<int>
    requires UsersFormed(u) && RecordInRange(t) && t.outputPoint < |t.list|
  {
    RecordedFds(t, -1, |t.record|) + InputFds(t, u, line)
  }

  /** The slot that |n or !n resolves to, or -1. */
  function Resolved(t: Table, line: Line): int
    requires RecordInRange(t)
  {
    if line.crossNum == 0 then -1 else match Find(t, line.crossNum) case Some(pos) => pos case None => -1
  }

  /** The last stage needs a new pipe besides those between the stages. */
  predicate NeedsPipe(t: Table, u: Users, line: Line)
    requires UsersFormed(u) && RecordInRange(t)
  {
    (line.crossNum != 0 && Resolved(t, line) < 0) || MakesUserPipe(u, line)
  }

  /** What the last stage writes to; p is the number of its new pipe, u is the table after input. */
  function SinkEnd(entry: Fds, t: Table, u: Users, line: Line, p: nat): End
    requires UsersFormed(u) && RecordInRange(t) && u.sock in entry
    requires Resolved(t, line) >= 0 ==> t.list[Resolved(t, line)].writeFd in entry
  {
    if line.crossNum != 0 then
      (if Resolved(t, line) >= 0 then entry[t.list[Resolved(t, line)].writeFd] else WriteEnd(p))
    else if line.redir then File(0)
    else if line.userOut == 0 then entry[u.sock]
    else if MakesUserPipe(u, line) then WriteEnd(p)
    else Null
  }

  /** A command that runs with `kept` and three standard descriptors. */
  function Runs(kept: Fds, input: End, output: End, error: End): Fds {
    kept[STDIN := input][STDOUT := output][STDERR := error]
  }

  class Shell {
    const me: Process
    var pipes: nat
    var children: seq<Child>

    constructor (me: Process)
      ensures this.me == me && pipes == 0 && children == []
    {
      this.me := me;
      pipes, children := 0, [];
    }

    method NewPipe() returns (fd0: int, fd1: int)
      modifies this`pipes, me
      ensures pipes == old(pipes) + 1
      ensures fd0 > 2 && fd1 > 2 && fd0 != fd1 && fd0 !in old(me.fds) && fd1 !in old(me.fds)
      ensures me.fds == old(me.fds)[fd0 := ReadEnd(old(pipes))][fd1 := WriteEnd(old(pipes))]
    {
      fd0, fd1 := me.Pipe(pipes);
      pipes := pipes + 1;
    }

    /** The server gives up what the first command has taken over: np_single_proc.c:666-676. */
    method DropInput(t: Table, u: Users, line: Line) returns (v: Users)
      requires UsersFormed(u) && -1 <= t.outputPoint < |t.list|
      modifies me
      ensures me.fds == old(me.fds) - InputFds(t, u, line)
      ensures v == AfterInput(t, u, line)
    {
      v := u;
      if t.outputPoint >= 0 {
        DropExpired(me, t);
      } else if line.userIn != 0 {
        if !NoPipeFrom(u, line.userIn) {
          me.Close(u.userPipe[u.me][line.userIn]);
          v := u.(userPipe := u.userPipe[u.me := u.userPipe[u.me][line.userIn := -1]]);
        }
      }
      assert InputFds(t, u, line) == {} ==> me.fds == old(me.fds);
    }

    method Start(child: Process, u: Users, sink: Option<nat>)
      modifies this`children
      ensures children == old(children) + [Child(u.me, child.fds, sink)]
    {
      children := children + [Child(u.me, child.fds, sink)];
    }

    /** The first iteration of the fork loop. */
    method ForkFirst(t: Table, u: Users, line: Line, fdRedir: int) returns (v: Users, exFd0: int)
      requires line.stages >= 2 && Ready(me.fds, t, u, line) && RedirReady(me.fds, t, u, line, fdRedir)
      requires line.redir ==> fdRedir !in InputFds(t, u, line)
      modifies this`pipes, this`children, me
      ensures pipes == old(pipes) + 1 && exFd0 > 2 && exFd0 !in old(me.fds) && v == AfterInput(t, u, line)
      ensures me.fds == (old(me.fds) - InputFds(t, u, line))[exFd0 := ReadEnd(old(pipes))]
      ensures children == old(children) + [Child(u.me, Runs(
                old(me.fds) - Shed(t, u, line) - RedirFds(line, fdRedir),
                Source(old(me.fds), t, u, line), WriteEnd(old(pipes)), old(me.fds)[u.sock]), None)]
    {
      ghost var was, p := me.fds, pipes;
      var fd0, fd1 := NewPipe();
      FirstRuns(was, t, u, line, fdRedir, fd0, fd1, p);
      var child := new Process.Fork(me);
      OrdinaryChild(child, t, u, line, 0, -1, fd0, fd1, -1, fdRedir);
      Start(child, u, None);
      v := CommitFirst(t, u, line, fd0, fd1, was, p);
      exFd0 := fd0;
    }

    method CommitFirst(t: Table, u: Users, line: Line, fd0: int, fd1: int, ghost was: Fds, ghost p: nat)
      returns (v: Users)
      requires line.stages >= 2 && UsersFormed(u) && -1 <= t.outputPoint < |t.list|
      requires NewEnds(was, fd0, fd1) && me.fds == was[fd0 := ReadEnd(p)][fd1 := WriteEnd(p)]
      requires forall f :: f in InputFds(t, u, line) ==> f in was
      modifies me
      ensures v == AfterInput(t, u, line)
      ensures me.fds == (was - InputFds(t, u, line))[fd0 := ReadEnd(p)]
    {
      v := DropInput(t, u, line);
      ConnectParent(me, 0, 0, line.stages - 1, fd1, -1);
      EqualFds(me.fds, (was - InputFds(t, u, line))[fd0 := ReadEnd(p)]);
    }

    /** An iteration between the first and the last. */
    method ForkMiddle(t: Table, u: Users, line: Line, i: nat, exFd0: int, fdRedir: int, ghost rest: Fds, ghost q: nat)
      returns (nextFd0: int)
      requires 0 < i < line.stages - 1 && ForkReady(rest, t, u) && -1 <= t.outputPoint < |t.list|
      requires RedirReady(rest, t, u, line, fdRedir)
      requires me.fds == rest[exFd0 := ReadEnd(q)] && exFd0 > 2 && exFd0 !in rest
      modifies this`pipes, this`children, me
      ensures pipes == old(pipes) + 1 && nextFd0 > 2 && nextFd0 !in rest
      ensures me.fds == rest[nextFd0 := ReadEnd(old(pipes))]
      ensures children == old(children) + [Child(u.me, Runs(
                rest - RecordedFds(t, -1, |t.record|) - RedirFds(line, fdRedir),
                ReadEnd(q), WriteEnd(old(pipes)), rest[u.sock]), None)]
    {
      ghost var p := pipes;
      var fd0, fd1 := NewPipe();
      MiddleRuns(rest, t, u, line, i, fdRedir, fd0, fd1, exFd0, p, q);
      var child := new Process.Fork(me);
      OrdinaryChild(child, t, u, line, i, -1, fd0, fd1, exFd0, fdRedir);
      Start(child, u, None);
      ConnectParent(me, i, 0, line.stages - 1, fd1, exFd0);
      nextFd0 := fd0;
      assert me.fds == rest[fd0 := ReadEnd(p)];
    }

    /** The pipe behind the line, if the line asks for one: found, new, or none. */
    method ChoosePipe(t: Table, u: Users, line: Line) returns (pos: int, fd0: int, fd1: int)
      requires UsersFormed(u) && RecordInRange(t)
      modifies this`pipes, me
      ensures pos == Resolved(t, line)
      ensures pipes == old(pipes) + (if NeedsPipe(t, u, line) then 1 else 0)
      ensures NeedsPipe(t, u, line) ==> NewEnds(old(me.fds), fd0, fd1)
      ensures me.fds == (if NeedsPipe(t, u, line)
                         then old(me.fds)[fd0 := ReadEnd(old(pipes))][fd1 := WriteEnd(old(pipes))]
                         else old(me.fds))
      ensures pos >= 0 ==> fd0 == t.list[pos].readFd && fd1 == t.list[pos].writeFd
    {
      pos, fd0, fd1 := -1, -1, -1;
      if line.crossNum != 0 {
        pos := Resolved(t, line);
        if pos < 0 {
          fd0, fd1 := NewPipe();
        } else {
          fd0, fd1 := t.list[pos].readFd, t.list[pos].writeFd;
        }
      } else if line.userOut != 0 {
        if !NoPipeTo(u, line.userOut) { fd0, fd1 := NewPipe(); }
      }
    }

    /** The server's part after the last fork: np_single_proc.c:677-696. */
    method CommitLast(t: Table, u: Users, line: Line, pos: int, fd0: int, fd1: int, exFd0: int, fdRedir: int,
                      ghost rest: Fds, ghost q: nat, ghost p: nat)
      returns (t': Table, v: Users)
      requires line.stages >= 2 && UsersFormed(u) && RecordInRange(t) && t.minInput < |t.list|
      requires pos == Resolved(t, line) && exFd0 > 2 && exFd0 !in rest
      requires RedirReady(rest, t, u, line, fdRedir)
      requires NeedsPipe(t, u, line) ==> NewEnds(rest[exFd0 := ReadEnd(q)], fd0, fd1)
      requires me.fds == (if NeedsPipe(t, u, line) then AtFork(rest, exFd0, q, fd0, fd1, p)
                          else rest[exFd0 := ReadEnd(q)])
      modifies me
      ensures me.fds == ServerKeeps(rest, t, u, line, p, fd0, fd1, fdRedir)
      ensures t' == (if line.crossNum != 0 && Resolved(t, line) < 0 then Update(t, Pipe(fd1, fd0), line.crossNum)
                     else t)
      ensures v == AfterOutput(u, line, fd0)
    {
      t', v := t, u;
      if line.crossNum != 0 {
        if pos < 0 { t' := Update(t, Pipe(fd1, fd0), line.crossNum); }
      } else if line.redir {
        me.Close(fdRedir);
      } else if line.userOut != 0 {
        if !NoPipeTo(u, line.userOut) {
          me.Close(fd1);
          v := AfterOutput(u, line, fd0);
        }
      }
      ConnectParent(me, line.stages - 1, 0, line.stages - 1, fd1, exFd0);
      EqualFds(me.fds, ServerKeeps(rest, t, u, line, p, fd0, fd1, fdRedir));
    }

    /** The last iteration: it finds or makes the pipe behind the line, if the line asks for one. */
    method ForkLast(t: Table, u: Users, line: Line, exFd0: int, fdRedir: int, ghost rest: Fds, ghost q: nat)
      returns (t': Table, v: Users, fd0: int, fd1: int)
      requires line.stages >= 2 && ForkReady(rest, t, u) && -1 <= t.outputPoint < |t.list| && t.minInput < |t.list|
      requires RedirReady(rest, t, u, line, fdRedir)
      requires me.fds == rest[exFd0 := ReadEnd(q)] && exFd0 > 2 && exFd0 !in rest
      modifies this`pipes, this`children, me
      ensures pipes == old(pipes) + (if NeedsPipe(t, u, line) then 1 else 0)
      ensures NeedsPipe(t, u, line) ==> NewEnds(rest, fd0, fd1)
      ensures Resolved(t, line) >= 0 ==> t.list[Resolved(t, line)].writeFd in rest
      ensures children == old(children) + [LastChild(rest, t, u, line, q, old(pipes), fd0, fd1, fdRedir)]
      ensures me.fds == ServerKeeps(rest, t, u, line, old(pipes), fd0, fd1, fdRedir)
      ensures t' == (if line.crossNum != 0 && Resolved(t, line) < 0 then Update(t, Pipe(fd1, fd0), line.crossNum)
                     else t)
      ensures v == AfterOutput(u, line, fd0)
    {
      ghost var p := pipes;
      var pos;
      pos, fd0, fd1 := ChoosePipe(t, u, line);
      LastRuns(rest, t, u, line, fdRedir, fd0, fd1, exFd0, p, q);
      var child := new Process.Fork(me);
      OrdinaryChild(child, t, u, line, line.stages - 1, pos, fd0, fd1, exFd0, fdRedir);
      Start(child, u, SinkPipe(line, child.fds[STDOUT]));
      t', v := CommitLast(t, u, line, pos, fd0, fd1, exFd0, fdRedir, rest, q, p);
    }

    /**
      ordinary_pipe: the commands form a chain, each runs with nothing of the client's own
      pipes beyond its two ends, and the server keeps only what the line recorded.
      */
    method OrdinaryPipe(t: Table, u: Users, line: Line, openOk: bool)
      returns (t': Table, v: Users, fd0: int, fd1: int, fdRedir: int)
      requires line.stages >= 2 && Ready(me.fds, t, u, line) && t.minInput < |t.list|
      modifies this`pipes, this`children, me
      ensures line.redir && !openOk ==>
                t' == t && v == u && me.fds == old(me.fds) && children == old(children) && pipes == old(pipes)
      ensures !line.redir || openOk ==>
                PipelineDone(Turn(old(me.fds), me.fds, old(pipes), pipes, old(children), children, t, t', u, v,
                                  line, fd0, fd1, fdRedir))
    {
      ghost var entry, p0, before := me.fds, pipes, children;
      t', v, fd0, fd1, fdRedir := t, u, -1, -1, -1;
      if line.redir {
        if !openOk { return; }
        fdRedir := me.Open(File(0));
      }
      ghost var base := me.fds;
      ghost var rest := base - InputFds(t, u, line);
      InputLeavesReady(entry, t, u, line, fdRedir);
      var i, exFd0 := 0, -1;
      hide Runs, ServerKeeps, LastChild, Resolved, Update;
      while i < line.stages
        invariant 0 <= i <= line.stages && (i < line.stages ==> t' == t)
        invariant i == 0 ==> me.fds == base && v == u && pipes == p0 && children == before
        invariant 0 < i < line.stages ==>
                    && me.fds == rest[exFd0 := ReadEnd(p0 + i - 1)] && exFd0 > 2 && exFd0 !in rest
                    && v == AfterInput(t, u, line) && pipes == p0 + i
        invariant i < line.stages ==> children == before + Stages(entry, t, u, line, p0, i)
        invariant i == line.stages ==>
                    PipelineDone(Turn(entry, me.fds, p0, pipes, before, children, t, t', u, v, line, fd0, fd1, fdRedir))
      {
        if i == 0 {
          v, exFd0 := ForkFirst(t, u, line, fdRedir);
        } else if i == line.stages - 1 {
          t', v, fd0, fd1 := ForkLast(t, v, line, exFd0, fdRedir, rest, p0 + i - 1);
        } else {
          exFd0 := ForkMiddle(t, v, line, i, exFd0, fdRedir, rest, p0 + i - 1);
        }
        i := i + 1;
      }
    }

    /**
      single_cmd. `junk0` and `junk1` are what the uninitialised array `fd` happens to hold;
      the code only looks at them for `<me >me` with a pipe from me to me.
      */
    method SingleCmd(t: Table, u: Users, line: Line, openOk: bool, junk0: int, junk1: int)
      returns (t': Table, v: Users, fd0: int, fd1: int)
      requires Ready(me.fds, t, u, line) && t.minInput < |t.list|
      modifies this`pipes, this`children, me
      ensures SingleDone(Turn(old(me.fds), me.fds, old(pipes), pipes, old(children), children, t, t', u, v, line,
                              fd0, fd1, -1),
                         openOk, junk0, junk1)
    {
      ghost var entry, p := me.fds, pipes;
      var pos;
      pos, fd0, fd1 := ChoosePipe(t, u, line);
      if line.crossNum == 0 && !MakesUserPipe(u, line) { fd0, fd1 := junk0, junk1; }
      SingleRuns(entry, t, u, line, fd0, fd1, p);
      if line.crossNum != 0 || !line.redir || openOk {
        var child := new Process.Fork(me);
        SingleChild(child, t, u, line, pos, fd0, fd1);
        Start(child, u, SinkPipe(line, child.fds[STDOUT]));
      }
      t', v := CommitSingle(t, u, line, pos, fd0, fd1, entry, p);
    }

    /** The server's part of single_cmd: np_single_proc.c:542-561. */
    method CommitSingle(t: Table, u: Users, line: Line, pos: int, fd0: int, fd1: int, ghost entry: Fds, ghost p: nat)
      returns (t': Table, v: Users)
      requires Ready(entry, t, u, line) && t.minInput < |t.list| && pos == Resolved(t, line)
      requires NeedsPipe(t, u, line) ==> NewEnds(entry, fd0, fd1)
      requires me.fds == (if NeedsPipe(t, u, line) then entry[fd0 := ReadEnd(p)][fd1 := WriteEnd(p)] else entry)
      modifies me
      ensures me.fds == SingleServer(entry, t, u, line, p, fd0, fd1)
      ensures t' == (if line.crossNum != 0 && Resolved(t, line) < 0 then Update(t, Pipe(fd1, fd0), line.crossNum)
                     else t)
      ensures v == StoreOutput(AfterInput(t, u, line), line, fd0)
    {
      t' := t;
      v := DropInput(t, u, line);
      if line.crossNum != 0 {
        if pos < 0 { t' := Update(t, Pipe(fd1, fd0), line.crossNum); }
      } else if line.userOut != 0 {
        if !NoPipeTo(v, line.userOut) {
          me.Close(fd1);
          v := v.(userPipe := v.userPipe[line.userOut := v.userPipe[line.userOut][v.me := fd0]]);
        }
      }
      SingleKept(entry, t, u, line, p, fd0, fd1, me.fds);
    }
  }

  /** The line reads the client's pipe to itself and makes it anew; the code then stores junk. */
  predicate SelfPipe(t: Table, u: Users, line: Line)
    requires UsersFormed(u)
  {
    !MakesUserPipe(u, line) && MakesUserPipe(AfterInput(t, u, line), line)
  }

  function SingleCommand(entry: Fds, t: Table, u: Users, line: Line, p: nat, fd0: int, fd1: int): Child
    requires Ready(entry, t, u, line) && (Resolved(t, line) >= 0 ==> t.list[Resolved(t, line)].writeFd in entry)
  {
    var kept := entry - Shed(t, u, line);
    var out := SinkEnd(entry, t, u, line, p);
    Child(u.me,
          Runs(if StraysPipe(u, line) then kept[fd0 := ReadEnd(p)][fd1 := WriteEnd(p)] else kept,
               Source(entry, t, u, line), out, if line.crossNum < 0 then out else entry[u.sock]),
          SinkPipe(line, out))
  }

  function SingleServer(entry: Fds, t: Table, u: Users, line: Line, p: nat, fd0: int, fd1: int): Fds
    requires UsersFormed(u) && RecordInRange(t) && -1 <= t.outputPoint < |t.list|
  {
    var rest := entry - InputFds(t, u, line);
    if line.crossNum != 0 && NeedsPipe(t, u, line) then rest[fd0 := ReadEnd(p)][fd1 := WriteEnd(p)]
    else if MakesUserPipe(u, line) then rest[fd0 := ReadEnd(p)]
    else if SelfPipe(t, u, line) then rest - {fd1}
    else rest
  }

  /** What single_cmd does. */
  ghost predicate SingleDone(x: Turn, openOk: bool, junk0: int, junk1: int) {
    && Ready(x.entry, x.t, x.u, x.line) && x.t.minInput < |x.t.list|
    && x.pipes == x.p0 + (if NeedsPipe(x.t, x.u, x.line) then 1 else 0)
    && (NeedsPipe(x.t, x.u, x.line) ==> NewEnds(x.entry, x.fd0, x.fd1))
    && (SelfPipe(x.t, x.u, x.line) ==> x.fd0 == junk0 && x.fd1 == junk1)
    && (Resolved(x.t, x.line) >= 0 ==> x.t.list[Resolved(x.t, x.line)].writeFd in x.entry)
    && x.children == x.before + (if x.line.crossNum != 0 || !x.line.redir || openOk
                                 then [SingleCommand(x.entry, x.t, x.u, x.line, x.p0, x.fd0, x.fd1)] else [])
    && x.fds == SingleServer(x.entry, x.t, x.u, x.line, x.p0, x.fd0, x.fd1)
    && x.t' == TableAfterLine(x)
    && x.v == StoreOutput(AfterInput(x.t, x.u, x.line), x.line, x.fd0)
  }

  /** single_cmd stores fd[0] whatever `> file` says. */
  function StoreOutput(w: Users, line: Line, fd0: int): Users
    requires UsersFormed(w)
  {
    if MakesUserPipe(w, line) then
      w.(userPipe := w.userPipe[line.userOut := w.userPipe[line.userOut][w.me := fd0]])
    else w
  }

  /** The first n commands of a pipeline whose first pipe is p0; none of them is the last. */
  function Stages(entry: Fds, t: Table, u: Users, line: Line, p0: nat, n: nat): seq<Child>
    requires Ready(entry, t, u, line)
  {
    if n == 0 then []
    else Stages(entry, t, u, line, p0, n - 1)
         + [Child(u.me, Runs(entry - Shed(t, u, line),
                             if n == 1 then Source(entry, t, u, line) else ReadEnd(p0 + n - 2),
                             WriteEnd(p0 + n - 1), entry[u.sock]), None)]
  }

  /** The server's table when all but the last command have been forked, without the end the last one reads. */
  function BeforeLast(entry: Fds, t: Table, u: Users, line: Line, fdRedir: int): Fds
    requires UsersFormed(u) && -1 <= t.outputPoint < |t.list|
  {
    (if line.redir then entry[fdRedir := File(0)] else entry) - InputFds(t, u, line)
  }

  /**
    One line carried out: the server's descriptors, the number of pipes made, the commands
    started, the table of numbered pipes and the user table, each before and after; and the
    descriptors of the last pipe and of the output file.
    */
  datatype Turn = Turn(
    entry: Fds, fds: Fds, p0: nat, pipes: nat, before: seq<Child>, children: seq<Child>,
    t: Table, t': Table, u: Users, v: Users, line: Line, fd0: int, fd1: int, fdRedir: int)

  /** What ordinary_pipe does. */
  ghost predicate PipelineDone(x: Turn) {
    && x.line.stages >= 2 && Ready(x.entry, x.t, x.u, x.line) && x.t.minInput < |x.t.list|
    && (x.line.redir ==> x.fdRedir > 2 && x.fdRedir !in x.entry)
    && var w := AfterInput(x.t, x.u, x.line);
       var rest := BeforeLast(x.entry, x.t, x.u, x.line, x.fdRedir);
       var p := x.p0 + x.line.stages - 1;
       && ForkReady(rest, x.t, w)
       && x.pipes == p + (if NeedsPipe(x.t, w, x.line) then 1 else 0)
       && (NeedsPipe(x.t, w, x.line) ==> NewEnds(rest, x.fd0, x.fd1))
       && (Resolved(x.t, x.line) >= 0 ==> x.t.list[Resolved(x.t, x.line)].writeFd in rest)
       && x.children == x.before + Stages(x.entry, x.t, x.u, x.line, x.p0, x.line.stages - 1)
                        + [LastChild(rest, x.t, w, x.line, p - 1, p, x.fd0, x.fd1, x.fdRedir)]
       && x.fds == ServerKeeps(rest, x.t, w, x.line, p, x.fd0, x.fd1, x.fdRedir)
       && x.t' == TableAfterLine(x)
       && x.v == AfterOutput(w, x.line, x.fd0)
  }

  function TableAfterLine(x: Turn): Table
    requires RecordInRange(x.t) && x.t.minInput < |x.t.list|
  {
    if x.line.crossNum != 0 && Resolved(x.t, x.line) < 0 then Update(x.t, Pipe(x.fd1, x.fd0), x.line.crossNum) else x.t
  }

  lemma InputLeavesReady(entry: Fds, t: Table, u: Users, line: Line, fdRedir: int)
    requires Ready(entry, t, u, line) && (line.redir ==> fdRedir > 2 && fdRedir !in entry)
    ensures var base := if line.redir then entry[fdRedir := File(0)] else entry;
            && Ready(base, t, u, line) && RedirReady(base, t, u, line, fdRedir)
            && (line.redir ==> fdRedir !in InputFds(t, u, line))
            && Source(base, t, u, line) == Source(entry, t, u, line)
            && base - Shed(t, u, line) - RedirFds(line, fdRedir) == entry - Shed(t, u, line)
            && var rest := BeforeLast(entry, t, u, line, fdRedir);
               && ForkReady(rest, t, AfterInput(t, u, line))
               && RedirReady(rest, t, AfterInput(t, u, line), line, fdRedir)
               && rest - RecordedFds(t, -1, |t.record|) - RedirFds(line, fdRedir) == entry - Shed(t, u, line)
  {
    var base := if line.redir then entry[fdRedir := File(0)] else entry;
    var rest := BeforeLast(entry, t, u, line, fdRedir);
    SourceKept(base, entry, t, u, line);
    EqualFds(base - Shed(t, u, line) - RedirFds(line, fdRedir), entry - Shed(t, u, line));
    EqualFds(rest - RecordedFds(t, -1, |t.record|) - RedirFds(line, fdRedir), entry - Shed(t, u, line));
  }

  /** The numbered pipe a command writes to, from its standard output. */
  function SinkPipe(line: Line, output: End): Option<nat> {
    if line.crossNum != 0 && output.WriteEnd? then Some(output.pipe) else None
  }

  /** The user table once the new user pipe's read end is stored. */
  function AfterOutput(u: Users, line: Line, fd0: int): Users
    requires UsersFormed(u)
  {
    if MakesUserPipe(u, line) && !line.redir then
      u.(userPipe := u.userPipe[line.userOut := u.userPipe[line.userOut][u.me := fd0]])
    else u
  }

  /** A line with both `> file` and `>id`: the new pipe is connected to nothing. */
  predicate StraysPipe(u: Users, line: Line)
    requires UsersFormed(u)
  {
    line.redir && MakesUserPipe(u, line)
  }

  function LastChild(rest: Fds, t: Table, u: Users, line: Line, q: nat, p: nat, fd0: int, fd1: int, fdRedir: int): Child
    requires ForkReady(rest, t, u)
    requires Resolved(t, line) >= 0 ==> t.list[Resolved(t, line)].writeFd in rest
  {
    var kept := rest - RecordedFds(t, -1, |t.record|) - RedirFds(line, fdRedir);
    var out := SinkEnd(rest, t, u, line, p);
    Child(u.me,
          Runs(if StraysPipe(u, line) then kept[fd0 := ReadEnd(p)][fd1 := WriteEnd(p)] else kept,
               ReadEnd(q), out, if line.crossNum < 0 then out else rest[u.sock]),
          SinkPipe(line, out))
  }

  predicate NewEnds(fds: Fds, fd0: int, fd1: int) {
    fd0 > 2 && fd1 > 2 && fd0 != fd1 && fd0 !in fds && fd1 !in fds
  }

  /** What the server holds after the last fork. */
  function ServerKeeps(rest: Fds, t: Table, u: Users, line: Line, p: nat, fd0: int, fd1: int, fdRedir: int): Fds
    requires UsersFormed(u) && RecordInRange(t)
  {
    var now := if line.redir && line.crossNum == 0 then rest - {fdRedir} else rest;
    if StraysPipe(u, line) || (line.crossNum != 0 && NeedsPipe(t, u, line))
      then now[fd0 := ReadEnd(p)][fd1 := WriteEnd(p)]
    else if MakesUserPipe(u, line) then now[fd0 := ReadEnd(p)]
    else now
  }

  function RedirFds(line: Line, fdRedir: int): set<int> {
    if line.redir then {fdRedir} else {}
  }

  /** The output file, if any, is open and apart from everything else. */
  ghost predicate RedirReady(fds: Fds, t: Table, u: Users, line: Line, fdRedir: int)
    requires RecordInRange(t)
  {
    line.redir ==> fdRedir in fds && fds[fdRedir] == File(0) && fdRedir > 2 && fdRedir != u.sock
                   && fdRedir !in RecordedFds(t, -1, |t.record|)
  }

  // ---- What the stages run with ----

  /** The server's table with the pipe of this stage and, from the second stage on, the end it reads. */
  function AtFork(rest: Fds, exFd0: int, q: nat, fd0: int, fd1: int, p: nat): Fds {
    rest[exFd0 := ReadEnd(q)][fd0 := ReadEnd(p)][fd1 := WriteEnd(p)]
  }

  lemma FirstRuns(was: Fds, t: Table, u: Users, line: Line, fdRedir: int, fd0: int, fd1: int, p: nat)
    requires line.stages >= 2 && Ready(was, t, u, line) && RedirReady(was, t, u, line, fdRedir)
    requires line.redir ==> fdRedir !in InputFds(t, u, line)
    requires fd0 > 2 && fd1 > 2 && fd0 != fd1 && fd0 !in was && fd1 !in was
    ensures var now := was[fd0 := ReadEnd(p)][fd1 := WriteEnd(p)];
            && StageReady(now, t, u, line, 0, -1, fd0, fd1, -1, fdRedir)
            && Runs(now - StageFds(t, u, line, 0, -1, fd0, fd1, -1, fdRedir), Source(now, t, u, line), WriteEnd(p),
                    was[u.sock])
               == Runs(was - Shed(t, u, line) - RedirFds(line, fdRedir), Source(was, t, u, line), WriteEnd(p),
                       was[u.sock])
  {
    var now := was[fd0 := ReadEnd(p)][fd1 := WriteEnd(p)];
    SourceKept(was, now, t, u, line);
    EqualFds(now - StageFds(t, u, line, 0, -1, fd0, fd1, -1, fdRedir),
             was - Shed(t, u, line) - RedirFds(line, fdRedir));
  }

  lemma MiddleRuns(rest: Fds, t: Table, u: Users, line: Line, i: nat, fdRedir: int, fd0: int, fd1: int, exFd0: int,
                   p: nat, q: nat)
    requires 0 < i < line.stages - 1 && ForkReady(rest, t, u) && -1 <= t.outputPoint < |t.list|
    requires RedirReady(rest, t, u, line, fdRedir)
    requires exFd0 > 2 && exFd0 !in rest && fd0 > 2 && fd1 > 2 && fd0 != fd1
    requires fd0 !in rest[exFd0 := ReadEnd(q)] && fd1 !in rest[exFd0 := ReadEnd(q)]
    ensures var now := AtFork(rest, exFd0, q, fd0, fd1, p);
            && StageReady(now, t, u, line, i, -1, fd0, fd1, exFd0, fdRedir)
            && now - StageFds(t, u, line, i, -1, fd0, fd1, exFd0, fdRedir)
               == rest - RecordedFds(t, -1, |t.record|) - RedirFds(line, fdRedir)
  {
    var now := AtFork(rest, exFd0, q, fd0, fd1, p);
    EqualFds(now - StageFds(t, u, line, i, -1, fd0, fd1, exFd0, fdRedir),
             rest - RecordedFds(t, -1, |t.record|) - RedirFds(line, fdRedir));
  }

  lemma LastRuns(rest: Fds, t: Table, u: Users, line: Line, fdRedir: int, fd0: int, fd1: int, exFd0: int, p: nat,
                 q: nat)
    requires line.stages >= 2 && ForkReady(rest, t, u) && -1 <= t.outputPoint < |t.list|
    requires RedirReady(rest, t, u, line, fdRedir)
    requires exFd0 > 2 && exFd0 !in rest
    requires NeedsPipe(t, u, line) ==> NewEnds(rest[exFd0 := ReadEnd(q)], fd0, fd1)
    requires Resolved(t, line) >= 0 ==>
               fd0 == t.list[Resolved(t, line)].readFd && fd1 == t.list[Resolved(t, line)].writeFd
    ensures Resolved(t, line) >= 0 ==> t.list[Resolved(t, line)].writeFd in rest
    ensures var now := if NeedsPipe(t, u, line) then AtFork(rest, exFd0, q, fd0, fd1, p) else rest[exFd0 := ReadEnd(q)];
            var pos := Resolved(t, line);
            && StageReady(now, t, u, line, line.stages - 1, pos, fd0, fd1, exFd0, fdRedir)
            && Sink(now, u, line, fd1, fdRedir) == SinkEnd(rest, t, u, line, p)
            && now[exFd0] == ReadEnd(q) && now[u.sock] == rest[u.sock]
            && (line.crossNum < 0 ==> now[fd1] == SinkEnd(rest, t, u, line, p))
            && var kept := rest - RecordedFds(t, -1, |t.record|) - RedirFds(line, fdRedir);
               now - StageFds(t, u, line, line.stages - 1, pos, fd0, fd1, exFd0, fdRedir)
               == (if StraysPipe(u, line) then kept[fd0 := ReadEnd(p)][fd1 := WriteEnd(p)] else kept)
  {
    var pos := Resolved(t, line);
    var now := if NeedsPipe(t, u, line) then AtFork(rest, exFd0, q, fd0, fd1, p) else rest[exFd0 := ReadEnd(q)];
    if pos >= 0 { RecordedSplit(t, pos); }
    if pos < 0 { NoPosition(t, pos, |t.record|); }
    var kept := rest - RecordedFds(t, -1, |t.record|) - RedirFds(line, fdRedir);
    EqualFds(now - StageFds(t, u, line, line.stages - 1, pos, fd0, fd1, exFd0, fdRedir),
             if StraysPipe(u, line) then kept[fd0 := ReadEnd(p)][fd1 := WriteEnd(p)] else kept);
  }

  lemma NoPosition(t: Table, pos: int, n: nat)
    requires RecordInRange(t) && n <= |t.record| && pos < 0
    ensures RecordedFds(t, pos, n) == RecordedFds(t, -1, n)
  {
  }

  lemma SingleRuns(entry: Fds, t: Table, u: Users, line: Line, fd0: int, fd1: int, p: nat)
    requires Ready(entry, t, u, line)
    requires NeedsPipe(t, u, line) ==> NewEnds(entry, fd0, fd1)
    requires Resolved(t, line) >= 0 ==>
               fd0 == t.list[Resolved(t, line)].readFd && fd1 == t.list[Resolved(t, line)].writeFd
    ensures Resolved(t, line) >= 0 ==> t.list[Resolved(t, line)].writeFd in entry
    ensures var now := if NeedsPipe(t, u, line) then entry[fd0 := ReadEnd(p)][fd1 := WriteEnd(p)] else entry;
            var pos := Resolved(t, line);
            && SingleReady(now, t, u, line, pos, fd0, fd1)
            && SingleOut(now, u, line, fd1) == SinkEnd(entry, t, u, line, p)
            && now[u.sock] == entry[u.sock] && Source(now, t, u, line) == Source(entry, t, u, line)
            && (line.crossNum < 0 ==> now[fd1] == SinkEnd(entry, t, u, line, p))
            && var kept := entry - Shed(t, u, line);
               now - RecordedFds(t, pos, |t.record|) - InputFds(t, u, line)
                 - (if WritesFd(u, line) then {fd0, fd1} else {})
               == (if StraysPipe(u, line) then kept[fd0 := ReadEnd(p)][fd1 := WriteEnd(p)] else kept)
  {
    var pos := Resolved(t, line);
    var now := if NeedsPipe(t, u, line) then entry[fd0 := ReadEnd(p)][fd1 := WriteEnd(p)] else entry;
    if pos >= 0 { RecordedSplit(t, pos); }
    if pos < 0 { NoPosition(t, pos, |t.record|); }
    SourceKept(now, entry, t, u, line);
    var kept := entry - Shed(t, u, line);
    EqualFds(now - RecordedFds(t, pos, |t.record|) - InputFds(t, u, line)
             - (if WritesFd(u, line) then {fd0, fd1} else {}),
             if StraysPipe(u, line) then kept[fd0 := ReadEnd(p)][fd1 := WriteEnd(p)] else kept);
  }

  lemma SingleKept(entry: Fds, t: Table, u: Users, line: Line, p: nat, fd0: int, fd1: int, fds: Fds)
    requires Ready(entry, t, u, line) && (NeedsPipe(t, u, line) ==> NewEnds(entry, fd0, fd1))
    requires fds == (if NeedsPipe(t, u, line) then entry[fd0 := ReadEnd(p)][fd1 := WriteEnd(p)]
                     else entry) - InputFds(t, u, line)
                    - (if MakesUserPipe(AfterInput(t, u, line), line) then {fd1} else {})
    ensures fds == SingleServer(entry, t, u, line, p, fd0, fd1)
  {
    assert MakesUserPipe(u, line) ==> MakesUserPipe(AfterInput(t, u, line), line);
    EqualFds(fds, SingleServer(entry, t, u, line, p, fd0, fd1));
  }
}
