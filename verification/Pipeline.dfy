/**
  The wiring of a command line: which descriptors each started command runs with and which
  the server keeps. Follows `single_cmd`, `ordinary_pipe` and the functions they call, in
  np_single_proc.c (np_multi_proc.c has the same code for ordinary and numbered pipes).
  */
module Pipeline {
  import opened Kernel
  import opened SlotTable

  /** The descriptors of the recorded slots below n, except those of slot `pos`. */
  function RecordedFds(t: Table, pos: int, n: nat): set<int>
    requires n <= |t.record| && forall i :: 0 <= i < |t.record| ==> t.record[i] < |t.list|
  {
    if n == 0 then {}
    else RecordedFds(t, pos, n - 1)
         + (if t.record[n - 1] == pos then {} else {t.list[t.record[n - 1]].writeFd, t.list[t.record[n - 1]].readFd})
  }

  /** A descriptor of a recorded slot. */
  lemma {:induction false} RecordedBy(t: Table, pos: int, n: nat, f: int) returns (i: nat)
    requires RecordInRange(t) && n <= |t.record| && f in RecordedFds(t, pos, n)
    ensures i < n && t.record[i] != pos
    ensures f == t.list[t.record[i]].writeFd || f == t.list[t.record[i]].readFd
  {
    if t.record[n - 1] != pos && (f == t.list[t.record[n - 1]].writeFd || f == t.list[t.record[n - 1]].readFd) {
      i := n - 1;
    } else {
      i := RecordedBy(t, pos, n - 1, f);
    }
  }

  lemma {:induction false} RecordedHas(t: Table, pos: int, n: nat, i: nat)
    requires RecordInRange(t) && i < n <= |t.record| && t.record[i] != pos
    ensures t.list[t.record[i]].writeFd in RecordedFds(t, pos, n)
            && t.list[t.record[i]].readFd in RecordedFds(t, pos, n)
  {
    if i < n - 1 { RecordedHas(t, pos, n - 1, i); }
  }

  /** Recorded slots hold different descriptors. */
  ghost predicate RecordApart(t: Table) {
    && RecordInRange(t)
    && (forall i :: 0 <= i < |t.record| ==> t.list[t.record[i]].writeFd != t.list[t.record[i]].readFd)
    && (forall i, j :: 0 <= i < |t.record| && 0 <= j < |t.record| && t.record[i] != t.record[j] ==>
          Apart(t.list[t.record[i]], t.list[t.record[j]]))
  }

  predicate Apart(a: Slot, b: Slot) {
    a.writeFd != b.writeFd && a.writeFd != b.readFd && a.readFd != b.writeFd && a.readFd != b.readFd
  }

  /** All recorded descriptors are those of one slot and those of the others. */
  lemma RecordedSplit(t: Table, pos: nat)
    requires RecordApart(t) && pos in t.record
    ensures RecordedFds(t, -1, |t.record|) ==
            RecordedFds(t, pos, |t.record|) + {t.list[pos].writeFd, t.list[pos].readFd}
    ensures t.list[pos].writeFd !in RecordedFds(t, pos, |t.record|)
            && t.list[pos].readFd !in RecordedFds(t, pos, |t.record|)
  {
    var n := |t.record|;
    var all, rest := RecordedFds(t, -1, n), RecordedFds(t, pos, n);
    var at :| 0 <= at < n && t.record[at] == pos;
    RecordedHas(t, -1, n, at);
    forall f | f in all
      ensures f in rest + {t.list[pos].writeFd, t.list[pos].readFd}
    {
      var i := RecordedBy(t, -1, n, f);
      if t.record[i] != pos { RecordedHas(t, pos, n, i); }
    }
    forall f | f in rest
      ensures f in all && f != t.list[pos].writeFd && f != t.list[pos].readFd
    {
      var i := RecordedBy(t, pos, n, f);
      RecordedHas(t, -1, n, i);
      assert Apart(t.list[t.record[i]], t.list[t.record[at]]);
    }
  }

  predicate RecordInRange(t: Table) {
    forall i :: 0 <= i < |t.record| ==> t.record[i] < |t.list|
  }

  /** close_cross_pipe_fd */
  method CloseCrossPipeFd(p: Process, t: Table, pos: int)
    requires RecordInRange(t)
    modifies p
    ensures p.fds == old(p.fds) - RecordedFds(t, pos, |t.record|)
  {
    var i := 0;
    while i < |t.record|
      invariant 0 <= i <= |t.record| && p.fds == old(p.fds) - RecordedFds(t, pos, i)
    {
      var fdPos := t.record[i];
      if pos != fdPos {
        p.Close(t.list[fdPos].writeFd);
        p.Close(t.list[fdPos].readFd);
      }
      i := i + 1;
    }
  }

  /** connect_pipe_to_first_process in the server, which only closes the expired pipe. */
  method DropExpired(p: Process, t: Table)
    requires 0 <= t.outputPoint < |t.list|
    modifies p
    ensures p.fds == old(p.fds) - {t.list[t.outputPoint].writeFd, t.list[t.outputPoint].readFd}
  {
    p.Close(t.list[t.outputPoint].writeFd);
    p.Close(t.list[t.outputPoint].readFd);
  }

  /** connect_pipe_to_first_process in the first command, which reads the expired pipe. */
  method ReadExpired(p: Process, t: Table)
    requires 0 <= t.outputPoint < |t.list|
    requires t.list[t.outputPoint].readFd in p.fds && t.list[t.outputPoint].readFd > 2
    requires t.list[t.outputPoint].writeFd > 2 && t.list[t.outputPoint].writeFd != t.list[t.outputPoint].readFd
    modifies p
    ensures p.fds == (old(p.fds) - {t.list[t.outputPoint].writeFd, t.list[t.outputPoint].readFd})
                     [STDIN := old(p.fds)[t.list[t.outputPoint].readFd]]
  {
    var slot := t.list[t.outputPoint];
    p.Close(slot.writeFd);
    p.Dup2(slot.readFd, STDIN);
    p.Close(slot.readFd);
    assert p.fds == (old(p.fds) - {slot.writeFd, slot.readFd})[STDIN := old(p.fds)[slot.readFd]];
  }

  /** close_and_connect_fd in a command. */
  method ConnectChild(p: Process, current: int, first: int, last: int, fd0: int, fd1: int, exFd0: int)
    requires current != last ==> fd1 in p.fds && fd0 > 2 && fd1 > 2 && fd0 != fd1
    requires current != first ==> exFd0 in p.fds && exFd0 > 2
    requires current != last && current != first ==> exFd0 != fd0 && exFd0 != fd1
    modifies p
    ensures p.fds == ChildEnds(old(p.fds), current != first, exFd0, current != last, fd0, fd1)
  {
    if current != last {
      p.Close(fd0);
      p.Dup2(fd1, STDOUT);
      p.Close(fd1);
    }
    if current != first {
      p.Dup2(exFd0, STDIN);
      p.Close(exFd0);
    }
  }

  /** What close_and_connect_fd leaves a command with. */
  function ChildEnds(fds: Fds, input: bool, exFd0: int, output: bool, fd0: int, fd1: int): Fds
    requires output ==> fd1 in fds
    requires input ==> exFd0 in fds
  {
    var a := if output then (fds - {fd0, fd1})[STDOUT := fds[fd1]] else fds;
    if input then (a - {exFd0})[STDIN := fds[exFd0]] else a
  }

  /** close_and_connect_fd in the server. */
  method ConnectParent(p: Process, current: int, first: int, last: int, fd1: int, exFd0: int)
    modifies p
    ensures p.fds == old(p.fds) - (if current != last then {fd1} else {}) - (if current != first then {exFd0} else {})
  {
    if current != last { p.Close(fd1); }
    if current != first { p.Close(exFd0); }
  }

  // ---- A line and what it is resolved against ----

  /** A parsed line of external commands: `crossNum` > 0 for |n, < 0 for !n, 0 for neither; ids are 0 when not given. */
  datatype Line = Line(stages: nat, crossNum: int, redir: bool, userIn: nat, userOut: nat)

  /** The acting client, its socket, and the user table; userPipe[to][from] is -1 or a read end. */
  datatype Users = Users(me: nat, sock: int, state: seq<bool>, userPipe: seq<seq<int>>)

  predicate UsersFormed(u: Users) {
    && 1 <= u.me < |u.state| == |u.userPipe|
    && forall i :: 0 <= i < |u.userPipe| ==> |u.userPipe[i]| == |u.state|
  }

  predicate Absent(u: Users, id: nat) {
    id >= |u.state| || !u.state[id]
  }

  /** The condition under which `<id` reads /dev/null. */
  predicate NoPipeFrom(u: Users, from: nat)
    requires UsersFormed(u)
  {
    Absent(u, from) || u.userPipe[u.me][from] < 0
  }

  /** The condition under which `>id` writes to /dev/null. */
  predicate NoPipeTo(u: Users, to: nat)
    requires UsersFormed(u)
  {
    Absent(u, to) || u.userPipe[to][u.me] >= 0
  }

  predicate ReadsUserPipe(t: Table, u: Users, line: Line)
    requires UsersFormed(u)
  {
    t.outputPoint < 0 && line.userIn != 0 && !NoPipeFrom(u, line.userIn)
  }

  /** A new user pipe is made for the last stage. */
  predicate MakesUserPipe(u: Users, line: Line)
    requires UsersFormed(u)
  {
    line.crossNum == 0 && line.userOut != 0 && !NoPipeTo(u, line.userOut)
  }

  /** The descriptors that the first command takes over from the server. */
  function InputFds(t: Table, u: Users, line: Line): set<int>
    requires UsersFormed(u) && t.outputPoint < |t.list|
  {
    if t.outputPoint >= 0 then {t.list[t.outputPoint].writeFd, t.list[t.outputPoint].readFd}
    else if ReadsUserPipe(t, u, line) then {u.userPipe[u.me][line.userIn]}
    else {}
  }

  /** Every descriptor the line may use is open, and those that are closed at different times differ. */
  ghost predicate Ready(fds: Fds, t: Table, u: Users, line: Line) {
    && ForkReady(fds, t, u)
    && -1 <= t.outputPoint < |t.list|
    && (forall f :: f in InputFds(t, u, line) ==>
        f in fds && f > 2 && f != u.sock && f !in RecordedFds(t, -1, |t.record|))
    && (t.outputPoint >= 0 ==> t.list[t.outputPoint].writeFd != t.list[t.outputPoint].readFd)
  }

  /** What forking a stage needs: the standard descriptors, the socket, and the live numbered pipes. */
  ghost predicate ForkReady(fds: Fds, t: Table, u: Users) {
    && UsersFormed(u) && RecordApart(t)
    && STDIN in fds && STDOUT in fds && STDERR in fds
    && u.sock in fds && u.sock > 2
    && (forall f :: f in RecordedFds(t, -1, |t.record|) ==> f in fds && f > 2 && f != u.sock)
  }

  // ---- The first command's input ----

  method OpenNull(p: Process, fd: int)
    requires 0 <= fd <= 2
    modifies p
    ensures p.fds == old(p.fds)[fd := Null]
  {
    var devNull := p.Open(Null);
    p.Dup2(devNull, fd);
    p.Close(devNull);
    assert p.fds == old(p.fds)[fd := Null];
  }

  /** What the first command reads. */
  function Source(fds: Fds, t: Table, u: Users, line: Line): End
    requires UsersFormed(u) && -1 <= t.outputPoint < |t.list|
    requires u.sock in fds && forall f :: f in InputFds(t, u, line) ==> f in fds
  {
    if t.outputPoint >= 0 then
      assert t.list[t.outputPoint].readFd in InputFds(t, u, line);
      fds[t.list[t.outputPoint].readFd]
    else if line.userIn == 0 then fds[u.sock]
    else if NoPipeFrom(u, line.userIn) then Null
    else
      assert u.userPipe[u.me][line.userIn] in InputFds(t, u, line);
      fds[u.userPipe[u.me][line.userIn]]
  }

  method WireInput(p: Process, t: Table, u: Users, line: Line)
    requires UsersFormed(u) && -1 <= t.outputPoint < |t.list|
    requires u.sock in p.fds
    requires forall f :: f in InputFds(t, u, line) ==> f in p.fds && f > 2
    requires t.outputPoint >= 0 ==> t.list[t.outputPoint].writeFd != t.list[t.outputPoint].readFd
    modifies p
    ensures p.fds == (old(p.fds) - InputFds(t, u, line))[STDIN := Source(old(p.fds), t, u, line)]
  {
    if t.outputPoint >= 0 {
      assert t.list[t.outputPoint].readFd in InputFds(t, u, line)
        && t.list[t.outputPoint].writeFd in InputFds(t, u, line);
      ReadExpired(p, t);
    } else if line.userIn != 0 {
      if NoPipeFrom(u, line.userIn) {
        OpenNull(p, STDIN);
      } else {
        var fd := u.userPipe[u.me][line.userIn];
        assert fd in InputFds(t, u, line);
        p.Dup2(fd, STDIN);
        p.Close(fd);
        assert p.fds == (old(p.fds) - {fd})[STDIN := old(p.fds)[fd]];
      }
    } else {
      p.Dup2(u.sock, STDIN);
    }
    assert t.outputPoint < 0 && (line.userIn == 0 || NoPipeFrom(u, line.userIn)) ==>
        old(p.fds) - InputFds(t, u, line) == old(p.fds);
  }

  // ---- The last command's output ----

  /** The last stage writes to fd[1] of a numbered pipe or of a new user pipe. */
  predicate WritesFd(u: Users, line: Line)
    requires UsersFormed(u)
  {
    line.crossNum != 0 || (!line.redir && MakesUserPipe(u, line))
  }

  function Sink(fds: Fds, u: Users, line: Line, fd1: int, fdRedir: int): End
    requires UsersFormed(u) && u.sock in fds && (WritesFd(u, line) ==> fd1 in fds)
    requires line.redir ==> fdRedir in fds
  {
    if WritesFd(u, line) then fds[fd1]
    else if line.redir then fds[fdRedir]
    else if line.userOut != 0 then Null
    else fds[u.sock]
  }

  method WireLast(p: Process, u: Users, line: Line, fd0: int, fd1: int, fdRedir: int)
    requires UsersFormed(u) && u.sock in p.fds && STDERR in p.fds
    requires WritesFd(u, line) ==> fd1 in p.fds && fd0 > 2 && fd1 > 2 && fd0 != fd1
    requires line.redir ==> fdRedir in p.fds
    modifies p
    ensures p.fds == (old(p.fds) - (if WritesFd(u, line) then {fd0, fd1} else {}))
                     [STDOUT := Sink(old(p.fds), u, line, fd1, fdRedir)]
                     [STDERR := if line.crossNum < 0 then old(p.fds)[fd1] else old(p.fds)[STDERR]]
  {
    ghost var was := p.fds;
    if line.crossNum != 0 {
      if line.crossNum < 0 { p.Dup2(fd1, STDERR); }
      ConnectChild(p, 0, 0, 1, fd0, fd1, -1);
    } else if line.redir {
      p.Dup2(fdRedir, STDOUT);
    } else if line.userOut != 0 {
      if NoPipeTo(u, line.userOut) {
        OpenNull(p, STDOUT);
      } else {
        ConnectChild(p, 0, 0, 1, fd0, fd1, -1);
      }
    } else {
      p.Dup2(u.sock, STDOUT);
    }
    assert p.fds == (was - (if WritesFd(u, line) then {fd0, fd1} else {}))
                    [STDOUT := Sink(was, u, line, fd1, fdRedir)]
                    [STDERR := if line.crossNum < 0 then was[fd1] else was[STDERR]];
  }

  // ---- A command of a pipeline: np_single_proc.c:601-664 ----

  /** The descriptors that stage i closes on its own account. */
  function StageFds(t: Table, u: Users, line: Line, i: nat, pos: int, fd0: int, fd1: int, exFd0: int,
                    fdRedir: int): set<int>
    requires UsersFormed(u) && RecordInRange(t) && -1 <= t.outputPoint < |t.list|
  {
    RecordedFds(t, pos, |t.record|) + OwnFds(t, u, line, i, fd0, fd1, exFd0, fdRedir)
  }

  /** Its input, the output file and the two ends of its own pipe. */
  function OwnFds(t: Table, u: Users, line: Line, i: nat, fd0: int, fd1: int, exFd0: int, fdRedir: int): set<int>
    requires UsersFormed(u) && -1 <= t.outputPoint < |t.list|
  {
    (if i == 0 then InputFds(t, u, line) else {exFd0})
    + (if line.redir then {fdRedir} else {})
    + (if i < line.stages - 1 || WritesFd(u, line) then {fd0, fd1} else {})
  }

  /** Stage i finds every descriptor it needs, and none of them is closed too early. */
  ghost predicate StageReady(fds: Fds, t: Table, u: Users, line: Line, i: nat, pos: int, fd0: int, fd1: int,
                             exFd0: int, fdRedir: int) {
    && UsersFormed(u) && RecordInRange(t) && -1 <= t.outputPoint < |t.list| && i < line.stages && line.stages >= 2
    && STDIN in fds && STDOUT in fds && STDERR in fds && u.sock in fds && u.sock > 2
    && u.sock !in StageFds(t, u, line, i, pos, fd0, fd1, exFd0, fdRedir)
    && (forall f :: f in RecordedFds(t, pos, |t.record|) ==>
          f > 2 && f !in OwnFds(t, u, line, i, fd0, fd1, exFd0, fdRedir))
    && (i == 0 ==> forall f :: f in InputFds(t, u, line) ==>
          f in fds && f > 2 && f != fd0 && f != fd1 && (line.redir ==> f != fdRedir))
    && (i == 0 && t.outputPoint >= 0 ==> t.list[t.outputPoint].writeFd != t.list[t.outputPoint].readFd)
    && (i > 0 ==> exFd0 in fds && exFd0 > 2 && (line.redir ==> exFd0 != fdRedir))
    && (i < line.stages - 1 || WritesFd(u, line) ==>
          && fd1 in fds && fd0 > 2 && fd1 > 2 && fd0 != fd1
          && (line.redir ==> fd0 != fdRedir && fd1 != fdRedir)
          && (i > 0 ==> exFd0 != fd0 && exFd0 != fd1))
    && (line.redir ==> fdRedir in fds && fdRedir > 2)
  }

  function StageIn(fds: Fds, t: Table, u: Users, line: Line, i: nat, pos: int, fd0: int, fd1: int, exFd0: int,
                   fdRedir: int): End
    requires StageReady(fds, t, u, line, i, pos, fd0, fd1, exFd0, fdRedir)
  {
    if i == 0 then Source(fds, t, u, line) else fds[exFd0]
  }

  function StageOut(fds: Fds, t: Table, u: Users, line: Line, i: nat, pos: int, fd0: int, fd1: int, exFd0: int,
                    fdRedir: int): End
    requires StageReady(fds, t, u, line, i, pos, fd0, fd1, exFd0, fdRedir)
  {
    if i < line.stages - 1 then fds[fd1] else Sink(fds, u, line, fd1, fdRedir)
  }

  function StageErr(fds: Fds, t: Table, u: Users, line: Line, i: nat, pos: int, fd0: int, fd1: int, exFd0: int,
                    fdRedir: int): End
    requires StageReady(fds, t, u, line, i, pos, fd0, fd1, exFd0, fdRedir)
  {
    if i == line.stages - 1 && line.crossNum < 0 then fds[fd1] else fds[u.sock]
  }

  method OrdinaryChild(p: Process, t: Table, u: Users, line: Line, i: nat, pos: int, fd0: int, fd1: int, exFd0: int,
                       fdRedir: int)
    requires StageReady(p.fds, t, u, line, i, pos, fd0, fd1, exFd0, fdRedir)
    modifies p
    ensures p.fds == (old(p.fds) - StageFds(t, u, line, i, pos, fd0, fd1, exFd0, fdRedir))
                     [STDIN := StageIn(old(p.fds), t, u, line, i, pos, fd0, fd1, exFd0, fdRedir)]
                     [STDOUT := StageOut(old(p.fds), t, u, line, i, pos, fd0, fd1, exFd0, fdRedir)]
                     [STDERR := StageErr(old(p.fds), t, u, line, i, pos, fd0, fd1, exFd0, fdRedir)]
  {
    CloseCrossPipeFd(p, t, pos);
    p.Dup2(u.sock, STDERR);
    if i == 0 {
      FirstStage(p, old(p.fds), t, u, line, pos, fd0, fd1, exFd0, fdRedir);
    } else if i == line.stages - 1 {
      LastStage(p, old(p.fds), t, u, line, i, pos, fd0, fd1, exFd0, fdRedir);
    } else {
      MiddleStage(p, old(p.fds), t, u, line, i, pos, fd0, fd1, exFd0, fdRedir);
    }
  }

  /** What every stage has done before it looks at its position. */
  ghost predicate Prepared(p: Process, was: Fds, t: Table, u: Users, pos: int)
    requires RecordInRange(t)
    reads p
  {
    u.sock in was && p.fds == (was - RecordedFds(t, pos, |t.record|))[STDERR := was[u.sock]]
  }

  method FirstStage(p: Process, ghost was: Fds, t: Table, u: Users, line: Line, pos: int, fd0: int, fd1: int,
                    exFd0: int, fdRedir: int)
    requires StageReady(was, t, u, line, 0, pos, fd0, fd1, exFd0, fdRedir) && Prepared(p, was, t, u, pos)
    modifies p
    ensures p.fds == (was - StageFds(t, u, line, 0, pos, fd0, fd1, exFd0, fdRedir))
                     [STDIN := Source(was, t, u, line)][STDOUT := was[fd1]][STDERR := was[u.sock]]
  {
    assert forall f :: f in InputFds(t, u, line) ==> f !in RecordedFds(t, pos, |t.record|);
    ghost var src := Source(p.fds, t, u, line);
    SourceKept(was, p.fds, t, u, line);
    WireInput(p, t, u, line);
    if line.redir { p.Close(fdRedir); }
    ConnectChild(p, 0, 0, line.stages - 1, fd0, fd1, exFd0);
    EqualFds(p.fds, (was - StageFds(t, u, line, 0, pos, fd0, fd1, exFd0, fdRedir))
                    [STDIN := src][STDOUT := was[fd1]][STDERR := was[u.sock]]);
  }

  lemma SourceKept(a: Fds, b: Fds, t: Table, u: Users, line: Line)
    requires UsersFormed(u) && -1 <= t.outputPoint < |t.list|
    requires u.sock in a && u.sock in b && a[u.sock] == b[u.sock]
    requires forall f :: f in InputFds(t, u, line) ==> f in a && f in b && a[f] == b[f]
    ensures Source(a, t, u, line) == Source(b, t, u, line)
  {
    if t.outputPoint >= 0 {
      assert t.list[t.outputPoint].readFd in InputFds(t, u, line);
    } else if line.userIn != 0 && !NoPipeFrom(u, line.userIn) {
      assert u.userPipe[u.me][line.userIn] in InputFds(t, u, line);
    }
  }

  method MiddleStage(p: Process, ghost was: Fds, t: Table, u: Users, line: Line, i: nat, pos: int, fd0: int,
                     fd1: int, exFd0: int, fdRedir: int)
    requires 0 < i < line.stages - 1
    requires StageReady(was, t, u, line, i, pos, fd0, fd1, exFd0, fdRedir) && Prepared(p, was, t, u, pos)
    requires exFd0 !in RecordedFds(t, pos, |t.record|) && fd1 !in RecordedFds(t, pos, |t.record|)
    modifies p
    ensures p.fds == (was - StageFds(t, u, line, i, pos, fd0, fd1, exFd0, fdRedir))
                     [STDIN := was[exFd0]][STDOUT := was[fd1]][STDERR := was[u.sock]]
  {
    if line.redir { p.Close(fdRedir); }
    ConnectChild(p, i, 0, line.stages - 1, fd0, fd1, exFd0);
    EqualFds(p.fds, (was - StageFds(t, u, line, i, pos, fd0, fd1, exFd0, fdRedir))
                    [STDIN := was[exFd0]][STDOUT := was[fd1]][STDERR := was[u.sock]]);
  }

  method LastStage(p: Process, ghost was: Fds, t: Table, u: Users, line: Line, i: nat, pos: int, fd0: int, fd1: int,
                   exFd0: int, fdRedir: int)
    requires i == line.stages - 1 > 0
    requires StageReady(was, t, u, line, i, pos, fd0, fd1, exFd0, fdRedir) && Prepared(p, was, t, u, pos)
    modifies p
    ensures p.fds == (was - StageFds(t, u, line, i, pos, fd0, fd1, exFd0, fdRedir))
                     [STDIN := was[exFd0]][STDOUT := Sink(was, u, line, fd1, fdRedir)]
                     [STDERR := if line.crossNum < 0 then was[fd1] else was[u.sock]]
  {
    ghost var rec := RecordedFds(t, pos, |t.record|);
    assert exFd0 !in rec && (line.redir ==> fdRedir !in rec) && (WritesFd(u, line) ==> fd1 !in rec);
    WireLast(p, u, line, fd0, fd1, fdRedir);
    if line.redir { p.Close(fdRedir); }
    ConnectChild(p, i, 0, line.stages - 1, fd0, fd1, exFd0);
    EqualFds(p.fds, (was - StageFds(t, u, line, i, pos, fd0, fd1, exFd0, fdRedir))
                    [STDIN := was[exFd0]][STDOUT := Sink(was, u, line, fd1, fdRedir)]
                    [STDERR := if line.crossNum < 0 then was[fd1] else was[u.sock]]);
  }

  // ---- A command on its own: np_single_proc.c:476-540 ----

  function SingleOut(fds: Fds, u: Users, line: Line, fd1: int): End
    requires UsersFormed(u) && u.sock in fds && (WritesFd(u, line) ==> fd1 in fds)
  {
    if WritesFd(u, line) then fds[fd1]
    else if line.redir then File(0)
    else if line.userOut != 0 then Null
    else fds[u.sock]
  }

  ghost predicate SingleReady(fds: Fds, t: Table, u: Users, line: Line, pos: int, fd0: int, fd1: int) {
    && UsersFormed(u) && RecordInRange(t) && -1 <= t.outputPoint < |t.list|
    && STDIN in fds && STDOUT in fds && STDERR in fds && u.sock in fds && u.sock > 2
    && (forall f :: f in RecordedFds(t, pos, |t.record|) ==> f > 2 && f != u.sock && f !in InputFds(t, u, line))
    && (forall f :: f in InputFds(t, u, line) ==> f in fds && f > 2 && f != u.sock)
    && (t.outputPoint >= 0 ==> t.list[t.outputPoint].writeFd != t.list[t.outputPoint].readFd)
    && (WritesFd(u, line) ==>
          && fd1 in fds && fd0 > 2 && fd1 > 2 && fd0 != fd1 && fd0 != u.sock && fd1 != u.sock
          && fd0 !in InputFds(t, u, line) && fd1 !in InputFds(t, u, line)
          && fd0 !in RecordedFds(t, pos, |t.record|) && fd1 !in RecordedFds(t, pos, |t.record|))
  }

  method SingleChild(p: Process, t: Table, u: Users, line: Line, pos: int, fd0: int, fd1: int)
    requires SingleReady(p.fds, t, u, line, pos, fd0, fd1)
    modifies p
    ensures p.fds == (old(p.fds) - RecordedFds(t, pos, |t.record|) - InputFds(t, u, line)
                      - (if WritesFd(u, line) then {fd0, fd1} else {}))
                     [STDIN := Source(old(p.fds), t, u, line)]
                     [STDOUT := SingleOut(old(p.fds), u, line, fd1)]
                     [STDERR := if line.crossNum < 0 then old(p.fds)[fd1] else old(p.fds)[u.sock]]
  {
    CloseCrossPipeFd(p, t, pos);
    ghost var mid := p.fds;
    SourceKept(old(p.fds), mid, t, u, line);
    WireInput(p, t, u, line);
    SingleOutput(p, old(p.fds), t, u, line, pos, fd0, fd1);
  }

  method SingleSink(p: Process, u: Users, line: Line, fd0: int, fd1: int)
    requires UsersFormed(u) && u.sock in p.fds && u.sock > 2 && STDERR in p.fds
    requires WritesFd(u, line) ==> fd1 in p.fds && fd0 > 2 && fd1 > 2 && fd0 != fd1
    modifies p
    ensures p.fds == (old(p.fds) - (if WritesFd(u, line) then {fd0, fd1} else {}))
                     [STDOUT := SingleOut(old(p.fds), u, line, fd1)]
                     [STDERR := if line.crossNum < 0 then old(p.fds)[fd1] else old(p.fds)[STDERR]]
  {
    ghost var was := p.fds;
    if line.crossNum != 0 {
      if line.crossNum < 0 { p.Dup2(fd1, STDERR); }
      ConnectChild(p, 0, 0, 1, fd0, fd1, -1);
    } else if line.redir {
      var fdRedir := p.Open(File(0));
      p.Dup2(fdRedir, STDOUT);
      p.Close(fdRedir);
    } else if line.userOut != 0 {
      if NoPipeTo(u, line.userOut) {
        OpenNull(p, STDOUT);
      } else {
        ConnectChild(p, 0, 0, 1, fd0, fd1, -1);
      }
    } else {
      p.Dup2(u.sock, STDOUT);
    }
    EqualFds(p.fds, (was - (if WritesFd(u, line) then {fd0, fd1} else {}))
                    [STDOUT := SingleOut(was, u, line, fd1)]
                    [STDERR := if line.crossNum < 0 then was[fd1] else was[STDERR]]);
  }

  method SingleOutput(p: Process, ghost was: Fds, t: Table, u: Users, line: Line, pos: int, fd0: int, fd1: int)
    requires SingleReady(was, t, u, line, pos, fd0, fd1)
    requires p.fds == (was - RecordedFds(t, pos, |t.record|) - InputFds(t, u, line))[STDIN := Source(was, t, u, line)]
    modifies p
    ensures p.fds == (was - RecordedFds(t, pos, |t.record|) - InputFds(t, u, line)
                      - (if WritesFd(u, line) then {fd0, fd1} else {}))
                     [STDIN := Source(was, t, u, line)]
                     [STDOUT := SingleOut(was, u, line, fd1)]
                     [STDERR := if line.crossNum < 0 then was[fd1] else was[u.sock]]
  {
    SingleSink(p, u, line, fd0, fd1);
    if line.crossNum >= 0 { p.Dup2(u.sock, STDERR); }
    EqualFds(p.fds, (was - RecordedFds(t, pos, |t.record|) - InputFds(t, u, line)
                     - (if WritesFd(u, line) then {fd0, fd1} else {}))
                    [STDIN := Source(was, t, u, line)]
                    [STDOUT := SingleOut(was, u, line, fd1)]
                    [STDERR := if line.crossNum < 0 then was[fd1] else was[u.sock]]);
  }
}
