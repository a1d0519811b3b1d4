/**
  What the server says about `<id` and `>id` and what it then does. The conditions are
  evaluated separately for the message, for the new pipe, in the command and in the server;
  this module says exactly on which lines the answers agree.
  */
module UserPipeMessages {
  import opened Kernel
  import opened Ledger
  import opened LedgerCommands
  import opened LedgerLine
  import opened Pipeline
  import opened SlotTable
  import opened Wiring

  datatype Message =
    | NoSuchUser(id: nat)
    | NoPipeYet(from: nat)
    | Received(from: nat)      // broadcast
    | AlreadyThere(to: nat)
    | Piped(to: nat)           // broadcast

  /** print_user_pipe_msg_handler: the messages for `<id` and `>id`, in order. */
  method Announce(u: Users, userIn: nat, userOut: nat) returns (said: seq<Message>)
    requires UsersFormed(u)
    ensures said == Announced(u, userIn, userOut)
    ensures (exists m :: m in said && m.Received?) <==> userIn != 0 && !NoPipeFrom(u, userIn)
    ensures (exists m :: m in said && m.Piped?) <==> userOut != 0 && !NoPipeTo(u, userOut)
    ensures forall m :: m in said <==>
              || (userIn != 0 && AnswersIn(u, userIn, m))
              || (userOut != 0 && AnswersOut(u, userOut, m))
    ensures userIn != 0 ==> |said| > 0 && AnswersIn(u, userIn, said[0])
  {
    SaysMeans(u, Line(1, 0, false, userIn, userOut));
    SaidExactly(u, userIn, userOut);
    said := [];
    if userIn != 0 {
      if Absent(u, userIn) || u.userPipe[u.me][userIn] < 0 {
        if Absent(u, userIn) {
          said := said + [NoSuchUser(userIn)];
        } else {
          said := said + [NoPipeYet(userIn)];
        }
      } else {
        said := said + [Received(userIn)];
      }
    }
    if userOut != 0 {
      if Absent(u, userOut) || u.userPipe[userOut][u.me] >= 0 {
        if Absent(u, userOut) {
          said := said + [NoSuchUser(userOut)];
        } else {
          said := said + [AlreadyThere(userOut)];
        }
      } else {
        said := said + [Piped(userOut)];
      }
    }
  }

  /** The one answer to `<id`: there is no such user, no pipe from that user, or its pipe was received. */
  predicate AnswersIn(u: Users, id: nat, m: Message)
    requires UsersFormed(u)
  {
    var there := id < |u.state| && u.state[id];
    match m
    case NoSuchUser(i) => i == id && !there
    case NoPipeYet(i) => i == id && there && u.userPipe[u.me][id] < 0
    case Received(i) => i == id && there && u.userPipe[u.me][id] >= 0
    case _ => false
  }

  /** The one answer to `>id`: there is no such user, it has a pipe from the client already, or it gets one. */
  predicate AnswersOut(u: Users, id: nat, m: Message)
    requires UsersFormed(u)
  {
    var there := id < |u.state| && u.state[id];
    match m
    case NoSuchUser(i) => i == id && !there
    case AlreadyThere(i) => i == id && there && u.userPipe[id][u.me] >= 0
    case Piped(i) => i == id && there && u.userPipe[id][u.me] < 0
    case _ => false
  }

  function Announced(u: Users, userIn: nat, userOut: nat): seq<Message>
    requires UsersFormed(u)
  {
    (if userIn == 0 then []
     else [if Absent(u, userIn) then NoSuchUser(userIn) else if u.userPipe[u.me][userIn] < 0 then NoPipeYet(userIn)
           else Received(userIn)])
    + (if userOut == 0 then []
       else [if Absent(u, userOut) then NoSuchUser(userOut)
             else if u.userPipe[userOut][u.me] >= 0 then AlreadyThere(userOut) else Piped(userOut)])
  }

  predicate SaysReceived(u: Users, line: Line)
    requires UsersFormed(u)
  {
    exists m :: m in Announced(u, line.userIn, line.userOut) && m.Received?
  }

  predicate SaysPiped(u: Users, line: Line)
    requires UsersFormed(u)
  {
    exists m :: m in Announced(u, line.userIn, line.userOut) && m.Piped?
  }

  /**
    A pipe is announced as received exactly when there is one to read, and as piped exactly
    when the receiver exists and has none from this client yet.
    */
  lemma SaysMeans(u: Users, line: Line)
    requires UsersFormed(u)
    ensures SaysReceived(u, line) <==> line.userIn != 0 && !NoPipeFrom(u, line.userIn)
    ensures SaysPiped(u, line) <==> line.userOut != 0 && !NoPipeTo(u, line.userOut)
  {
    var said := Announced(u, line.userIn, line.userOut);
    var i := if line.userIn == 0 then 0 else 1;
    if line.userIn != 0 { assert said[0] in said; }
    if line.userOut != 0 { assert said[i] in said; }
  }

  /** What is said answers `<id` and then `>id`, and nothing else is said. */
  lemma SaidExactly(u: Users, userIn: nat, userOut: nat)
    requires UsersFormed(u)
    ensures forall m :: m in Announced(u, userIn, userOut) <==>
              || (userIn != 0 && AnswersIn(u, userIn, m))
              || (userOut != 0 && AnswersOut(u, userOut, m))
    ensures userIn != 0 ==>
              |Announced(u, userIn, userOut)| > 0 && AnswersIn(u, userIn, Announced(u, userIn, userOut)[0])
  {
    var said := Announced(u, userIn, userOut);
    var i := if userIn == 0 then 0 else 1;
    if userIn != 0 { assert said[0] in said; }
    if userOut != 0 { assert said[i] in said; }
  }

  // ---- What becomes of the pipes ----

  /** An entry of the client's row was there before the line and is not there after it. */
  predicate Consumed(x: Turn)
    requires UsersFormed(x.u) && UsersFormed(x.v) && |x.v.state| == |x.u.state|
  {
    exists j :: 0 <= j < |x.u.state| && x.u.userPipe[x.u.me][j] >= 0 > x.v.userPipe[x.u.me][j]
  }

  /** The line recorded a pipe from the client that was not there before. */
  predicate Stored(x: Turn)
    requires UsersFormed(x.u) && UsersFormed(x.v) && |x.v.state| == |x.u.state|
  {
    exists j :: 0 <= j < |x.u.state| && x.v.userPipe[j][x.u.me] >= 0 > x.u.userPipe[j][x.u.me]
  }

  lemma UsersAfter(t: Table, u: Users, line: Line, v: Users, stores: bool, fd0: int)
    requires UsersFormed(u) && (stores ==> MakesUserPipe(AfterInput(t, u, line), line) && fd0 >= 0)
    requires var w := AfterInput(t, u, line);
             v == if stores
                  then w.(userPipe := w.userPipe[line.userOut := w.userPipe[line.userOut][w.me := fd0]])
                  else w
    ensures UsersFormed(v) && |v.state| == |u.state|
    ensures !(stores && ReadsUserPipe(t, u, line) && line.userIn == u.me && line.userOut == u.me) ==>
              && (stores <==> exists j :: 0 <= j < |u.state| && v.userPipe[j][u.me] >= 0 > u.userPipe[j][u.me])
              && (ReadsUserPipe(t, u, line) <==>
                  exists j :: 0 <= j < |u.state| && u.userPipe[u.me][j] >= 0 > v.userPipe[u.me][j])
  {
    var w := AfterInput(t, u, line);
    assert UsersFormed(w);
    if !(stores && ReadsUserPipe(t, u, line) && line.userIn == u.me && line.userOut == u.me) {
      if stores {
        assert v.userPipe[line.userOut][u.me] == fd0;
        assert u.userPipe[line.userOut][u.me] < 0;
      }
      if ReadsUserPipe(t, u, line) {
        assert v.userPipe[u.me][line.userIn] == -1;
      }
    }
  }

  /**
    For a single command that is not `<me >me` with a pipe from me to me: "received" is said
    exactly when a pipe was consumed, unless a numbered pipe ran out on the same line; "piped"
    is said exactly when a pipe was stored, unless the line also has |n or !n.
    */
  lemma SingleSaysWhatItDoes(x: Turn, openOk: bool, junk0: int, junk1: int)
    requires SingleDone(x, openOk, junk0, junk1) && !SelfPipe(x.t, x.u, x.line)
    ensures UsersFormed(x.u) && UsersFormed(x.v) && |x.v.state| == |x.u.state|
    ensures (SaysReceived(x.u, x.line) <==> Consumed(x)) <==> !(SaysReceived(x.u, x.line) && x.t.outputPoint >= 0)
    ensures (SaysPiped(x.u, x.line) <==> Stored(x)) <==> !(SaysPiped(x.u, x.line) && x.line.crossNum != 0)
  {
    SaysMeans(x.u, x.line);
    SelfOnly(x.t, x.u, x.line);
    var stores := MakesUserPipe(AfterInput(x.t, x.u, x.line), x.line);
    UsersAfter(x.t, x.u, x.line, x.v, stores, x.fd0);
    hide SaysReceived, SaysPiped, AfterInput, SingleServer, SingleCommand, Ready;
  }

  /** Only `<me >me` can see the second look at the user table differ from the first. */
  lemma SelfOnly(t: Table, u: Users, line: Line)
    requires UsersFormed(u)
    ensures UsersFormed(AfterInput(t, u, line))
    ensures MakesUserPipe(AfterInput(t, u, line), line) != MakesUserPipe(u, line) ==>
              line.userIn == u.me && line.userOut == u.me && ReadsUserPipe(t, u, line)
  {
  }

  /**
    The same for a pipeline, which looks at the user table again for its last stage: "piped"
    is said exactly when a pipe was stored, unless the line also has |n, !n or `> file`.
    */
  lemma PipelineSaysWhatItDoes(x: Turn)
    requires PipelineDone(x) && !SelfPipe(x.t, x.u, x.line)
    ensures UsersFormed(x.u) && UsersFormed(x.v) && |x.v.state| == |x.u.state|
    ensures (SaysReceived(x.u, x.line) <==> Consumed(x)) <==> !(SaysReceived(x.u, x.line) && x.t.outputPoint >= 0)
    ensures (SaysPiped(x.u, x.line) <==> Stored(x)) <==>
            !(SaysPiped(x.u, x.line) && (x.line.crossNum != 0 || x.line.redir))
  {
    SaysMeans(x.u, x.line);
    SelfOnly(x.t, x.u, x.line);
    var stores := MakesUserPipe(AfterInput(x.t, x.u, x.line), x.line) && !x.line.redir;
    UsersAfter(x.t, x.u, x.line, x.v, stores, x.fd0);
    hide SaysReceived, SaysPiped, AfterInput, ServerKeeps, LastChild, Ready, Stages;
  }

  /**
    `<me >me` with a pipe from me to me. A single command says that the pipe is already
    there, does not make one, and then stores whatever its array held.
    */
  lemma SelfPipeDisagrees(x: Turn, openOk: bool, junk0: int, junk1: int)
    requires SingleDone(x, openOk, junk0, junk1) && SelfPipe(x.t, x.u, x.line)
    ensures UsersFormed(x.u) && !SaysPiped(x.u, x.line) && SaysReceived(x.u, x.line)
    ensures x.pipes == x.p0 && x.v.userPipe[x.u.me][x.u.me] == junk0
  {
    SaysMeans(x.u, x.line);
    SelfOnly(x.t, x.u, x.line);
    hide SaysReceived, SaysPiped, SingleServer, SingleCommand;
  }

  /** A pipeline says the same, but makes a new pipe and, without `> file`, stores it. */
  lemma PipelineSelfPipeDisagrees(x: Turn)
    requires PipelineDone(x) && SelfPipe(x.t, x.u, x.line)
    ensures UsersFormed(x.u) && !SaysPiped(x.u, x.line) && SaysReceived(x.u, x.line)
    ensures x.pipes == x.p0 + x.line.stages
    ensures UsersFormed(x.v) && x.u.me < |x.v.state|
    ensures x.v.userPipe[x.u.me][x.u.me] == if x.line.redir then -1 else x.fd0
    ensures HasEnd(x.fds, x.fd0, ReadEnd(x.p0 + x.line.stages - 1))
  {
    SaysMeans(x.u, x.line);
    SelfOnly(x.t, x.u, x.line);
    hide SaysReceived, SaysPiped, LastChild, Ready, Stages, Resolved;
  }

  // ---- The command agrees with the server ----

  /** This is one of the user pipes recorded for the client. */
  predicate IsUserPipeTo(x: Turn, e: End)
    requires UsersFormed(x.u)
  {
    exists j :: 0 <= j < |x.u.state| && x.u.userPipe[x.u.me][j] >= 0 && HasEnd(x.entry, x.u.userPipe[x.u.me][j], e)
  }

  lemma OtherInput(s: Server, x: Turn, j: nat)
    requires Inv(s) && TypedAt(s, x) && Ready(x.entry, x.t, x.u, x.line) && !ReadsUserPipe(x.t, x.u, x.line)
    requires j < |x.u.state| && x.u.userPipe[x.u.me][j] >= 0
    ensures !HasEnd(x.entry, x.u.userPipe[x.u.me][j], Source(x.entry, x.t, x.u, x.line))
  {
    UserPipesAreApart(s, x.u.me, j);
    SocketIsNoPipe(s, x);
    if x.t.outputPoint >= 0 {
      var i := x.t.outputPoint;
      SlotBefore(s, x.u.me, i);
      assert x.t.list[i].readFd == s.tables[x.u.me].list[i].readFd;
      assert x.t.list[i].readFd != x.u.userPipe[x.u.me][j];
    }
    assert Once(s);
    hide Inv, Ready;
  }

  lemma InputMeans(s: Server, x: Turn)
    requires Inv(s) && TypedAt(s, x) && Ready(x.entry, x.t, x.u, x.line)
    ensures IsUserPipeTo(x, Source(x.entry, x.t, x.u, x.line)) <==> ReadsUserPipe(x.t, x.u, x.line)
  {
    if !ReadsUserPipe(x.t, x.u, x.line) {
      forall j: nat | j < |x.u.state| && x.u.userPipe[x.u.me][j] >= 0
        ensures !HasEnd(x.entry, x.u.userPipe[x.u.me][j], Source(x.entry, x.t, x.u, x.line))
      {
        OtherInput(s, x, j);
      }
    } else {
      assert x.u.userPipe[x.u.me][x.line.userIn] in InputFds(x.t, x.u, x.line);
      assert HasEnd(x.entry, x.u.userPipe[x.u.me][x.line.userIn], Source(x.entry, x.t, x.u, x.line));
    }
    hide Inv, TypedAt, Ready;
  }

  /** The command's standard output is the line's new pipe. */
  lemma OutputMeans(s: Server, x: Turn)
    requires Inv(s) && TypedAt(s, x) && Ready(x.entry, x.t, x.u, x.line)
    requires Resolved(x.t, x.line) >= 0 ==> x.t.list[Resolved(x.t, x.line)].writeFd in x.entry
    ensures SinkEnd(x.entry, x.t, x.u, x.line, x.p0) == WriteEnd(x.p0)
            <==> if x.line.crossNum != 0 then Resolved(x.t, x.line) < 0 else MakesUserPipe(x.u, x.line) && !x.line.redir
  {
    SocketIsNoPipe(s, x);
    ServerBelow(s);
    hide Inv, Ready, Resolved, MakesUserPipe;
  }

  /**
    The only command of a line that is not `<me >me` with a pipe from me to me reads one of its
    client's user pipes exactly when the line consumes one. It writes to the line's new pipe
    exactly when that is a numbered pipe, or a user pipe that is stored while there is no
    `> file`.
    */
  lemma CommandAgrees(s: Server, x: Turn, openOk: bool, junk0: int, junk1: int)
    requires Inv(s) && TypedAt(s, x) && SingleDone(x, openOk, junk0, junk1)
    requires !SelfPipe(x.t, x.u, x.line) && |x.children| > |x.before|
    ensures UsersFormed(x.u) && UsersFormed(x.v) && |x.v.state| == |x.u.state|
    ensures var fds := x.children[|x.before|].fds;
            && STDIN in fds && STDOUT in fds
            && (IsUserPipeTo(x, fds[STDIN]) <==> Consumed(x))
            && (fds[STDOUT] == WriteEnd(x.p0) <==>
                if x.line.crossNum != 0 then Resolved(x.t, x.line) < 0 else Stored(x) && !x.line.redir)
  {
    SelfOnly(x.t, x.u, x.line);
    var stores := MakesUserPipe(AfterInput(x.t, x.u, x.line), x.line);
    UsersAfter(x.t, x.u, x.line, x.v, stores, x.fd0);
    SingleIsFinal(s, x, openOk, junk0, junk1);
    InputMeans(s, x);
    OutputMeans(s, x);
    hide AfterInput, SingleServer, Shed, Inv, TypedAt, Ready, IsUserPipeTo, Source, SinkEnd, SingleCommand;
  }
}
