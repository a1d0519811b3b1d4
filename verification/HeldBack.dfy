/**
  A session of the single-process server in which the reader of a numbered pipe waits for
  another client's command to end.
  */
module HeldBack {
  import Hint
  import opened Kernel
  import opened Ledger
  import opened LedgerEnds
  import opened LedgerLeaks
  import opened LedgerLine
  import opened LedgerRuns
  import opened LedgerWriters
  import opened NpSingle
  import opened Options
  import opened Pipeline
  import opened SlotTable
  import opened Wiring

  /** A command without a pipe number, a file or an id. */
  const PLAIN := Line(1, 0, false, 0, 0)

  /** Clients 1 to `clients` of at most 3 are there, and have typed nothing yet. */
  predicate Arrived(s: Ledger.Server, clients: nat) {
    && Formed(s) && 1 <= clients <= 2 && s.minId == clients + 1 && s.clientNum == clients
    && s.state == [false, true, clients == 2, false] && s.tables[1] == Initial(4)
    && (clients == 2 ==> s.tables[2] == Initial(4)) && s.kinds == [] && s.children == []
  }

  lemma FirstArrives(s: Ledger.Server, fd: int)
    requires Step(Booted(4), LogIn(fd, 4), s)
    ensures Arrived(s, 1) && Room(s)
  {
    assert s.state == [false, true, false, false] && !s.state[3];
    assert Hint.FirstFree([false, true, false, false], 1) == Hint.FirstFree([false, true, false, false], 2) == Some(2);
    assert !Live(s.tables[1], 0);
  }

  lemma SecondArrives(s: Ledger.Server, fd: int, s': Ledger.Server)
    requires Arrived(s, 1) && Step(s, LogIn(fd, 4), s')
    ensures Arrived(s', 2) && Room(s')
  {
    assert s'.state == [false, true, true, false] && !s'.state[3];
    assert Hint.FirstFree(s'.state, 1) == Hint.FirstFree(s'.state, 2) == Hint.FirstFree(s'.state, 3) == Some(3);
    assert !Live(s'.tables[1], 0) && !Live(s'.tables[2], 0);
  }

  /** The three ids: 1 and 2 are in use. */
  predicate TwoOfThree(s: Ledger.Server) {
    Formed(s) && s.state == [false, true, true, false]
  }

  /** A slot free after two lines. */
  ghost predicate Roomy(s: Ledger.Server)
    requires TwoOfThree(s)
  {
    HasRoom(s.tables[1]) && HasRoom(s.tables[2])
  }

  lemma RoomyHasRoom(s: Ledger.Server)
    requires TwoOfThree(s) && Roomy(s)
    ensures Room(s)
  {
    assert !s.state[3];
    hide HasRoom;
  }

  lemma InitialHasRoom()
    ensures HasRoom(Initial(4)) && CountDown(Initial(4)) == Initial(4)
  {
    InitialCounted(4);
    assert !Live(Initial(4), 0);
  }

  /** Client c types a line with one command. */
  ghost predicate Runs(s: Ledger.Server, e: Event, s': Ledger.Server, c: nat, line: Line) {
    Good(s) && Step(s, e, s') && e.RunSingle? && e.x.line == line && e.x.u.me == c
  }

  /** What the line does to the client table. */
  lemma LineLooks(s: Ledger.Server, e: Event, s': Ledger.Server, c: nat)
    requires e.RunSingle? && Runs(s, e, s', c, e.x.line)
    ensures Formed(s) && Formed(s') && s'.state == s.state && c < |s.tables| && s'.tables == s.tables[c := e.x.t']
    ensures Client(s, c) && e.x.t == Counted(s, c) && LineFormed(e.x) && e.x.t' == TableAfterLine(e.x)
    ensures e.x.p0 == |s.kinds| && s'.fds == e.x.fds && s.fds == e.x.entry && e.x.u == UsersOf(s, c)
    ensures s'.children == e.x.children && e.x.before == s.children
  {
    LineEffect(s, e, s');
    AfterIsFormed(s, e.x, false);
    hide Good, Step, FdsAfter, GainedEnds, Gained, InputFds, Counted, TableAfterLine, LineKinds;
  }

  // ---- `ls |1` of client 1 ----

  /** The line makes pipe 0. */
  lemma LsMakes(s: Ledger.Server, e: Event, s': Ledger.Server)
    requires Arrived(s, 2) && Runs(s, e, s', 1, LS_TO_NEXT)
    ensures MakesNumbered(s, e, 1, 0)
  {
    hide Good, SingleDone;
    InitialHasRoom();
    assert AddsNumbered(e.x);
  }

  lemma SecondSlotFree(t: Table, p: Pipe)
    requires t == Initial(4)
    ensures HasRoom(Update(t, p, 1))
  {
    assert !Live(Update(t, p, 1), 1);
  }

  lemma LsLeavesRoom(s: Ledger.Server, e: Event, s': Ledger.Server)
    requires Arrived(s, 2) && Runs(s, e, s', 1, LS_TO_NEXT)
    ensures TwoOfThree(s') && Roomy(s') && s'.tables[2] == Initial(4)
  {
    LineLooks(s, e, s', 1);
    hide Good, Step, HasRoom, CountDown, Update, Ready;
    InitialHasRoom();
    SecondSlotFree(e.x.t, Pipe(e.x.fd1, e.x.fd0));
  }

  /** Its command writes the pipe. */
  lemma LsWrites(s: Ledger.Server, e: Event, s': Ledger.Server)
    requires Arrived(s, 2) && Runs(s, e, s', 1, LS_TO_NEXT)
    ensures |s'.children| == 1 && s'.children[0].client == 1 && s'.children[0].sink == Some(0)
  {
    LineLooks(s, e, s', 1);
    assert SingleDone(e.x, e.openOk, e.junk0, e.junk1);
    hide Good, Step, CountDown, TableAfterLine, Shed, Source, Ready;
    InitialHasRoom();
  }

  // ---- Then a line of client 2 ----

  /** Pipe 0 waits for client 1's next line, and its writer is the only command. */
  ghost predicate Waiting(s: Ledger.Server) {
    && TwoOfThree(s) && HasRoom(s.tables[1]) && s.tables[2] == Initial(4) && LivePipe(s, 1, 0)
    && Lapses(s, BuiltIn(1), 1, 0)
    && |s.children| == 1 && s.children[0].client == 1 && CanWrite(s.children[0], 0)
  }

  lemma MadeIsLive(s: Ledger.Server, e: Event, s': Ledger.Server, c: nat, p: nat)
    requires Good(s) && Good(s') && Step(s, e, s') && MakesNumbered(s, e, c, p)
    ensures LivePipe(s', c, p)
  {
    assert IsLine(e);
    hide Good, Step, MakesNumbered;
    MadeIsInserted(s, e, s', c, p);
    MadeIsNumbered(s, e, s', c, p);
    OpenNumberedIsLive(s', c, p, e.x.fd0);
  }

  lemma LsWaits(s: Ledger.Server, e: Event, s': Ledger.Server)
    requires Arrived(s, 2) && Runs(s, e, s', 1, LS_TO_NEXT) && Good(s')
    ensures Waiting(s')
  {
    LsMakes(s, e, s');
    LsLeavesRoom(s, e, s');
    LsWrites(s, e, s');
    hide Good, Step, MakesNumbered, LivePipe, Lapses, HasRoom;
    NextLineDecides(s, e, s', 1, 0);
    MadeIsLive(s, e, s', 1, 0);
    SinkIsWritten(s, e, s', 0, 0);
  }

  /** Client 2 has nothing to read, and its command inherits pipe 0. */
  lemma OtherInherits(s: Ledger.Server, e: Event, s': Ledger.Server)
    requires Waiting(s) && Runs(s, e, s', 2, PLAIN)
    ensures |s'.children| == 2 && s'.children[0].client == 1 && CanWrite(s'.children[0], 0)
    ensures s'.children[1].client == 2 && CanWrite(s'.children[1], 0)
  {
    LineLooks(s, e, s', 2);
    LineIsTypists(s, e, s');
    LineKeepsCommands(s, e, s');
    assert SingleDone(e.x, e.openOk, e.junk0, e.junk1);
    hide Good, Step, CountDown, TableAfterLine, Shed, Source, Ready, Lapses, LivePipe, SingleServer;
    assert |s'.children| == 2;
    OthersWrite(s, e, s', 1, 0, 1);
  }

  lemma OtherKeepsFds(s: Ledger.Server, e: Event, s': Ledger.Server)
    requires Waiting(s) && Runs(s, e, s', 2, PLAIN)
    ensures s'.fds == s.fds && e.x.t' == Initial(4)
  {
    LineLooks(s, e, s', 2);
    InitialHasRoom();
    assert SingleDone(e.x, e.openOk, e.junk0, e.junk1);
    hide Good, Step, CountDown, HasRoom, Ready, LivePipe, Lapses, SingleCommand, Roomy;
    assert InputFds(e.x.t, e.x.u, e.x.line) == {};
    assert s.fds - {} == s.fds;
  }

  /** Client 1's pipe goes on waiting. */
  lemma OtherLeaves(s: Ledger.Server, e: Event, s': Ledger.Server)
    requires Waiting(s) && Runs(s, e, s', 2, PLAIN)
    ensures TwoOfThree(s') && Roomy(s') && Lapses(s', BuiltIn(1), 1, 0)
  {
    LineLooks(s, e, s', 2);
    OtherKeepsFds(s, e, s');
    InitialHasRoom();
    hide Good, Step, CountDown, HasRoom, TableAfterLine, LivePipe, LineFormed;
    StillLapses(s, s');
  }

  lemma StillLapses(s: Ledger.Server, s': Ledger.Server)
    requires TwoOfThree(s) && TwoOfThree(s') && s'.fds == s.fds && s'.tables[1] == s.tables[1]
    requires Lapses(s, BuiltIn(1), 1, 0)
    ensures Lapses(s', BuiltIn(1), 1, 0)
  {
    hide CountDown;
  }

  // ---- Then client 1's next line ----

  /** The reader is there, and who else can write its pipe. */
  ghost predicate WaitsForOther(s: Ledger.Server) {
    && |s.children| == 3 && Released(s, 0)
    && s.children[0].client == 1 && s.children[1].client == 2 && s.children[2].client == 1
    && HasEnd(s.children[2].fds, STDIN, ReadEnd(0))
    && forall j :: 0 <= j < 3 ==> (CanWrite(s.children[j], 0) <==> j < 2)
  }

  lemma ReaderStarts(s: Ledger.Server, e: Event, s': Ledger.Server)
    requires Lapses(s, BuiltIn(1), 1, 0) && Runs(s, e, s', 1, PLAIN) && |s.children| == 2
    ensures ReadsPipe(s, e, 1, 0)
    ensures |s'.children| == 3 && s'.children[0] == s.children[0] && s'.children[1] == s.children[1]
  {
    LineLooks(s, e, s', 1);
    LineKeepsCommands(s, e, s');
    assert SingleDone(e.x, e.openOk, e.junk0, e.junk1);
    hide Good, Step, TableAfterLine, SingleServer, SingleCommand, Ready;
  }

  lemma ReaderIsHeldBack(s: Ledger.Server, e: Event, s': Ledger.Server)
    requires Lapses(s, BuiltIn(1), 1, 0) && Runs(s, e, s', 1, PLAIN)
    requires |s.children| == 2 && s.children[0].client == 1 && s.children[1].client == 2
    requires CanWrite(s.children[0], 0) && CanWrite(s.children[1], 0)
    ensures WaitsForOther(s')
  {
    ReaderStarts(s, e, s');
    hide Good, Step, ReadsPipe, Released, Lapses, CanWrite;
    ReaderEnds(s, e, s');
  }

  lemma ReaderEnds(s: Ledger.Server, e: Event, s': Ledger.Server)
    requires Good(s) && Step(s, e, s') && ReadsPipe(s, e, 1, 0) && |s.children| == 2 && |s'.children| == 3
    ensures Released(s', 0) && !CanWrite(s'.children[2], 0)
    ensures s'.children[2].client == 1 && HasEnd(s'.children[2].fds, STDIN, ReadEnd(0))
  {
    hide *;
    ReadingReleases(s, e, s', 1, 0);
    ReaderReads(s, e, s', 1, 0);
    ReaderCannotWrite(s, e, s', 1, 0, 2);
    ReadsIt(s'.children[2]);
  }

  lemma ReadsIt(child: Child)
    ensures STDIN in child.fds && child.fds[STDIN] == ReadEnd(0) ==> HasEnd(child.fds, STDIN, ReadEnd(0))
  {
  }

  lemma ReaderCannotWrite(s: Ledger.Server, e: Event, s': Ledger.Server, c: nat, p: nat, j: nat)
    requires Good(s) && Step(s, e, s') && ReadsPipe(s, e, c, p) && |s.children| <= j < |s'.children|
    ensures !CanWrite(s'.children[j], p)
  {
    hide Good, Step, ReadsPipe;
    if CanWrite(s'.children[j], p) {
      var f :| HasEnd(s'.children[j].fds, f, WriteEnd(p));
      WritersAreOlder(s, e, s', c, p, j, f);
    }
  }

  method TwoConnect() returns (server: NpSingle.Server)
    ensures fresh(server) && fresh(server.shell) && fresh(server.shell.me)
    ensures server.Valid() && Arrived(server.Books(), 2)
  {
    server := new NpSingle.Server(4, 4);
    hide Good, Step, Room, Arrived;
    var fd1, e1 := server.Login();
    ghost var s1 := server.Books();
    FirstArrives(s1, fd1);
    ArrivedNum(s1, 1);
    var fd2, e2 := server.Login();
    SecondArrives(s1, fd2, server.Books());
  }

  lemma ArrivedNum(s: Ledger.Server, clients: nat)
    requires Arrived(s, clients)
    ensures s.clientNum == clients && |s.state| == 4 && Client(s, 1) && (clients == 2 ==> Client(s, 2))
  {
  }

  /** A line without `>id` stores no user pipe. */
  lemma NothingSent(s: Ledger.Server, c: nat, line: Line)
    requires Good(s) && Client(s, c) && line.userOut == 0
    ensures UsersFormed(UsersOf(s, c)) && !SelfPipe(Counted(s, c), UsersOf(s, c), line)
  {
    hide Counted;
  }

  /**
    Clients 1 and 2 connect; 1 types `ls |1`, 2 types a command, 1 types `cat`. Then `cat`
    reads the pipe and the server has neither end of it, but besides `ls` the command of
    client 2 can write it; when `ls` has ended, `cat` waits for that command alone.
    */
  method HeldBackSession() returns (server: NpSingle.Server)
    ensures WaitsForOther(server.Books())
    ensures forall j :: 0 <= j < 3 ==> (CanWrite(AfterEnd(server.Books(), 0).children[j], 0) <==> j == 1)
  {
    server := TwoConnect();
    hide Good, Step, Room, Arrived, WaitsForOther, CanWrite, Waiting, Roomy, SelfPipe, Lapses;
    ghost var s2 := server.Books();
    ArrivedNum(s2, 2);
    NothingSent(s2, 1, LS_TO_NEXT);
    ghost var e3 := server.RunSingleLine(1, LS_TO_NEXT, true, 0, 0);
    ghost var s3 := server.Books();
    LsLeavesRoom(s2, e3, s3);
    RoomyHasRoom(s3);
    LsWaits(s2, e3, s3);
    NothingSent(s3, 2, PLAIN);
    ghost var e4 := server.RunSingleLine(2, PLAIN, true, 0, 0);
    ghost var s4 := server.Books();
    OtherInherits(s3, e4, s4);
    OtherLeaves(s3, e4, s4);
    RoomyHasRoom(s4);
    NothingSent(s4, 1, PLAIN);
    ghost var e5 := server.RunSingleLine(1, PLAIN, true, 0, 0);
    ReaderIsHeldBack(s4, e5, server.Books());
    ThenAlone(server.Books());
  }

  lemma ThenAlone(s: Ledger.Server)
    requires WaitsForOther(s)
    ensures forall j :: 0 <= j < 3 ==> (CanWrite(AfterEnd(s, 0).children[j], 0) <==> j == 1)
  {
    hide Released;
    assert forall j :: 1 <= j < 3 ==> AfterEnd(s, 0).children[j] == s.children[j];
  }
}
