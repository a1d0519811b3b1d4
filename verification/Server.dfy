/**
  The single-process server itself: the client table, the id hint and the select loop's
  part for one ready descriptor. Every method does what one step of module LedgerRuns says.
  */
module NpSingle {
  import Hint
  import opened Kernel
  import opened Ledger
  import opened LedgerDeadlines
  import opened LedgerEnds
  import opened LedgerHangUp
  import opened LedgerLeaks
  import opened LedgerLine
  import opened LedgerRuns
  import opened LedgerSelf
  import opened LedgerSession
  import opened LedgerStreams
  import opened Pipeline
  import opened SlotTable
  import opened Wiring

  /** What a ready client sent. */
  datatype Input =
    | Blank
    | EndOfFile             // a first byte 4
    | ExitLine
    | MessageLine           // tell and yell, which check_cmd handles
    | BuiltInLine           // the other built-in commands, which string_split handles
    | Commands(line: Line)

  /** single_cmd ran `<me >me` with a pipe from me to me. */
  ghost predicate SelfLine(s: Ledger.Server, e: Event, s': Ledger.Server) {
    && e.RunSingle? && StartsAt(s, e.x) && SingleDone(e.x, e.openOk, e.junk0, e.junk1)
    && SelfPipe(e.x.t, e.x.u, e.x.line)
    && s' == SingleAfter(s, e.x)
  }

  /** If it did, what the array held was no descriptor to store and did no harm when closed. */
  ghost predicate NoHarm(s: Ledger.Server, e: Event, s': Ledger.Server) {
    SelfLine(s, e, s') ==> e.junk0 < 0 && Harmless(s, e.x, e.junk0, e.junk1)
  }

  class Server {
    const shell: Shell
    const slots: nat
    var state: seq<bool>
    var sockfd: seq<int>
    var userPipe: seq<seq<int>>
    var tables: seq<Table>
    var minId: nat
    var clientNum: int
    var fdIds: map<int, nat>
    ghost var role: map<int, Role>
    ghost var kinds: seq<Kind>
    ghost var freed: set<nat>   // the clients whose snapshot string_split has freed

    ghost function Books(): Ledger.Server
      reads this, shell, shell.me
    {
      Ledger.Server(shell.me.fds, state, sockfd, userPipe, tables, shell.children, minId, clientNum, fdIds, role, kinds)
    }

    ghost predicate Valid()
      reads this, shell, shell.me
    {
      slots > 0 && shell.pipes == |kinds| && Kept(Books())
    }

    constructor (n: nat, slots: nat)
      requires n >= 2 && slots > 0
      ensures fresh(shell) && fresh(shell.me)
      ensures Valid() && Books() == Booted(n) && this.slots == slots && freed == {}
    {
      var me := new Process.Boot(map[STDIN := Console, STDOUT := Console, STDERR := Console, 3 := Listener]);
      shell := new Shell(me);
      this.slots := slots;
      state, sockfd := seq(n, i => false), seq(n, i => -1);
      userPipe, tables := seq(n, i => seq(n, j => -1)), seq(n, i => Initial(1));
      minId, clientNum, fdIds := 1, 0, map[];
      role, kinds := map[STDIN := Std, STDOUT := Std, STDERR := Std, 3 := Listening], [];
      freed := {};
      new;
      BootKept(n);
    }

    /** Looks for the lowest free id; leaves the hint alone when there is none. */
    method Rescan()
      requires |state| >= 1
      modifies this`minId
      ensures minId == match Hint.FirstFree(state, 1) case Some(k) => k case None => old(minId)
    {
      var i := 1;
      while i < |state|
        invariant 1 <= i <= |state| && minId == old(minId)
        invariant Hint.FirstFree(state, 1) == Hint.FirstFree(state, i)
      {
        if !state[i] {
          minId := i;
          return;
        }
        i := i + 1;
      }
    }

    /** update_client_infor, and the counting around it. */
    method Enrol(fd: int, ghost s: Ledger.Server)
      requires Formed(s) && slots > 0 && s.minId < |s.state|
      requires Books() == s.(fds := s.fds[fd := Socket(s.minId)])
      modifies this`sockfd, this`state, this`tables, this`userPipe, this`fdIds, this`minId, this`clientNum, this`role
      ensures Books() == LoggedIn(s, fd, slots)
    {
      var id := minId;
      sockfd, state := sockfd[id := fd], state[id := true];
      tables := tables[id := Initial(slots)];
      userPipe := userPipe[id := seq(|state|, i => -1)];
      fdIds := fdIds[fd := id];
      Rescan();
      clientNum := clientNum + 1;
      role := role[fd := Sock(id)];
    }

    /** A new connection: np_single_proc.c:26-40. */
    method Login() returns (fd: int, ghost e: Event)
      requires Valid() && clientNum < |state| - 1
      modifies this, shell.me
      ensures e == LogIn(fd, slots) && Step(old(Books()), e, Books()) && freed == old(freed)
      ensures Room(Books()) ==> Valid()
    {
      ghost var s := Books();
      assert Good(s) && Formed(s) && s.minId < |s.state|;
      fd := shell.me.Open(Socket(minId));
      e := LogIn(fd, slots);
      Enrol(fd, s);
      hide Kept, LoggedIn, Room;
      if Room(Books()) { StepKeepsKept(s, e, Books()); }
    }

    /** count_down_and_check for the acting client, on a line that runs no command. */
    method Count(c: nat) returns (ghost e: Event)
      requires Valid() && Client(Books(), c)
      modifies this
      ensures e == BuiltIn(c) && Step(old(Books()), e, Books())
      ensures Valid() && Books() == CountedServer(old(Books()), c) && freed == old(freed) - {c}
    {
      ghost var s := Books();
      CountingSteps(s, c);
      hide Kept, CountedServer, CountDown, Step;
      ghost var s' := CountedServer(s, c);
      e := BuiltIn(c);
      tables := tables[c := CountDown(tables[c])];
      role, kinds := s'.role, s'.kinds;
      freed := freed - {c};
      assert Books() == s';
    }

    /** delete_client_infor's loop over ids: close the user pipes to and from client c. */
    method DropUserPipes(c: nat)
      requires Square(userPipe) && c < |state| == |userPipe|
      modifies this`userPipe, shell.me
      ensures shell.me.fds == old(shell.me.fds) - UserPipeFds(old(userPipe), c, |state|)
      ensures userPipe == ColumnCleared(old(userPipe), c, |state|)[c := seq(|state|, i => -1)]
    {
      ghost var fds, m := shell.me.fds, userPipe;
      var i := 1;
      while i < |state|
        invariant 1 <= i <= |state| == |m|
        invariant userPipe == ColumnCleared(m, c, i)
        invariant shell.me.fds == fds - UserPipeFds(m, c, i)
      {
        DropUserPipe(fds, m, c, i);
        i := i + 1;
      }
      userPipe := userPipe[c := seq(|state|, i => -1)];
    }

    /** One id of the loop. */
    method DropUserPipe(ghost fds: Fds, ghost m: seq<seq<int>>, c: nat, i: nat)
      requires Square(m) && 1 <= i < |m| && c < |m|
      requires userPipe == ColumnCleared(m, c, i) && shell.me.fds == fds - UserPipeFds(m, c, i)
      modifies this`userPipe, shell.me
      ensures userPipe == ColumnCleared(m, c, i + 1) && shell.me.fds == fds - UserPipeFds(m, c, i + 1)
    {
      assert userPipe[i][c] == m[i][c] && userPipe[c][i] == m[c][i];
      if userPipe[c][i] >= 0 { shell.me.Close(userPipe[c][i]); }
      if userPipe[i][c] >= 0 {
        shell.me.Close(userPipe[i][c]);
        userPipe := userPipe[i := userPipe[i][c := -1]];
      }
    }

    /** Closes what the server holds for client c: its socket, its numbered pipes, its user pipes. */
    method CloseAll(c: nat)
      requires Formed(Books()) && Client(Books(), c) && RecordInRange(tables[c])
      modifies this`userPipe, shell.me
      ensures shell.me.fds == old(shell.me.fds) - LeaverFds(old(Books()), c)
      ensures userPipe == ColumnCleared(old(userPipe), c, |state|)[c := seq(|state|, i => -1)]
    {
      ghost var fds, m := shell.me.fds, userPipe;
      shell.me.Close(sockfd[c]);
      CloseCrossPipeFd(shell.me, tables[c], -1);
      DropUserPipes(c);
      MinusThree(fds, {sockfd[c]}, RecordedFds(tables[c], -1, |tables[c].record|), UserPipeFds(m, c, |state|));
    }

    /** The entries of the client table that a client leaves behind. */
    method Forget(c: nat, ghost s: Ledger.Server)
      requires Formed(s) && Client(s, c) && RecordInRange(s.tables[c]) && s.sockfd[c] in s.fdIds
               && s.fdIds[s.sockfd[c]] == c
      requires Books() == s.(fds := s.fds - LeaverFds(s, c),
                             userPipe := ColumnCleared(s.userPipe, c, |s.state|)[c := seq(|s.state|, i => -1)])
      modifies this`sockfd, this`state, this`minId, this`fdIds, this`clientNum, this`role
      ensures Books() == LoggedOut(s, c)
    {
      hide LeaverFds, ColumnCleared;
      var fd := sockfd[c];
      sockfd, state := sockfd[c := -1], state[c := false];
      if fdIds[fd] < minId { minId := fdIds[fd]; }
      fdIds := fdIds - {fd};
      clientNum := clientNum - 1;
      role := role - LeaverFds(s, c);
    }

    /**
      A client that leaves: np_single_proc.c:49-61, 248-272. What is closed goes by the
      snapshot, which string_split may have freed; then C leaves undefined what happens.
      */
    method Drop(c: nat)
      requires Valid() && Client(Books(), c) && c !in freed
      modifies this, shell.me
      ensures RecordInRange(old(tables[c])) && Books() == LoggedOut(old(Books()), c) && freed == old(freed)
      ensures Snapshot(old(tables[c])) ==> Valid()
    {
      ghost var s := Books();
      DropFacts(s, c);
      if Snapshot(tables[c]) { LogOutKept(s, c); }
      hide Kept, Snapshot, LeaverFds, ColumnCleared, LoggedOut;
      CloseAll(c);
      Forget(c, s);
    }

    /** `exit`: the line is counted, then the client is dropped. */
    method Exit(c: nat) returns (ghost e: Event)
      requires Valid() && Client(Books(), c)
      modifies this, shell.me
      ensures e == LogOut(c) && Step(old(Books()), e, Books()) && Valid() && freed == old(freed) - {c}
    {
      ghost var counted := Count(c);
      assert Snapshot(tables[c]) by { CountedSnapshot(old(Books()), c); }
      Drop(c);
      e := LogOut(c);
    }

    /** Keeps what the line left in the client table, and books it. */
    method Keep(c: nat, t': Table, v: Users, ghost s: Ledger.Server, ghost x: Turn, ghost pipeline: bool)
      requires LineFormed(x) && (pipeline ==> x.line.stages >= 1) && c == x.u.me < |s.tables| && t' == x.t' && v == x.v
      requires Books() == s.(fds := x.fds, children := x.children)
      modifies this`tables, this`userPipe, this`role, this`kinds
      ensures Books() == ServerAfter(s, x, pipeline)
    {
      tables := tables[c := t'];
      userPipe := v.userPipe;
      role := (s.role - InputFds(x.t, x.u, x.line)) + Gained(x, pipeline);
      kinds := s.kinds + LineKinds(x, pipeline);
    }

    /** Keeps and books what single_cmd left; `<me >me` may have closed a descriptor. */
    method KeepSingle(c: nat, t': Table, v: Users, fd1: int, ghost s: Ledger.Server, ghost x: Turn)
      requires LineFormed(x) && c == x.u.me < |s.tables| && t' == x.t' && v == x.v && fd1 == x.fd1
      requires Books() == s.(fds := x.fds, children := x.children)
      modifies this`tables, this`userPipe, this`role, this`kinds
      ensures Books() == SingleAfter(s, x)
    {
      hide ServerAfter;
      Keep(c, t', v, s, x, false);
      if SelfPipe(x.t, x.u, x.line) { role := role - {fd1}; }
    }

    /** single_cmd on the counted table of client c. */
    method WireSingle(c: nat, line: Line, openOk: bool, junk0: int, junk1: int)
      returns (t': Table, v: Users, fd1: int, ghost x: Turn)
      requires Valid() && Client(Books(), c)
      modifies shell`pipes, shell`children, shell.me
      ensures StartsAt(old(Books()), x) && SingleDone(x, openOk, junk0, junk1)
      ensures x.u.me == c && x.line == line && x.t' == t' && x.v == v && x.fd1 == fd1 && x.pipes == shell.pipes
      ensures Books() == old(Books()).(fds := x.fds, children := x.children)
    {
      ghost var s := Books();
      assert Good(s) && |s.kinds| == shell.pipes;
      LineStarts(s, c, line);
      hide Kept, Good, SingleDone, CountDown;
      var t, u := CountDown(tables[c]), Users(c, sockfd[c], state, userPipe);
      var fd0;
      t', v, fd0, fd1 := shell.SingleCmd(t, u, line, openOk, junk0, junk1);
      x := Turn(s.fds, shell.me.fds, |s.kinds|, shell.pipes, s.children, shell.children, t, t', u, v, line, fd0,
                fd1, -1);
    }

    /**
      A line that single_cmd handles. `junk0` and `junk1` are what its array `fd` happens to
      hold; they matter for `<me >me` with a pipe from me to me only.
      */
    method RunSingleLine(c: nat, line: Line, openOk: bool, junk0: int, junk1: int) returns (ghost e: Event)
      requires Valid() && Client(Books(), c)
      modifies this, shell`pipes, shell`children, shell.me
      ensures e.RunSingle? && e.x.line == line && e.x.u.me == c && e.openOk == openOk
      ensures e.junk0 == junk0 && e.junk1 == junk1
      ensures Step(old(Books()), e, Books()) || SelfLine(old(Books()), e, Books())
      ensures SelfPipe(Ledger.Counted(old(Books()), c), UsersOf(old(Books()), c), line) <==>
                SelfLine(old(Books()), e, Books())
      ensures Room(Books()) && NoHarm(old(Books()), e, Books()) ==> Valid()
      ensures freed == old(freed)
    {
      hide Kept, LineFormed, Room, SingleAfter, SingleDone, CountDown, SelfPipe, Harmless, NoHarm, Step, SelfLine,
        StartsAt;
      ghost var s := Books();
      var t', v, fd1;
      ghost var x;
      t', v, fd1, x := WireSingle(c, line, openOk, junk0, junk1);
      e := RunSingle(x, openOk, junk0, junk1);
      SingleSteps(s, x, openOk, junk0, junk1);
      KeepSingle(c, t', v, fd1, s, x);
      if Room(Books()) && NoHarm(s, e, Books()) { SingleStaysKept(s, x, openOk, junk0, junk1); }
    }

    /** A line that ordinary_pipe handles; when its file cannot be opened it is only counted. */
    method RunPipelineLine(c: nat, line: Line, openOk: bool) returns (ghost e: Event)
      requires Valid() && Client(Books(), c) && line.stages >= 2
      modifies this, shell`pipes, shell`children, shell.me
      ensures line.redir && !openOk ==> e == BuiltIn(c)
      ensures !line.redir || openOk ==> e.RunPipeline? && e.x.line == line && e.x.u.me == c
      ensures Step(old(Books()), e, Books())
      ensures Room(Books()) ==> Valid()
      ensures freed - {c} == old(freed) - {c}
    {
      if line.redir && !openOk {
        e := Count(c);
      } else {
        e := RunOpened(c, line);
      }
    }

    method RunOpened(c: nat, line: Line) returns (ghost e: Event)
      requires Valid() && Client(Books(), c) && line.stages >= 2
      modifies this, shell`pipes, shell`children, shell.me
      ensures e.RunPipeline? && e.x.line == line && e.x.u.me == c && Step(old(Books()), e, Books())
      ensures Room(Books()) ==> Valid()
      ensures freed == old(freed)
    {
      hide Kept, Room, ServerAfter, PipelineDone, Step, StartsAt;
      ghost var s := Books();
      var t', v;
      ghost var x;
      t', v, x := WirePipeline(c, line);
      e := RunPipeline(x);
      PipelineSteps(s, x);
      PipelinePipes(s, x);
      Keep(c, t', v, s, x, true);
      if Room(Books()) { StepKeepsKept(s, e, Books()); }
    }

    /** ordinary_pipe on the counted table of client c. */
    method WirePipeline(c: nat, line: Line) returns (t': Table, v: Users, ghost x: Turn)
      requires Valid() && Client(Books(), c) && line.stages >= 2
      modifies shell`pipes, shell`children, shell.me
      ensures StartsAt(old(Books()), x) && PipelineDone(x)
      ensures x.u.me == c && x.line == line && x.t' == t' && x.v == v && x.pipes == shell.pipes
      ensures Books() == old(Books()).(fds := x.fds, children := x.children)
    {
      ghost var s := Books();
      assert Good(s) && |s.kinds| == shell.pipes;
      LineStarts(s, c, line);
      assert Formed(s);
      hide Kept, Good, PipelineDone, CountDown, Ready;
      var t, u := CountDown(tables[c]), Users(c, sockfd[c], state, userPipe);
      var fd0, fd1, fdRedir;
      t', v, fd0, fd1, fdRedir := shell.OrdinaryPipe(t, u, line, true);
      x := Turn(s.fds, shell.me.fds, |s.kinds|, shell.pipes, s.children, shell.children, t, t', u, v,
                line, fd0, fd1, fdRedir);
    }

    /** A line of external commands. */
    method RunCommands(c: nat, line: Line, openOk: bool, junk0: int, junk1: int) returns (ghost e: Event)
      requires Valid() && Client(Books(), c) && line.stages >= 1
      modifies this, shell`pipes, shell`children, shell.me
      ensures Does(e, c, Commands(line), openOk)
      ensures Step(old(Books()), e, Books()) || SelfLine(old(Books()), e, Books())
      ensures Room(Books()) && NoHarm(old(Books()), e, Books()) ==> Valid()
    {
      hide Kept, Room, NoHarm, SelfLine, Step, SelfPipe;
      if line.stages >= 2 {
        e := RunPipelineLine(c, line, openOk);
      } else {
        e := RunSingleLine(c, line, openOk, junk0, junk1);
      }
    }

    /** A line that is counted. */
    method Obey(c: nat, input: Input, openOk: bool, junk0: int, junk1: int) returns (ghost e: Event)
      requires Valid() && Client(Books(), c) && !input.Blank? && !input.EndOfFile?
      requires input.Commands? ==> input.line.stages >= 1
      modifies this, shell`pipes, shell`children, shell.me
      ensures Does(e, c, input, openOk) && (Step(old(Books()), e, Books()) || SelfLine(old(Books()), e, Books()))
      ensures Room(Books()) && NoHarm(old(Books()), e, Books()) ==> Valid()
    {
      hide Kept, Room, NoHarm, SelfLine, Step;
      if input.ExitLine? {
        e := Exit(c);
      } else if input.Commands? {
        e := RunCommands(c, input.line, openOk, junk0, junk1);
      } else {
        e := Count(c);
      }
    }

    /**
      A ready descriptor of a client: run_shell and what the select loop does after it. The
      client served is the one whose connection the descriptor is. When it hangs up, the
      snapshot that the code looks at must not be one that string_split has freed.
      */
    method Serve(fd: int, input: Input, openOk: bool, junk0: int, junk1: int) returns (c: nat, ghost e: Event)
      requires Valid() && fd in fdIds
      requires input.Commands? ==> input.line.stages >= 1
      requires input.EndOfFile? ==> fdIds[fd] !in freed
      modifies this, shell`pipes, shell`children, shell.me
      ensures c == old(fdIds[fd]) && Client(old(Books()), c) && fd in old(shell.me.fds)
              && old(shell.me.fds)[fd] == Socket(c)
      ensures input.Blank? ==> Books() == old(Books()) && Valid()
      ensures input.EndOfFile? ==>
                && RecordInRange(old(tables[c])) && Books() == LoggedOut(old(Books()), c)
                && (Snapshot(old(tables[c])) ==> Valid())
      ensures !input.Blank? && !input.EndOfFile? ==>
                && Does(e, c, input, openOk) && (Step(old(Books()), e, Books()) || SelfLine(old(Books()), e, Books()))
                && (Room(Books()) && NoHarm(old(Books()), e, Books()) ==> Valid())
      ensures Outcome(old(Books()), Books(), c, fd, input, openOk)
      ensures freed == FreedAfter(old(freed), input, c, CountDown(old(tables[c])))
    {
      ghost var s := Books();
      assert Good(s);
      c := fdIds[fd];
      SocketOf(Books(), fd);
      e := BuiltIn(c);
      ghost var next := FreedAfter(freed, input, c, CountDown(tables[c]));
      hide CountDown, Kept, Good, Room, NoHarm, SelfLine, Step, Snapshot, LoggedOut, Does, HasLeft;
      if input.EndOfFile? {
        Drop(c);
        LogOutLeaves(s, c, fd);
      } else if !input.Blank? {
        e := Obey(c, input, openOk, junk0, junk1);
        hide Outcome;
        OutcomeIs(s, e, Books(), c, fd, input, openOk);
      }
      freed := next;
    }
  }

  /** Every counted line takes a new snapshot; string_split frees one that is not empty. */
  ghost function FreedAfter(freed: set<nat>, input: Input, c: nat, counted: Table): set<nat> {
    match input
    case Blank => freed
    case EndOfFile => freed
    case ExitLine => freed - {c}
    case MessageLine => freed - {c}
    case _ => if counted.record == [] then freed - {c} else freed + {c}
  }

  /**
    After line now + 1 the snapshot of its client is freed memory if and only if string_split
    handled the line and a pipe of the client waits for a later line.
    */
  lemma FreedExactly(freed: set<nat>, input: Input, c: nat, t: Table, now: int)
    requires Ok(t)
    ensures var freed' := FreedAfter(freed, input, c, CountDown(t));
            && (forall d :: d != c ==> (d in freed' <==> d in freed))
            && (c in freed' <==>
                if input.Blank? || input.EndOfFile? then c in freed
                else (input.BuiltInLine? || input.Commands?) && exists d :: d in View(t, now) && d > now + 1)
  {
    var t' := CountDown(t);
    CountDownRefines(t, now);
    ViewIsAhead(t', now + 1);
    if t'.record != [] {
      var i := t'.record[0];
      LiveInView(t'.list, now + 1, |t'.list|, i);
      assert now + 1 + t'.list[i].count in View(t, now);
    }
    if d :| d in View(t, now) && d > now + 1 {
      assert d in View(t', now + 1);
      var i := SlotBehind(t'.list, now + 1, |t'.list|, d);
      assert Live(t', i) && i in t'.record;
    }
  }

  /** The event that a line amounts to. */
  ghost predicate Does(e: Event, c: nat, input: Input, openOk: bool) {
    match input
    case Blank => true
    case EndOfFile => true
    case ExitLine => e == LogOut(c)
    case MessageLine => e == BuiltIn(c)
    case BuiltInLine => e == BuiltIn(c)
    case Commands(line) =>
      if line.stages < 2 then e.RunSingle? && e.x.line == line && e.x.u.me == c && e.openOk == openOk
      else if line.redir && !openOk then e == BuiltIn(c)
      else e.RunPipeline? && e.x.line == line && e.x.u.me == c
  }

  // ---- What becomes of the clients ----

  /** Client c has left: its id and its connection are given back, and everybody else is still there. */
  ghost predicate HasLeft(s: Ledger.Server, s': Ledger.Server, c: nat, fd: int) {
    && |s'.state| == |s.state| && Client(s, c) && !Client(s', c)
    && (forall d :: d != c ==> (Client(s', d) <==> Client(s, d)))
    && fd in s.fdIds && s'.fdIds == s.fdIds - {fd} && fd in s.fds && fd !in s'.fds && s'.clientNum == s.clientNum - 1
  }

  /** Nobody has come or left. */
  predicate SameClients(s: Ledger.Server, s': Ledger.Server) {
    && s'.state == s.state && s'.sockfd == s.sockfd && s'.fdIds == s.fdIds
    && s'.clientNum == s.clientNum && s'.minId == s.minId
  }

  /** The commands that client c's line started have on their standard descriptors what the line says. */
  ghost predicate AsTyped(s: Ledger.Server, s': Ledger.Server, c: nat, line: Line)
    requires Formed(s) && Client(s, c) && |s.children| < |s'.children|
  {
    && ReadsAsTyped(s, s', c, line)
    && (if line.crossNum == 0 then WritesAsTyped(s, s', c, line, line.stages >= 2)
        else exists p :: Waits(s', c, 0, Abs(line.crossNum), p) && LastWritesTo(s', c, line.crossNum, p))
  }

  /** A line of commands: nobody leaves, and exactly its commands are started. */
  ghost predicate HasRun(s: Ledger.Server, s': Ledger.Server, c: nat, line: Line, openOk: bool) {
    && SameClients(s, s')
    && Started(s, s', c, if line.stages >= 2 && line.redir && !openOk then 0
               else Starts(line, line.stages >= 2, openOk))
    && (Formed(s) && Client(s, c) && |s.children| < |s'.children| && Good(s')
        && !SelfPipe(Ledger.Counted(s, c), UsersOf(s, c), line) ==>
          AsTyped(s, s', c, line))
  }

  /** What a line of client c does to the server; fd is the client's connection. */
  ghost predicate Outcome(s: Ledger.Server, s': Ledger.Server, c: nat, fd: int, input: Input, openOk: bool) {
    match input
    case Blank => s' == s
    case EndOfFile => HasLeft(s, s', c, fd)
    case ExitLine => HasLeft(s, s', c, fd)
    case MessageLine => SameClients(s, s') && s'.fds == s.fds && s'.children == s.children
    case BuiltInLine => SameClients(s, s') && s'.fds == s.fds && s'.children == s.children
    case Commands(line) => HasRun(s, s', c, line, openOk)
  }

  lemma LogOutLeaves(s: Ledger.Server, c: nat, fd: int)
    requires Good(s) && fd in s.fdIds && s.fdIds[fd] == c && RecordInRange(s.tables[c])
    ensures HasLeft(s, LoggedOut(s, c), c, fd)
  {
    SocketOf(s, fd);
    assert fd in LeaverFds(s, c);
    hide Inv, ColumnCleared;
    assert forall d :: d != c ==> (Client(LoggedOut(s, c), d) <==> Client(s, d));
  }

  lemma CountingStays(s: Ledger.Server, c: nat)
    requires Formed(s) && Client(s, c)
    ensures var s' := CountedServer(s, c); SameClients(s, s') && s'.fds == s.fds && s'.children == s.children
  {
    hide Ledger.Counted;
  }

  lemma ExitLeaves(s: Ledger.Server, s': Ledger.Server, c: nat, fd: int)
    requires Good(s) && Step(s, LogOut(c), s') && fd in s.fdIds && s.fdIds[fd] == c
    ensures HasLeft(s, s', c, fd)
  {
    SocketOf(s, fd);
    BuiltInGood(s, c);
    CountingStays(s, c);
    hide Good, LeaverFds, CountedServer, LoggedOut, Snapshot;
    LogOutLeaves(CountedServer(s, c), c, fd);
  }

  lemma LineStays(s: Ledger.Server, e: Event, s': Ledger.Server)
    requires Good(s) && Step(s, e, s') && IsLine(e)
    ensures SameClients(s, s')
  {
    LineEffect(s, e, s');
    hide Good, Step, Effect, LineKinds, Gained, InputFds;
  }

  lemma LineAsTyped(s: Ledger.Server, e: Event, s': Ledger.Server, c: nat)
    requires Types(s, e, s', c) && Good(s') && (e.RunPipeline? <==> e.x.line.stages >= 2)
    ensures Formed(s) && Client(s, c) && AsTyped(s, s', c, e.x.line)
  {
    hide Good, Step, ReadsAsTyped, WritesAsTyped, Waits, LastWritesTo;
    FirstReads(s, e, s', c);
    if e.x.line.crossNum == 0 {
      LastWrites(s, e, s', c);
    } else {
      var p := NumberedWrites(s, e, s', c, -1);
      LastIs(s', c, e.x.line.crossNum, p);
    }
  }

  lemma LastIs(s': Ledger.Server, c: nat, crossNum: int, p: nat)
    requires |s'.children| > 0
    ensures var last := s'.children[|s'.children| - 1];
            && last.client == c && HasEnd(last.fds, STDOUT, WriteEnd(p))
            && HasEnd(last.fds, STDERR, if crossNum < 0 then WriteEnd(p) else Socket(c)) ==>
                LastWritesTo(s', c, crossNum, p)
  {
  }

  lemma LineHasRun(s: Ledger.Server, e: Event, s': Ledger.Server, c: nat, openOk: bool)
    requires Good(s) && Step(s, e, s') && IsLine(e) && e.x.u.me == c && (e.RunPipeline? <==> e.x.line.stages >= 2)
    requires if e.RunPipeline? then openOk || !e.x.line.redir else e.openOk == openOk
    ensures HasRun(s, s', c, e.x.line, openOk)
  {
    hide Good, Step, AsTyped, Started, SameClients;
    LineStays(s, e, s');
    StartsExactly(s, e, s');
    if |s.children| < |s'.children| && Good(s') { LineAsTyped(s, e, s', c); }
  }

  /** The line that stores and closes what the array held. */
  lemma SelfHasRun(s: Ledger.Server, e: Event, s': Ledger.Server, c: nat)
    requires Good(s) && SelfLine(s, e, s') && e.x.u.me == c && e.x.line.stages < 2
    ensures HasRun(s, s', c, e.x.line, e.openOk)
  {
    var x := e.x;
    assert s'.children == x.children && s.children == x.before;
    assert forall i :: 0 <= i < |s.children| ==> x.children[i] == x.before[i];
    hide Good, SelfPipe, SingleServer, Ready, AsTyped, TableAfterLine, Gained, LineKinds;
  }

  lemma OutcomeIs(s: Ledger.Server, e: Event, s': Ledger.Server, c: nat, fd: int, input: Input, openOk: bool)
    requires Good(s) && fd in s.fdIds && s.fdIds[fd] == c && !input.Blank? && !input.EndOfFile?
    requires Does(e, c, input, openOk) && (Step(s, e, s') || SelfLine(s, e, s'))
    ensures Outcome(s, s', c, fd, input, openOk)
  {
    hide Good, Step, SelfLine, HasLeft, SameClients, HasRun;
    SocketOf(s, fd);
    SelfIsSingle(s, e, s');
    match input {
      case ExitLine => ExitLeaves(s, s', c, fd);
      case Commands(line) =>
        if e.BuiltIn? {
          BuiltInHasRun(s, s', c, line);
        } else if Step(s, e, s') {
          LineHasRun(s, e, s', c, openOk);
        } else {
          SelfHasRun(s, e, s', c);
        }
      case _ => BuiltInStays(s, s', c);
    }
  }

  lemma SelfIsSingle(s: Ledger.Server, e: Event, s': Ledger.Server)
    ensures SelfLine(s, e, s') ==> e.RunSingle?
  {
  }

  lemma BuiltInStays(s: Ledger.Server, s': Ledger.Server, c: nat)
    requires Step(s, BuiltIn(c), s')
    ensures SameClients(s, s') && s'.fds == s.fds && s'.children == s.children
  {
    CountingStays(s, c);
    hide CountedServer;
  }

  lemma BuiltInHasRun(s: Ledger.Server, s': Ledger.Server, c: nat, line: Line)
    requires Step(s, BuiltIn(c), s') && line.stages >= 2 && line.redir
    ensures HasRun(s, s', c, line, false)
  {
    BuiltInStays(s, s', c);
    hide Step, AsTyped;
  }

  // ---- A pipe that runs out on a built-in line ----

  /** Client 1 is the only one, and has typed nothing yet. */
  predicate Fresh(s: Ledger.Server) {
    Formed(s) && s.state == [false, true, false] && s.tables[1] == Initial(4) && s.kinds == []
  }

  lemma FirstLoginHasRoom(fd: int)
    requires fd > 2 && fd !in Booted(3).fds
    ensures Room(LoggedIn(Booted(3), fd, 4))
    ensures Fresh(LoggedIn(Booted(3), fd, 4))
  {
    var s := LoggedIn(Booted(3), fd, 4);
    assert s.state == [false, true, false] && !s.state[2];
    assert !Live(s.tables[1], 0);
  }

  const LS_TO_NEXT := Line(1, 1, false, 0, 0)

  /** `ls |1` as the first line makes pipe 0 and leaves room. */
  lemma FirstLine(s: Ledger.Server, e: Event, s': Ledger.Server)
    requires Good(s) && Step(s, e, s') && e.RunSingle? && e.x.line == LS_TO_NEXT && e.x.u.me == 1
    requires Fresh(s)
    ensures MakesNumbered(s, e, 1, 0) && Room(s') && Client(s', 1)
  {
    var x := e.x;
    InitialCounted(4);
    assert x.t == Initial(4);
    assert AddsNumbered(x);
    assert s'.state == s.state && !s'.state[2];
    assert !Live(x.t', 1);
    hide Good, FdsAfter, Ready;
  }

  /**
    The failing input: one client connects, types `ls |1` and then a built-in command. Pipe 0
    is left open at both ends, in no slot of any client.
    */
  method LapsingSession() returns (server: Server, ghost r: int, ghost w: int)
    ensures r in server.shell.me.fds && w in server.shell.me.fds
    ensures server.shell.me.fds[r] == ReadEnd(0) && server.shell.me.fds[w] == WriteEnd(0)
    ensures Unlisted(server.Books(), r) && Unlisted(server.Books(), w)
  {
    server := new Server(3, 4);
    hide Good, Step, Room, LoggedIn, Fresh, Unlisted, Booted, CountedServer, Initial;
    var fd, e0 := server.Login();
    FirstLoginHasRoom(fd);
    ghost var s1 := server.Books();
    FreshHasClient(s1);
    ghost var e1 := server.RunSingleLine(1, LS_TO_NEXT, true, 0, 0);
    ghost var s2 := server.Books();
    FirstLine(s1, e1, s2);
    ghost var e2 := server.Count(1);
    r, w := ThenLapses(s1, e1, s2, server.Books());
  }

  lemma FreshHasClient(s: Ledger.Server)
    requires Fresh(s)
    ensures Client(s, 1) && !SelfPipe(Ledger.Counted(s, 1), UsersOf(s, 1), LS_TO_NEXT)
  {
  }

  lemma ThenLapses(s: Ledger.Server, e: Event, s': Ledger.Server, s'': Ledger.Server) returns (r: int, w: int)
    requires Good(s) && Good(s') && Good(s'') && Step(s, e, s') && Step(s', BuiltIn(1), s'')
    requires MakesNumbered(s, e, 1, 0) && e.x.line == LS_TO_NEXT
    ensures Unlisted(s'', r) && s''.fds[r] == ReadEnd(0) && Unlisted(s'', w) && s''.fds[w] == WriteEnd(0)
  {
    NextLineDecides(s, e, s', 1, 0);
    LapsingLeaves(s', BuiltIn(1), s'', 1, 0);
    hide *;
    r, w :| Unlisted(s'', r) && s''.fds[r] == ReadEnd(0) && Unlisted(s'', w) && s''.fds[w] == WriteEnd(0);
  }

  /**
    Another one: the client types `ls |1` and hangs up. It is gone, and pipe 0 is left open at
    both ends.
    */
  method HangUpSession() returns (server: Server, ghost r: int, ghost w: int)
    ensures !Client(server.Books(), 1) && server.fdIds == map[]
    ensures r in server.shell.me.fds && w in server.shell.me.fds
    ensures server.shell.me.fds[r] == ReadEnd(0) && server.shell.me.fds[w] == WriteEnd(0)
    ensures Unlisted(server.Books(), r) && Unlisted(server.Books(), w)
  {
    var fd;
    ghost var s1, e1;
    server, fd, s1, e1 := AfterLs();
    r, w := ThenHangsUp(s1, e1, server.Books());
    hide Good, Kept, Step, Unlisted, LeaverFds, Snapshot, MakesNumbered;
    var d, e2 := server.Serve(fd, EndOfFile, true, 0, 0);
  }

  /** One client connects. */
  method OneConnects() returns (server: Server, fd: int)
    ensures fresh(server) && fresh(server.shell) && fresh(server.shell.me)
    ensures server.Valid() && server.freed == {} && Fresh(server.Books()) && server.fdIds == map[fd := 1]
    ensures Ledger.Counted(server.Books(), 1).record == []
  {
    server := new Server(3, 4);
    hide Kept, Room, LoggedIn, Fresh, Booted, Initial;
    ghost var e;
    fd, e := server.Login();
    FirstLoginHasRoom(fd);
    FreshListed(fd);
  }

  /** And types `ls |1`. */
  method AfterLs() returns (server: Server, fd: int, ghost s: Ledger.Server, ghost e: Event)
    ensures fresh(server) && fresh(server.shell) && fresh(server.shell.me)
    ensures server.Valid() && server.freed == {} && server.fdIds == map[fd := 1] && Client(server.Books(), 1)
    ensures Good(s) && Step(s, e, server.Books()) && MakesNumbered(s, e, 1, 0)
  {
    server, fd := OneConnects();
    s := server.Books();
    FreshHasClient(s);
    assert Good(s);
    hide Good, Kept, Step, Room, Fresh, SelfLine, SelfPipe, LoggedOut, Snapshot, MakesNumbered;
    var c;
    c, e := server.Serve(fd, Commands(LS_TO_NEXT), true, 0, 0);
    NoSelfLine(s, e, server.Books());
    FirstLine(s, e, server.Books());
  }

  lemma FreshListed(fd: int)
    requires fd > 2 && fd !in Booted(3).fds
    ensures LoggedIn(Booted(3), fd, 4).fdIds == map[fd := 1]
    ensures Ledger.Counted(LoggedIn(Booted(3), fd, 4), 1).record == []
  {
    InitialCounted(4);
  }

  lemma NoSelfLine(s: Ledger.Server, e: Event, s': Ledger.Server)
    requires Fresh(s) && e.RunSingle? && e.x.u.me == 1 && e.x.line == LS_TO_NEXT
    requires Step(s, e, s') || SelfLine(s, e, s')
    ensures Step(s, e, s') && !SelfLine(s, e, s')
    ensures s'.fdIds == s.fdIds
  {
    FreshHasClient(s);
    hide SingleDone;
  }

  lemma ThenHangsUp(s: Ledger.Server, e: Event, s': Ledger.Server) returns (r: int, w: int)
    requires Kept(s') && Good(s) && Step(s, e, s') && MakesNumbered(s, e, 1, 0) && Client(s', 1)
    ensures Formed(s') && RecordInRange(s'.tables[1])
    ensures var t := LoggedOut(s', 1);
            && Unlisted(t, r) && t.fds[r] == ReadEnd(0) && Unlisted(t, w) && t.fds[w] == WriteEnd(0)
  {
    assert IsLine(e);
    LineEffect(s, e, s');
    GoodIsInv(s);
    GoodIsInv(s');
    MadeIsInserted(s, e, s', 1, 0);
    r, w := e.x.fd0, e.x.fd1;
    hide Good, Step, Inv, Unlisted, FdsAfter, LineKinds, Gained, InputFds, LeaverFds;
    LineMisses(s, e.x);
    MissedIs(s', 1, PipeOf(e.x), r);
    MissedIs(s', 1, PipeOf(e.x), w);
    MissedIsUnlisted(s', 1, r);
    MissedIsUnlisted(s', 1, w);
  }

  lemma SocketOf(s: Ledger.Server, fd: int)
    requires Good(s) && fd in s.fdIds
    ensures Client(s, s.fdIds[fd]) && fd in s.fds && s.fds[fd] == Socket(s.fdIds[fd])
  {
    assert ClientOwns(s, s.fdIds[fd]) && RoleOk(s, fd);
  }

  lemma LineStarts(s: Ledger.Server, c: nat, line: Line)
    requires Good(s) && Client(s, c)
    ensures Ready(s.fds, Ledger.Counted(s, c), UsersOf(s, c), line)
    ensures UsersFormed(UsersOf(s, c)) && RecordInRange(Ledger.Counted(s, c))
    ensures -1 <= Ledger.Counted(s, c).outputPoint < |Ledger.Counted(s, c).list|
            && Ledger.Counted(s, c).minInput < |Ledger.Counted(s, c).list|
  {
    LineReady(s, c, line);
    CountedApart(s, c);
    hide Good, Ready, CountDown;
  }

  lemma SinglePipes(s: Ledger.Server, x: Turn, openOk: bool, junk0: int, junk1: int)
    requires Kept(s) && StartsAt(s, x) && SingleDone(x, openOk, junk0, junk1)
    ensures x.pipes == |ServerAfter(s, x, false).kinds|
  {
    if SelfPipe(x.t, x.u, x.line) {
      SelfIsMine(x);
    } else {
      LineHint(s, x);
      SingleEffect(s, x, openOk, junk0, junk1);
    }
    hide SingleDone, Good, Effect, FdsAfter;
  }

  /** What single_cmd does is a step, or the line that stores and closes what the array held. */
  lemma SingleSteps(s: Ledger.Server, x: Turn, openOk: bool, junk0: int, junk1: int)
    requires Kept(s) && StartsAt(s, x) && SingleDone(x, openOk, junk0, junk1)
    ensures LineFormed(x) && Client(s, x.u.me) && x.u.me < |s.tables| && x.pipes == |SingleAfter(s, x).kinds|
    ensures var e, s' := RunSingle(x, openOk, junk0, junk1), SingleAfter(s, x);
            && (Step(s, e, s') || SelfLine(s, e, s'))
            && (SelfPipe(Ledger.Counted(s, x.u.me), UsersOf(s, x.u.me), x.line) <==> SelfLine(s, e, s'))
  {
    SinglePipes(s, x, openOk, junk0, junk1);
    hide SingleDone, ServerAfter, Kept;
  }

  lemma SingleStaysKept(s: Ledger.Server, x: Turn, openOk: bool, junk0: int, junk1: int)
    requires Kept(s) && StartsAt(s, x) && SingleDone(x, openOk, junk0, junk1) && Room(SingleAfter(s, x))
    requires NoHarm(s, RunSingle(x, openOk, junk0, junk1), SingleAfter(s, x))
    ensures Kept(SingleAfter(s, x))
  {
    hide Kept, Room, ServerAfter, SingleDone, SelfPipe, Harmless;
    if SelfPipe(x.t, x.u, x.line) {
      SelfPipeKept(s, x, openOk, junk0, junk1);
    } else {
      StepKeepsKept(s, RunSingle(x, openOk, junk0, junk1), SingleAfter(s, x));
    }
  }

  lemma PipelinePipes(s: Ledger.Server, x: Turn)
    requires Kept(s) && StartsAt(s, x) && PipelineDone(x)
    ensures x.pipes == |ServerAfter(s, x, true).kinds|
  {
    LineHint(s, x);
    PipelineEffect(s, x);
    hide PipelineDone, Good;
  }

  lemma PipelineSteps(s: Ledger.Server, x: Turn)
    requires StartsAt(s, x) && PipelineDone(x)
    ensures LineFormed(x) && x.line.stages >= 1 && x.u.me < |s.tables|
    ensures Step(s, RunPipeline(x), ServerAfter(s, x, true))
  {
    assert x.line.stages >= 1;
    hide PipelineDone;
  }

  lemma DropFacts(s: Ledger.Server, c: nat)
    requires Kept(s) && Client(s, c)
    ensures Formed(s) && Square(s.userPipe) && RecordInRange(s.tables[c])
    ensures s.sockfd[c] in s.fdIds && s.fdIds[s.sockfd[c]] == c
    ensures Formed(LoggedOut(s, c))
  {
    HungUpFormed(s, c);
  }

  lemma SelfPipeKept(s: Ledger.Server, x: Turn, openOk: bool, junk0: int, junk1: int)
    requires Kept(s) && StartsAt(s, x) && SingleDone(x, openOk, junk0, junk1) && SelfPipe(x.t, x.u, x.line)
    requires junk0 < 0 && Harmless(s, x, junk0, junk1) && Room(SingleAfter(s, x))
    ensures Kept(SingleAfter(s, x))
  {
    LineHint(s, x);
    LineMisses(s, x);
    SelfPipeGood(s, x, openOk, junk0, junk1);
    hide Good, Room, Harmless, FdsAfter, InputFds, Gained, LineKinds, SelfPipe, Ready;
  }

  lemma MinusThree(fds: Fds, a: set<int>, b: set<int>, c: set<int>)
    ensures fds - a - b - c == fds - (a + b + c)
  {
    EqualFds(fds - a - b - c, fds - (a + b + c));
  }

  lemma CountingSteps(s: Ledger.Server, c: nat)
    requires Kept(s) && Client(s, c)
    ensures var s' := CountedServer(s, c);
            && Step(s, BuiltIn(c), s') && Kept(s') && c < |s.tables| && |s'.kinds| == |s.kinds|
            && s' == s.(tables := s.tables[c := CountDown(s.tables[c])], role := s'.role, kinds := s'.kinds)
  {
    BuiltInKept(s, c);
    hide Kept, CountDown;
  }

  lemma CountedSnapshot(s: Ledger.Server, c: nat)
    requires Formed(s) && Client(s, c)
    ensures Snapshot(CountedServer(s, c).tables[c])
  {
    CountDownSnapshot(s.tables[c]);
  }
}
