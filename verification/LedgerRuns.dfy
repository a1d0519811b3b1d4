/**
  Whole runs of the single-process server. As long as an id and, in every client's table, a
  slot stay free, every reachable state keeps the ledger, ids are given out correctly, and a
  pipe that the server let go of never comes back.
  */
module LedgerRuns {
  import Hint
  import opened Kernel
  import opened Ledger
  import opened LedgerCommands
  import opened LedgerLine
  import opened LedgerSession
  import opened Options
  import opened Pipeline
  import opened SlotTable
  import opened Wiring

  // ---- Ids ----

  function LoggedCount(state: seq<bool>): nat {
    if state == [] then 0 else LoggedCount(state[..|state| - 1]) + (if state[|state| - 1] then 1 else 0)
  }

  lemma {:induction false} CountAfterSet(state: seq<bool>, i: nat, b: bool)
    requires i < |state|
    ensures LoggedCount(state[i := b]) == LoggedCount(state) - (if state[i] then 1 else 0) + (if b then 1 else 0)
  {
    var n := |state| - 1;
    if i == n {
      assert state[i := b][..n] == state[..n];
    } else {
      CountAfterSet(state[..n], i, b);
      assert state[i := b][..n] == state[..n][i := b];
    }
  }

  /** No id below the hint is free, `client_num` counts the clients, and sockets and ids are mutually inverse. */
  ghost predicate IdsOk(s: Server)
    requires Formed(s)
  {
    && !s.state[0]
    && 1 <= s.minId < |s.state|
    && (forall i :: 1 <= i < s.minId ==> s.state[i])
    && s.clientNum == LoggedCount(s.state)
    && (forall f :: f in s.fdIds ==> Client(s, s.fdIds[f]) && s.sockfd[s.fdIds[f]] == f)
    && (forall c :: Client(s, c) ==> s.sockfd[c] in s.fdIds && s.fdIds[s.sockfd[c]] == c)
  }

  /** The ids as the hint allocator of module Hint sees them: id i is slot i - 1. */
  function AsIds(s: Server): Hint.Table
    requires |s.state| >= 1 && s.minId >= 1
  {
    Hint.Table(s.state[1..], s.minId - 1)
  }

  lemma FirstFreeShift(state: seq<bool>, from: nat)
    requires 1 <= from && |state| >= 1
    ensures Hint.FirstFree(state, from).Some? == Hint.FirstFree(state[1..], from - 1).Some?
    ensures Hint.FirstFree(state, from).Some? ==>
              Hint.FirstFree(state, from).value == Hint.FirstFree(state[1..], from - 1).value + 1
    decreases |state| - from
  {
    if from < |state| && state[from] { FirstFreeShift(state, from + 1); }
  }

  /** Logging in takes the id that the hint names; logging out gives the id back. */
  lemma IdsAreHintAllocator(s: Server, fd: int, slots: nat, c: nat)
    requires Formed(s) && 1 <= s.minId < |s.state|
    ensures AsIds(LoggedIn(s, fd, slots)) == Hint.Taken(AsIds(s))
    ensures Client(s, c) && RecordInRange(s.tables[c]) ==> AsIds(LoggedOut(s, c)) == Hint.Given(AsIds(s), c - 1)
  {
    FirstFreeShift(s.state[s.minId := true], 1);
    assert s.state[s.minId := true][1..] == s.state[1..][s.minId - 1 := true];
    if Client(s, c) && RecordInRange(s.tables[c]) {
      assert s.state[c := false][1..] == s.state[1..][c - 1 := false];
    }
  }

  lemma LoginKeepsIds(s: Server, fd: int, slots: nat)
    requires Inv(s) && IdsOk(s) && IdFree(s) && fd !in s.fds && Formed(LoggedIn(s, fd, slots))
    ensures IdsOk(LoggedIn(s, fd, slots))
  {
    var s' := LoggedIn(s, fd, slots);
    CountAfterSet(s.state, s.minId, true);
    forall c | Client(s, c)
      ensures s.sockfd[c] != fd
    {
      assert ClientOwns(s, c);
    }
    assert forall c :: Client(s', c) ==> c == s.minId || Client(s, c);
  }

  lemma LogoutKeepsIds(s: Server, c: nat)
    requires Inv(s) && IdsOk(s) && Client(s, c) && RecordInRange(s.tables[c]) && Formed(LoggedOut(s, c))
    ensures IdsOk(LoggedOut(s, c))
  {
    var s' := LoggedOut(s, c);
    CountAfterSet(s.state, c, false);
    assert forall d :: Client(s', d) ==> d != c && Client(s, d);
  }

  // ---- Events ----

  /** A line is given by what the wiring made of it; modules Wiring and Server tie that to the code. */
  datatype Event =
    | LogIn(fd: int, slots: nat)
    | LogOut(client: nat)
    | BuiltIn(client: nat)
    | RunSingle(x: Turn, openOk: bool, junk0: int, junk1: int)
    | RunPipeline(x: Turn)
    | Ended(command: nat)

  ghost predicate Step(s: Server, e: Event, s': Server) {
    && Formed(s)
    && match e
       case LogIn(fd, slots) =>
         && fd > 2 && fd !in s.fds && slots > 0 && s.clientNum < |s.state| - 1 && s.minId < |s.state|
         && s' == LoggedIn(s, fd, slots)
       case LogOut(c) =>
         Client(s, c) && Formed(CountedServer(s, c)) && RecordInRange(CountedServer(s, c).tables[c])
         && s' == LoggedOut(CountedServer(s, c), c)
       case BuiltIn(c) => Client(s, c) && s' == CountedServer(s, c)
       case RunSingle(x, openOk, junk0, junk1) =>
         && StartsAt(s, x) && SingleDone(x, openOk, junk0, junk1) && !SelfPipe(x.t, x.u, x.line)
         && s' == ServerAfter(s, x, false)
       case RunPipeline(x) => StartsAt(s, x) && PipelineDone(x) && s' == ServerAfter(s, x, true)
       case Ended(k) => k < |s.children| && s' == AfterEnd(s, k)
  }

  /** An id is free, and so is a slot in every client's table. */
  ghost predicate Room(s: Server) {
    && (exists i :: 1 <= i < |s.state| && !s.state[i])
    && (forall c :: Client(s, c) && c < |s.tables| ==> HasRoom(s.tables[c]))
  }

  /** The hints name free ids and slots. */
  ghost predicate HintsRight(s: Server)
    requires Formed(s)
  {
    IdFree(s) && forall c :: Client(s, c) ==> HintFree(s.tables[c])
  }

  ghost predicate Good(s: Server) {
    Inv(s) && IdsOk(s) && HintsRight(s)
  }

  lemma LogInGood(s: Server, fd: int, slots: nat)
    requires Good(s) && fd > 2 && fd !in s.fds && slots > 0
    requires Room(LoggedIn(s, fd, slots))
    ensures Good(LoggedIn(s, fd, slots))
  {
    LoginKeepsInv(s, fd, slots);
    LoginKeepsIds(s, fd, slots);
    InitialOk(slots, 0);
    hide Inv;
  }

  lemma BuiltInGood(s: Server, c: nat)
    requires Good(s) && Client(s, c)
    ensures Good(CountedServer(s, c)) && Snapshot(CountedServer(s, c).tables[c])
  {
    CountedKeepsInv(s, c);
    assert Ok(s.tables[c]);
    CountDownKeepsHint(s.tables[c]);
    hide Inv, Ok, CountDown;
  }

  lemma LogOutGood(s: Server, c: nat)
    requires Good(s) && Client(s, c) && Snapshot(s.tables[c])
    ensures Good(LoggedOut(s, c))
  {
    LogoutKeepsInv(s, c);
    assert Formed(LoggedOut(s, c));
    LogoutKeepsIds(s, c);
    hide Inv;
  }

  /** Typing a line finds the hint of the counted table right, and leaves it right when a slot stays free. */
  lemma LineHint(s: Server, x: Turn)
    requires Good(s) && StartsAt(s, x)
    ensures TypedAt(s, x)
    ensures x.t' == TableAfterLine(x) && HasRoom(x.t') ==> HintFree(x.t')
  {
    var t := s.tables[x.u.me];
    assert Ok(t);
    CountDownOk(t);
    CountDownKeepsHint(t);
    if AddsNumbered(x) && x.t' == TableAfterLine(x) && HasRoom(x.t') {
      var i :| 0 <= i < |x.t'.list| && !Live(x.t', i);
      FindNoneMeansNew(x.t, x.line.crossNum);
      UpdateOk(x.t, Pipe(x.fd1, x.fd0), x.line.crossNum);
    }
    hide Inv, CountDown;
  }

  lemma LineGood(s: Server, x: Turn, pipeline: bool)
    requires Good(s) && StartsAt(s, x) && Effect(s, x, pipeline)
    requires Inv(ServerAfter(s, x, pipeline)) && Room(ServerAfter(s, x, pipeline))
    ensures Good(ServerAfter(s, x, pipeline))
  {
    LineHint(s, x);
    hide Inv, FdsAfter, GainedEnds, LineKinds, Gained, TableAfterLine, StoredUsers;
  }

  function AfterEnd(s: Server, k: nat): Server
    requires k < |s.children|
  {
    s.(children := s.children[k := s.children[k].(fds := map[])])
  }

  lemma EndedRoles(s: Server, k: nat)
    requires Inv(s) && k < |s.children|
    ensures Roles(AfterEnd(s, k))
  {
    forall f | f in s.role
      ensures RoleOk(AfterEnd(s, k), f)
    {
      assert RoleOk(s, f);
    }
  }

  lemma EndedRecords(s: Server, k: nat)
    requires Inv(s) && k < |s.children|
    ensures Recorded(AfterEnd(s, k))
  {
    var s' := AfterEnd(s, k);
    forall c | Client(s', c)
      ensures ClientOwns(s', c) && Ok(s'.tables[c])
    {
      assert ClientOwns(s, c) && Ok(s.tables[c]);
    }
    forall c, i | Client(s', c) && 0 <= i < |s'.tables[c].list| && Live(s'.tables[c], i)
      ensures SlotOwned(s', c, i)
    {
      assert SlotOwned(s, c, i);
    }
  }

  lemma EndedGood(s: Server, k: nat)
    requires Good(s) && k < |s.children|
    ensures Good(AfterEnd(s, k))
  {
    var s' := AfterEnd(s, k);
    EndedRoles(s, k);
    EndedRecords(s, k);
    forall j, f | 0 <= j < |s'.children| && f in s'.children[j].fds
      ensures ChildEnd(s', j, f)
    {
      assert ChildEnd(s, j, f);
    }
    hide Roles, Recorded;
  }

  lemma StepKeepsGood(s: Server, e: Event, s': Server)
    requires Good(s) && Step(s, e, s') && Room(s')
    ensures Good(s')
  {
    hide Inv, IdsOk, HintsRight, Room;
    match e
    case LogIn(fd, slots) => LogInGood(s, fd, slots);
    case LogOut(c) =>
      BuiltInGood(s, c);
      LogOutGood(CountedServer(s, c), c);
    case BuiltIn(c) => BuiltInGood(s, c);
    case RunSingle(x, openOk, junk0, junk1) =>
      LineHint(s, x);
      SingleEffect(s, x, openOk, junk0, junk1);
      assert Inv(s);
      SingleKeepsInv(s, x, openOk, junk0, junk1);
      LineGood(s, x, false);
    case RunPipeline(x) =>
      LineHint(s, x);
      PipelineEffect(s, x);
      assert Inv(s);
      PipelineKeepsInv(s, x);
      LineGood(s, x, true);
    case Ended(k) => EndedGood(s, k);
  }

  // ---- Runs ----

  /** The server before its first client: ids 1 to n - 1, and the listening socket at descriptor 3. */
  function Booted(n: nat): Server {
    Server(map[STDIN := Console, STDOUT := Console, STDERR := Console, 3 := Listener],
           seq(n, i => false), seq(n, i => -1), seq(n, i => seq(n, j => -1)), seq(n, i => Initial(1)), [],
           1, 0, map[], map[STDIN := Std, STDOUT := Std, STDERR := Std, 3 := Listening], [])
  }

  lemma {:induction false} NobodyCounts(n: nat)
    ensures LoggedCount(seq(n, i => false)) == 0
  {
    if n > 0 {
      NobodyCounts(n - 1);
      assert seq(n, i => false)[..n - 1] == seq(n - 1, i => false);
    }
  }

  lemma BootedGood(n: nat)
    requires n >= 2
    ensures Good(Booted(n))
  {
    NobodyCounts(n);
  }

  ghost predicate IsRun(n: nat, states: seq<Server>, events: seq<Event>) {
    && n >= 2 && |states| == |events| + 1 && states[0] == Booted(n)
    && forall k :: 0 <= k < |events| ==> Step(states[k], events[k], states[k + 1])
  }

  /** In every run that keeps an id and slots free, every state keeps the books and has its hints right. */
  lemma {:induction false} RunsKeepTheBooks(n: nat, states: seq<Server>, events: seq<Event>, k: nat)
    requires IsRun(n, states, events) && k < |states|
    requires forall i :: 0 <= i < |states| ==> Room(states[i])
    ensures Good(states[k])
  {
    if k == 0 {
      BootedGood(n);
    } else {
      RunsKeepTheBooks(n, states, events, k - 1);
      assert Step(states[k - 1], events[k - 1], states[k - 1 + 1]);
      StepKeepsGood(states[k - 1], events[k - 1], states[k]);
    }
  }

  /**
    In every such run the next id to be given out is the least free one, `client_num` counts
    the clients, and a descriptor and the id it is listed under belong to each other, so no
    two clients share an id or a connection.
    */
  lemma IdsAreRight(n: nat, states: seq<Server>, events: seq<Event>, k: nat)
    requires IsRun(n, states, events) && k < |states|
    requires forall i :: 0 <= i < |states| ==> Room(states[i])
    ensures Hint.FirstFree(states[k].state, 1) == Some(states[k].minId)
    ensures states[k].clientNum == LoggedCount(states[k].state)
    ensures forall c :: Client(states[k], c) ==>
              && c < |states[k].sockfd| && states[k].sockfd[c] in states[k].fds
              && states[k].fds[states[k].sockfd[c]] == Socket(c)
              && states[k].sockfd[c] in states[k].fdIds && states[k].fdIds[states[k].sockfd[c]] == c
    ensures forall f :: f in states[k].fdIds ==>
              Client(states[k], states[k].fdIds[f]) && states[k].fdIds[f] < |states[k].sockfd|
                                                 && states[k].sockfd[states[k].fdIds[f]] == f
  {
    RunsKeepTheBooks(n, states, events, k);
    var s := states[k];
    forall c | Client(s, c)
      ensures s.sockfd[c] in s.fds && s.fds[s.sockfd[c]] == Socket(c)
    {
      assert ClientOwns(s, c) && RoleOk(s, s.sockfd[c]);
    }
    hide IsRun;
  }

  /**
    In every such run a recorded user pipe joins two clients that are logged in and its open
    descriptor is used for nothing else; and the open ends of a client's numbered pipes are
    exactly the ends of its live slots.
    */
  lemma PipesAreRight(n: nat, states: seq<Server>, events: seq<Event>, k: nat, to: nat, from: nat, f: int, c: nat)
    requires IsRun(n, states, events) && k < |states|
    requires forall i :: 0 <= i < |states| ==> Room(states[i])
    ensures Formed(states[k])
    ensures to < |states[k].state| && from < |states[k].state| && states[k].userPipe[to][from] >= 0 ==>
              var s, p := states[k], states[k].userPipe[to][from];
              && Client(s, to) && Client(s, from) && p in s.fds && s.fds[p].ReadEnd?
              && (forall i, j :: 0 <= i < |s.state| && 0 <= j < |s.state| && (i, j) != (to, from) ==>
                  s.userPipe[i][j] != p)
              && (forall d :: Client(s, d) ==> s.sockfd[d] != p)
              && (forall d, i :: Client(s, d) && 0 <= i < |s.tables[d].list| && Live(s.tables[d], i) ==>
                    s.tables[d].list[i].writeFd != p && s.tables[d].list[i].readFd != p)
    ensures f in states[k].fds ==>
              (KindIs(states[k], states[k].fds[f], Numbered(c)) <==>
                Client(states[k], c)
                && exists i :: 0 <= i < |states[k].tables[c].list| && Live(states[k].tables[c], i)
                               && (states[k].tables[c].list[i].writeFd == f || states[k].tables[c].list[i].readFd == f))
  {
    RunsKeepTheBooks(n, states, events, k);
    var s := states[k];
    if to < |s.state| && from < |s.state| && s.userPipe[to][from] >= 0 { UserPipesAreApart(s, to, from); }
    if f in s.fds { NumberedEndsAreLiveSlots(s, f, c); }
    hide IsRun, Room, Roles, Recorded, Once, Commands;
  }
}
