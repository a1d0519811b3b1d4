/**
  What happens to the ids of the single-process server when they run out: exactly when the
  next client is given an id in use, and a run in which two clients end up with one id.
  */
module LedgerFull {
  import Hint
  import opened Kernel
  import opened Ledger
  import opened LedgerLine
  import opened LedgerRuns
  import opened LedgerSession
  import opened Options
  import opened Pipeline
  import opened SlotTable
  import opened Wiring

  // ---- The ids over whole runs ----

  predicate IdsMatch(s: Server, t: Hint.Table) {
    |s.state| == |t.used| + 1 && s.state[1..] == t.used && t.hint < |t.used| && s.minId == t.hint + 1
  }

  /** The logins and logouts of the run, as takes and gives; id i is slot i - 1. */
  function TakesAndGives(events: seq<Event>): seq<Hint.Event> {
    if events == [] then []
    else TakesAndGives(events[..|events| - 1]) + Of(events[|events| - 1])
  }

  function Of(e: Event): seq<Hint.Event> {
    match e
    case LogIn(_, _) => [Hint.Take]
    case LogOut(c) => if c >= 1 then [Hint.Give(c - 1)] else []
    case _ => []
  }

  /** The table does what these takes and gives do, which hit no other user. */
  predicate Becomes(t: Hint.Table, events: seq<Hint.Event>, t': Hint.Table) {
    if |events| == 1 then Hint.Possible(t, events[0]) && t' == Hint.After(t, events[0]) else events == [] && t' == t
  }

  /** Every login of the run was given an id that nobody had. */
  ghost predicate FreshLogins(states: seq<Server>, events: seq<Event>)
    requires |states| == |events| + 1
  {
    forall k :: 0 <= k < |events| && events[k].LogIn? ==> IdFree(states[k])
  }

  lemma OtherStepKeepsIds(s: Server, e: Event, s': Server)
    requires Step(s, e, s') && !e.LogIn? && !e.LogOut?
    ensures s'.state == s.state && s'.minId == s.minId
  {
    hide SingleDone, PipelineDone, StartsAt, SelfPipe;
  }

  lemma LogOutMatches(s: Server, c: nat, s': Server, t: Hint.Table)
    requires Step(s, LogOut(c), s') && IdsMatch(s, t)
    ensures c >= 1 && Hint.Possible(t, Hint.Give(c - 1)) && IdsMatch(s', Hint.Given(t, c - 1))
  {
    var counted := CountedServer(s, c);
    assert AsIds(counted) == t && Client(s, c);
    IdsAreHintAllocator(counted, 0, 1, c);
    assert s.state[c] == s.state[1..][c - 1];
    hide Counted, LeaverFds, ColumnCleared;
  }

  lemma LogInMatches(s: Server, fd: int, slots: nat, s': Server, t: Hint.Table)
    requires Step(s, LogIn(fd, slots), s') && IdsMatch(s, t) && IdFree(s)
    ensures Hint.Possible(t, Hint.Take) && IdsMatch(s', Hint.Taken(t))
  {
    assert AsIds(s) == t;
    IdsAreHintAllocator(s, fd, slots, 0);
    assert s.state[s.minId] == s.state[1..][s.minId - 1];
  }

  lemma StepMatches(s: Server, e: Event, s': Server, t: Hint.Table) returns (t': Hint.Table)
    requires Step(s, e, s') && IdsMatch(s, t) && (e.LogIn? ==> IdFree(s))
    ensures IdsMatch(s', t') && Becomes(t, Of(e), t')
  {
    hide IdsMatch, IdFree, Step;
    t' := t;
    match e
    case LogIn(fd, slots) =>
      LogInMatches(s, fd, slots, s', t);
      t' := Hint.Taken(t);
    case LogOut(c) =>
      LogOutMatches(s, c, s', t);
      t' := Hint.Given(t, c - 1);
    case _ =>
      OtherStepKeepsIds(s, e, s');
      SameMatch(s, s', t);
  }

  lemma SameMatch(s: Server, s': Server, t: Hint.Table)
    requires IdsMatch(s, t) && s'.state == s.state && s'.minId == s.minId
    ensures IdsMatch(s', t)
  {
  }

  ghost predicate Explains(tables: seq<Hint.Table>, events: seq<Hint.Event>, n: nat, s: Server) {
    Hint.IsRun(n, tables, events) && |tables| == |events| + 1 && IdsMatch(s, tables[|events|])
  }

  lemma ExtendRun(n: nat, tables: seq<Hint.Table>, events: seq<Hint.Event>, more: seq<Hint.Event>, t: Hint.Table)
    returns (tables': seq<Hint.Table>)
    requires Hint.IsRun(n, tables, events) && |tables| == |events| + 1 && Becomes(tables[|events|], more, t)
    ensures Hint.IsRun(n, tables', events + more) && |tables'| == |events + more| + 1 && tables'[|events + more|] == t
  {
    if more == [] {
      assert events + more == events;
      tables' := tables;
    } else {
      tables' := tables + [t];
      assert more == [more[0]];
    }
  }

  lemma {:induction false} Explained(n: nat, states: seq<Server>, events: seq<Event>, k: nat)
    returns (tables: seq<Hint.Table>)
    requires IsRun(n, states, events) && FreshLogins(states, events) && k <= |events|
    ensures Explains(tables, TakesAndGives(events[..k]), n - 1, states[k])
  {
    if k == 0 {
      tables := [Hint.Empty(n - 1)];
      assert Booted(n).state[1..] == Hint.Empty(n - 1).used;
    } else {
      tables := Explained(n, states, events, k - 1);
      tables := NextExplained(n, states, events, k - 1, tables);
    }
    hide IsRun, Step;
  }

  lemma RunStep(n: nat, states: seq<Server>, events: seq<Event>, k: nat)
    requires IsRun(n, states, events) && FreshLogins(states, events) && k < |events|
    ensures n >= 2 && Step(states[k], events[k], states[k + 1]) && (events[k].LogIn? ==> IdFree(states[k]))
  {
    hide Step, IdFree;
  }

  lemma NextExplained(n: nat, states: seq<Server>, events: seq<Event>, k: nat, tables: seq<Hint.Table>)
    returns (tables': seq<Hint.Table>)
    requires IsRun(n, states, events) && FreshLogins(states, events) && k < |events|
    requires Explains(tables, TakesAndGives(events[..k]), n - 1, states[k])
    ensures Explains(tables', TakesAndGives(events[..k + 1]), n - 1, states[k + 1])
  {
    var before, e := TakesAndGives(events[..k]), events[k];
    RunStep(n, states, events, k);
    TakesNext(events, k);
    hide IsRun, FreshLogins, Step, IdsMatch, IdFree, Becomes, Of, TakesAndGives, Hint.IsRun;
    var t := StepMatches(states[k], e, states[k + 1], tables[|before|]);
    tables' := ExtendRun(n - 1, tables, before, Of(e), t);
  }

  lemma TakesNext(events: seq<Event>, k: nat)
    requires k < |events|
    ensures TakesAndGives(events[..k + 1]) == TakesAndGives(events[..k]) + Of(events[k])
  {
    assert events[..k + 1][..k] == events[..k] && events[..k + 1][k] == events[k];
  }

  /**
    In every run in which no login was given an id in use, room or not, the next login would
    be given one if and only if some login filled the table and since then only ids above the
    one it took were given back.
    */
  lemma NextIdTakenExactlyWhen(n: nat, states: seq<Server>, events: seq<Event>) returns (tables: seq<Hint.Table>)
    requires IsRun(n, states, events) && FreshLogins(states, events)
    ensures var takes, s := TakesAndGives(events), states[|events|];
            && Hint.IsRun(n - 1, tables, takes) && |tables| == |takes| + 1
            && IdsMatch(s, tables[|takes|])
            && (!IdFree(s) <==> exists t :: Hint.StaleSince(tables, takes, t, |takes|))
  {
    tables := Explained(n, states, events, |events|);
    assert events[..|events|] == events;
    var takes := TakesAndGives(events);
    hide IsRun, FreshLogins;
    Hint.StaleExactlyWhen(n - 1, tables, takes, |takes|);
    assert states[|events|].state[1..][states[|events|].minId - 1] == states[|events|].state[states[|events|].minId];
  }

  // ---- Two clients with one id ----

  /** Nobody has made a pipe. */
  ghost predicate Plain(s: Server) {
    && Formed(s) && s.kinds == []
    && (forall c :: 0 <= c < |s.state| ==> s.tables[c] == Initial(1))
    && (forall i, j :: 0 <= i < |s.userPipe| && 0 <= j < |s.userPipe[i]| ==> s.userPipe[i][j] == -1)
  }

  lemma PlainLogIn(s: Server, fd: int)
    requires Plain(s) && fd > 2 && fd !in s.fds && s.clientNum < |s.state| - 1 && s.minId < |s.state|
    ensures Step(s, LogIn(fd, 1), LoggedIn(s, fd, 1)) && Plain(LoggedIn(s, fd, 1))
  {
    assert LoggedIn(s, fd, 1).role.Keys == LoggedIn(s, fd, 1).fds.Keys;
  }

  lemma PlainLogOut(s: Server, c: nat)
    requires Plain(s) && Client(s, c)
    ensures RecordInRange(s.tables[c])
    ensures Step(s, LogOut(c), LoggedOut(s, c)) && Plain(LoggedOut(s, c))
            && LoggedOut(s, c).fds == s.fds - {s.sockfd[c]}
  {
    InitialCounted(1);
    assert CountedServer(s, c) == s by { assert s.tables[c := s.tables[c]] == s.tables; }
    assert UserPipeFds(s.userPipe, c, |s.state|) == {} by {
      forall f
        ensures f !in UserPipeFds(s.userPipe, c, |s.state|)
      {
        UserPipeFdBy(s.userPipe, c, |s.state|, f);
      }
    }
    assert LeaverFds(s, c) == {s.sockfd[c]};
    assert LoggedOut(s, c).role.Keys == LoggedOut(s, c).fds.Keys;
  }

  /** A server with two ids and no pipes: ids 1 and 2 are in use or not, with these sockets. */
  ghost predicate Looks(s: Server, one: bool, two: bool, minId: nat, num: int, sock1: int, sock2: int, fds: Fds,
                        fdIds: map<int, nat>) {
    && Plain(s) && s.state == [false, one, two] && s.minId == minId && s.clientNum == num
    && s.sockfd == [-1, sock1, sock2] && s.fds == fds && s.fdIds == fdIds
  }

  lemma LeastOfTwo(one: bool, two: bool)
    ensures Hint.FirstFree([false, one, two], 1) == if !one then Some(1) else if !two then Some(2) else None
  {
    assert Hint.FirstFree([false, one, two], 3) == None;
    assert Hint.FirstFree([false, one, two], 2) == if !two then Some(2) else None;
  }

  lemma LogInLooks(s: Server, fd: int, one: bool, two: bool, minId: nat, num: int, sock1: int, sock2: int, fds: Fds,
                   fdIds: map<int, nat>)
    requires Looks(s, one, two, minId, num, sock1, sock2, fds, fdIds) && fd > 2 && fd !in fds && num < 2
    ensures Formed(s) && s.minId < |s.state| ==> Step(s, LogIn(fd, 1), LoggedIn(s, fd, 1))
    ensures minId == 1 ==>
              Formed(s) && s.minId < |s.state|
              && Looks(LoggedIn(s, fd, 1), true, two, if two then 1 else 2, num + 1, fd, sock2,
                       fds[fd := Socket(1)], fdIds[fd := 1])
    ensures minId == 2 ==>
              Formed(s) && s.minId < |s.state|
              && Looks(LoggedIn(s, fd, 1), one, true, if one then 2 else 1, num + 1, sock1, fd,
                       fds[fd := Socket(2)], fdIds[fd := 2])
  {
    if s.minId < |s.state| { PlainLogIn(s, fd); }
    LeastOfTwo(true, two);
    LeastOfTwo(one, true);
    assert [false, one, two][1 := true] == [false, true, two] && [false, one, two][2 := true] == [false, one, true];
    assert [-1, sock1, sock2][1 := fd] == [-1, fd, sock2] && [-1, sock1, sock2][2 := fd] == [-1, sock1, fd];
    assert Formed(s);
    hide Plain, Step;
  }

  lemma LogOutLooks(s: Server, c: nat, one: bool, two: bool, minId: nat, num: int, sock1: int, sock2: int, fds: Fds,
                    fdIds: map<int, nat>)
    requires Looks(s, one, two, minId, num, sock1, sock2, fds, fdIds) && 1 <= c <= 2 && (if c == 1 then one else two)
    ensures Client(s, c) && Formed(s) && RecordInRange(s.tables[c])
    ensures Step(s, LogOut(c), LoggedOut(s, c))
    ensures c == 1 ==> Looks(LoggedOut(s, c), false, two, if 1 < minId then 1 else minId, num - 1, -1, sock2,
                             fds - {sock1}, fdIds - {sock1})
    ensures c == 2 ==> Looks(LoggedOut(s, c), one, false, if 2 < minId then 2 else minId, num - 1, sock1, -1,
                             fds - {sock2}, fdIds - {sock2})
  {
    PlainLogOut(s, c);
    assert [false, one, two][1 := false] == [false, false, two] && [false, one, two][2 := false] == [false, one, false];
    assert [-1, sock1, sock2][1 := -1] == [-1, -1, sock2] && [-1, sock1, sock2][2 := -1] == [-1, sock1, -1];
    hide Plain, Step;
  }

  const BOOT: Fds := map[STDIN := Console, STDOUT := Console, STDERR := Console, 3 := Listener]

  lemma BootLooks()
    ensures Looks(Booted(3), false, false, 1, 0, -1, -1, BOOT, map[])
  {
  }

  lemma LooksIs(s: Server, one: bool, two: bool, minId: nat, num: int, sock1: int, sock2: int, fds: Fds,
                fdIds: map<int, nat>)
    requires Looks(s, one, two, minId, num, sock1, sock2, fds, fdIds)
    ensures s.state == [false, one, two] && s.sockfd == [-1, sock1, sock2] && s.fds == fds && s.fdIds == fdIds
  {
  }

  /** Two clients connect to a server with two ids, and the first leaves. */
  lemma FirstThree() returns (s1: Server, s2: Server, s3: Server, fds: Fds, ids: map<int, nat>)
    ensures Step(Booted(3), LogIn(4, 1), s1) && Step(s1, LogIn(5, 1), s2) && Step(s2, LogOut(1), s3)
    ensures Looks(s3, false, true, 1, 1, -1, 5, fds, ids) && 6 !in fds && 7 !in fds
  {
    BootLooks();
    ids := map[];
    hide Looks, Step, Booted, LoggedIn, LoggedOut;
    LogInLooks(Booted(3), 4, false, false, 1, 0, -1, -1, BOOT, ids);
    s1 := LoggedIn(Booted(3), 4, 1);
    LogInLooks(s1, 5, true, false, 2, 1, 4, -1, BOOT[4 := Socket(1)], ids[4 := 1]);
    s2 := LoggedIn(s1, 5, 1);
    LogOutLooks(s2, 1, true, true, 2, 2, 4, 5, BOOT[4 := Socket(1)][5 := Socket(2)], ids[4 := 1][5 := 2]);
    s3 := LoggedOut(s2, 1);
    fds, ids := BOOT[4 := Socket(1)][5 := Socket(2)] - {4}, ids[4 := 1][5 := 2] - {4};
  }

  /** A third client takes the free id, the second leaves, and a fourth connects. */
  lemma LastThree(s3: Server, fds: Fds, ids: map<int, nat>) returns (s4: Server, s5: Server, s6: Server)
    requires Looks(s3, false, true, 1, 1, -1, 5, fds, ids) && 6 !in fds && 7 !in fds
    ensures Step(s3, LogIn(6, 1), s4) && Step(s4, LogOut(2), s5) && Step(s5, LogIn(7, 1), s6)
    ensures Looks(s6, true, false, 2, 2, 7, -1, (fds[6 := Socket(1)] - {5})[7 := Socket(1)],
                  (ids[6 := 1] - {5})[7 := 1])
  {
    hide Looks, Step, LoggedIn, LoggedOut;
    LogInLooks(s3, 6, false, true, 1, 1, -1, 5, fds, ids);
    s4 := LoggedIn(s3, 6, 1);
    LogOutLooks(s4, 2, true, true, 1, 2, 6, 5, fds[6 := Socket(1)], ids[6 := 1]);
    s5 := LoggedOut(s4, 2);
    LogInLooks(s5, 7, true, false, 1, 1, 6, -1, fds[6 := Socket(1)] - {5}, ids[6 := 1] - {5});
    s6 := LoggedIn(s5, 7, 1);
  }

  /** Two clients are connected under id 1. */
  predicate ShareId(s: Server) {
    && HasEnd(s.fds, 6, Socket(1)) && HasEnd(s.fds, 7, Socket(1))
    && 6 in s.fdIds && s.fdIds[6] == 1 && 7 in s.fdIds && s.fdIds[7] == 1
    && s.state == [false, true, false] && s.sockfd == [-1, 7, -1]
  }

  lemma LastShares(s: Server, fds: Fds, ids: map<int, nat>)
    requires Looks(s, true, false, 2, 2, 7, -1, (fds[6 := Socket(1)] - {5})[7 := Socket(1)],
                   (ids[6 := 1] - {5})[7 := 1])
    ensures ShareId(s)
  {
    LooksIs(s, true, false, 2, 2, 7, -1, (fds[6 := Socket(1)] - {5})[7 := Socket(1)], (ids[6 := 1] - {5})[7 := 1]);
    hide Looks;
  }

  /**
    With two ids: two clients connect, the first leaves, a third takes its id, the second
    leaves, and a fourth client is given the third one's id while that is still connected.
    */
  lemma TwoClientsOneId() returns (states: seq<Server>, events: seq<Event>)
    ensures IsRun(3, states, events) && |events| == 6 && |states| == 7 && ShareId(states[6])
  {
    hide *;
    var s1, s2, s3, fds, ids := FirstThree();
    var s4, s5, s6 := LastThree(s3, fds, ids);
    LastShares(s6, fds, ids);
    states := [Booted(3), s1, s2, s3, s4, s5, s6];
    events := [LogIn(4, 1), LogIn(5, 1), LogOut(1), LogIn(6, 1), LogOut(2), LogIn(7, 1)];
    SixSteps(states, events);
  }

  lemma SixSteps(states: seq<Server>, events: seq<Event>)
    requires |events| == 6 && |states| == 7 && states[0] == Booted(3)
    requires Step(states[0], events[0], states[1]) && Step(states[1], events[1], states[2])
             && Step(states[2], events[2], states[3])
    requires Step(states[3], events[3], states[4]) && Step(states[4], events[4], states[5])
             && Step(states[5], events[5], states[6])
    ensures IsRun(3, states, events)
  {
    hide Step, Booted;
    forall k | 0 <= k < 6
      ensures Step(states[k], events[k], states[k + 1])
    {
    }
  }
}
