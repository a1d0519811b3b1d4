/**
  A client that hangs up, which the server sees as a first byte 4: it is dropped without a
  count, so what is closed for it goes by the snapshot of an earlier line.
  */
module LedgerHangUp {
  import opened Ledger
  import opened LedgerEnds
  import opened LedgerLeaks
  import opened LedgerLine
  import opened LedgerRuns
  import opened LedgerSession
  import opened Options
  import opened Pipeline
  import opened SlotTable
  import opened Wiring

  // ---- A snapshot after its line ----

  /** What the snapshot has is live. */
  ghost predicate Remembers(t: Table) {
    forall i :: 0 <= i < |t.record| ==> t.record[i] < |t.list| && Live(t, t.record[i])
  }

  /** A live slot that the snapshot does not have. */
  predicate Missed(t: Table, i: int) {
    0 <= i < |t.list| && Live(t, i) && i !in t.record
  }

  /** The snapshot misses no slot, or just the one with pipe p. */
  ghost predicate Misses(t: Table, p: Option<Pipe>) {
    match p
    case None => forall i :: !Missed(t, i)
    case Some(pipe) => exists j :: Missed(t, j) && PipeAt(t, j) == pipe && forall i :: Missed(t, i) ==> i == j
  }

  lemma SnapshotExactly(t: Table)
    ensures Snapshot(t) <==> Remembers(t) && Misses(t, None)
  {
    if Misses(t, None) {
      forall i | 0 <= i < |t.list| && Live(t, i)
        ensures i in t.record
      {
        assert !Missed(t, i);
      }
    }
  }

  /** The pipe that a line leaves in a new slot. */
  ghost function PipeOf(x: Turn): Option<Pipe> {
    if LineFormed(x) && AddsNumbered(x) then Some(Pipe(x.fd1, x.fd0)) else None
  }

  /** After its line the snapshot misses exactly the slot that the line filled. */
  lemma LineMisses(s: Server, x: Turn)
    requires Inv(s) && TypedAt(s, x) && x.t' == TableAfterLine(x)
    ensures Remembers(x.t') && Misses(x.t', PipeOf(x))
  {
    assert Ok(s.tables[x.u.me]);
    CountDownOk(s.tables[x.u.me]);
    hide Inv, CountDown, Resolved, Ok;
    var i := x.t.minInput;
    assert i !in x.t.record;
    if AddsNumbered(x) {
      assert forall j :: 0 <= j < |x.t.list| && j != i ==> x.t'.list[j] == x.t.list[j];
      assert Missed(x.t', i) && PipeAt(x.t', i) == Pipe(x.fd1, x.fd0);
      assert forall j :: Missed(x.t', j) ==> j == i || Missed(x.t, j);
    }
    SnapshotExactly(x.t);
  }

  /** What a client's table is like between lines; an id that nobody has is not looked at. */
  ghost predicate Between(s: Server, c: nat, p: Option<Pipe>) {
    && Formed(s)
    && if Client(s, c) then Remembers(s.tables[c]) && Misses(s.tables[c], p) else p == None
  }

  /** The pipe that c's last line left in a new slot, if it did and c is still there. */
  ghost function Piped(e: Event, c: nat, before: Option<Pipe>): Option<Pipe> {
    match e
    case LogOut(d) => if d == c then None else before
    case BuiltIn(d) => if d == c then None else before
    case RunSingle(x, _, _, _) => if x.u.me == c then PipeOf(x) else before
    case RunPipeline(x) => if x.u.me == c then PipeOf(x) else before
    case _ => before
  }

  lemma LogInBetween(s: Server, fd: int, slots: nat, c: nat, p: Option<Pipe>)
    requires Good(s) && Between(s, c, p) && Step(s, LogIn(fd, slots), LoggedIn(s, fd, slots))
    ensures Formed(LoggedIn(s, fd, slots)) ==> Between(LoggedIn(s, fd, slots), c, p)
  {
    if c == s.minId { assert forall i :: !Missed(Initial(slots), i); }
    hide Inv;
  }

  lemma CountedBetween(s: Server, d: nat, c: nat, p: Option<Pipe>)
    requires Good(s) && Client(s, d) && Between(s, c, p)
    ensures Between(CountedServer(s, d), c, if c == d then None else p)
  {
    BuiltInGood(s, d);
    if c == d { SnapshotExactly(CountedServer(s, d).tables[c]); }
    hide Good, CountDown, Snapshot;
    assert forall i :: 0 <= i < |s.tables| && i != d ==> CountedServer(s, d).tables[i] == s.tables[i];
  }

  lemma LeftBetween(s: Server, d: nat, c: nat, p: Option<Pipe>)
    requires Good(s) && Client(s, d) && Snapshot(s.tables[d]) && Between(s, c, p)
    ensures Between(LoggedOut(s, d), c, if c == d then None else p)
  {
    LogoutFormed(s, d);
    hide Good, LeaverFds, ColumnCleared;
  }

  lemma LineBetween(s: Server, e: Event, s': Server, c: nat, p: Option<Pipe>)
    requires Good(s) && Step(s, e, s') && IsLine(e) && Between(s, c, p)
    ensures Between(s', c, if e.x.u.me == c then PipeOf(e.x) else p)
  {
    LineEffect(s, e, s');
    GoodIsInv(s);
    AfterIsFormed(s, e.x, e.RunPipeline?);
    hide Good, Inv, FdsAfter, GainedEnds, LineKinds, Gained, InputFds;
    if e.x.u.me == c { LineMisses(s, e.x); }
    hide TypedAt, PipeOf, TableAfterLine;
  }

  /** Every step keeps it. */
  lemma StepBetween(s: Server, e: Event, s': Server, c: nat, p: Option<Pipe>)
    requires Good(s) && Good(s') && Step(s, e, s') && Between(s, c, p)
    ensures Between(s', c, Piped(e, c, p))
  {
    hide Good, Between;
    GoodIsInv(s');
    if IsLine(e) {
      LineBetween(s, e, s', c, p);
    } else if e.LogIn? {
      LogInBetween(s, e.fd, e.slots, c, p);
    } else if e.BuiltIn? {
      CountedBetween(s, e.client, c, p);
    } else if e.LogOut? {
      BuiltInGood(s, e.client);
      CountedBetween(s, e.client, c, p);
      LeftBetween(CountedServer(s, e.client), e.client, c, if c == e.client then None else p);
    } else {
      EndedBetween(s, e.command, c, p);
    }
  }

  lemma EndedBetween(s: Server, k: nat, c: nat, p: Option<Pipe>)
    requires Between(s, c, p) && k < |s.children|
    ensures Between(AfterEnd(s, k), c, p)
  {
  }

  /** The books are good, and no snapshot has a slot that is free. */
  ghost predicate Kept(s: Server) {
    Good(s) && forall c: nat :: Client(s, c) ==> Remembers(s.tables[c])
  }

  lemma BootKept(n: nat)
    requires n >= 2
    ensures Kept(Booted(n))
  {
    BootedGood(n);
  }

  lemma BuiltInKept(s: Server, c: nat)
    requires Kept(s) && Client(s, c)
    ensures Kept(CountedServer(s, c)) && Snapshot(CountedServer(s, c).tables[c])
  {
    BuiltInGood(s, c);
    SnapshotExactly(CountedServer(s, c).tables[c]);
    hide Good, CountDown, Snapshot;
    assert forall i :: 0 <= i < |s.tables| && i != c ==> CountedServer(s, c).tables[i] == s.tables[i];
  }

  lemma LogOutKept(s: Server, c: nat)
    requires Kept(s) && Client(s, c) && Snapshot(s.tables[c])
    ensures Kept(LoggedOut(s, c))
  {
    LogOutGood(s, c);
    hide Good, LeaverFds, ColumnCleared;
  }

  lemma LineKept(s: Server, e: Event, s': Server)
    requires Kept(s) && Step(s, e, s') && IsLine(e) && Good(s')
    ensures Kept(s')
  {
    LineEffect(s, e, s');
    GoodIsInv(s);
    AfterIsFormed(s, e.x, e.RunPipeline?);
    hide Good, Inv, FdsAfter, GainedEnds, LineKinds, Gained, InputFds;
    LineMisses(s, e.x);
    hide TypedAt, TableAfterLine;
  }

  lemma StepKeepsKept(s: Server, e: Event, s': Server)
    requires Kept(s) && Step(s, e, s') && Room(s')
    ensures Kept(s')
  {
    StepKeepsGood(s, e, s');
    hide Good, Room;
    if IsLine(e) {
      LineKept(s, e, s');
    } else if e.LogOut? {
      BuiltInKept(s, e.client);
      LogOutKept(CountedServer(s, e.client), e.client);
    } else if e.BuiltIn? {
      BuiltInKept(s, e.client);
    } else {
      OtherKept(s, e, s');
    }
  }

  lemma OtherKept(s: Server, e: Event, s': Server)
    requires Kept(s) && Step(s, e, s') && (e.LogIn? || e.Ended?) && Good(s')
    ensures Kept(s')
  {
    hide Good;
  }

  // ---- Hanging up ----

  /** A descriptor of a slot that the snapshot misses. */
  predicate InMissedSlot(s: Server, c: nat, i: int, f: int)
    requires Formed(s)
  {
    InSlot(s, c, i, f) && Missed(s.tables[c], i)
  }

  /** Hanging up closes all that is listed for the client but the slots that the snapshot misses. */
  lemma HangUpCloses(s: Server, c: nat, f: int)
    requires Inv(s) && Client(s, c) && Remembers(s.tables[c]) && f in s.fds
    ensures f in LeaverFds(s, c) <==> ListedFor(s, c, f) && !exists i :: InMissedSlot(s, c, i, f)
  {
    ListedExactly(s, c, f);
    hide ListedFor;
    assert RoleOk(s, f) && ClientOwns(s, c);
    UserPipeFdBy(s.userPipe, c, |s.state|, f);
    if i :| InMissedSlot(s, c, i, f) { assert SlotOwned(s, c, i); }
    if f in RecordedFds(s.tables[c], -1, |s.tables[c].record|) {
      var k := RecordedBy(s.tables[c], -1, |s.tables[c].record|, f);
      assert SlotOwned(s, c, s.tables[c].record[k]);
    }
    if f in UserPipeFds(s.userPipe, c, |s.state|) {
      var i :| 1 <= i < |s.state| && f >= 0 && (s.userPipe[c][i] == f || s.userPipe[i][c] == f);
      assert HasRole(s, f, FromUser(c, i)) || HasRole(s, f, FromUser(i, c));
    }
    if OfClient(s.role[f], c) { ClosedOrMissed(s, c, f); }
  }

  lemma ClosedOrMissed(s: Server, c: nat, f: int)
    requires Inv(s) && Client(s, c) && Remembers(s.tables[c]) && f in s.role && RoleOk(s, f) && OfClient(s.role[f], c)
    ensures f in LeaverFds(s, c) || exists i :: InMissedSlot(s, c, i, f)
  {
    var t := s.tables[c];
    UserPipeFdBy(s.userPipe, c, |s.state|, f);
    if s.role[f].NumWrite? || s.role[f].NumRead? {
      if s.role[f].slot in t.record {
        var k :| 0 <= k < |t.record| && t.record[k] == s.role[f].slot;
        RecordedHas(t, -1, |t.record|, k);
      } else {
        assert InMissedSlot(s, c, s.role[f].slot, f);
      }
    } else if s.role[f].FromUser? {
      assert s.userPipe[s.role[f].to][s.role[f].from] == f;
    }
  }

  lemma MissedIs(s: Server, c: nat, p: Option<Pipe>, f: int)
    requires Formed(s) && Client(s, c) && Misses(s.tables[c], p)
    ensures (exists i :: InMissedSlot(s, c, i, f)) <==> p.Some? && (f == p.value.writeFd || f == p.value.readFd)
  {
    if p.Some? {
      var j :| Missed(s.tables[c], j) && PipeAt(s.tables[c], j) == p.value;
      assert InMissedSlot(s, c, j, p.value.writeFd) && InMissedSlot(s, c, j, p.value.readFd);
    }
  }

  lemma HungUpFormed(s: Server, c: nat)
    requires Formed(s) && Client(s, c) && RecordInRange(s.tables[c])
    ensures Formed(LoggedOut(s, c))
  {
    hide LeaverFds;
    assert LoggedOut(s, c).role.Keys == s.role.Keys - LeaverFds(s, c);
    assert LoggedOut(s, c).fds.Keys == s.fds.Keys - LeaverFds(s, c);
  }

  /** What is listed afterwards was listed before, for another client. */
  lemma HungUpLists(s: Server, c: nat, d: int, f: int)
    requires Inv(s) && Client(s, c) && RecordInRange(s.tables[c]) && Formed(LoggedOut(s, c)) && f > 2
    requires ListedFor(LoggedOut(s, c), d, f)
    ensures d != c && ListedFor(s, d, f)
  {
    var s' := LoggedOut(s, c);
    assert Formed(s);
    hide LeaverFds, ColumnCleared, Inv;
    if i :| InSlot(s', d, i, f) { assert InSlot(s, d, i, f); }
    if i :| InMatrix(s', d, i, f) { assert InMatrix(s, d, i, f); }
    if i :| InMatrix(s', i, d, f) {
      assert InMatrix(s, i, d, f);
      UserPipesAreApart(s, i, d);
    }
  }

  lemma SlotsAreTheirs(s: Server, c: nat, f: int)
    requires Inv(s) && f in s.fds && exists i :: InMissedSlot(s, c, i, f)
    ensures f > 2 && forall d: int :: ListedFor(s, d, f) ==> d == c
  {
    var i :| InMissedSlot(s, c, i, f);
    assert SlotOwned(s, c, i) && RoleOk(s, f);
    hide ListedFor;
    forall d: int | ListedFor(s, d, f)
      ensures d == c
    {
      ListedExactly(s, d, f);
    }
  }

  /** What stays open of a missed slot nothing lists any more. */
  lemma MissedIsUnlisted(s: Server, c: nat, f: int)
    requires Inv(s) && Client(s, c) && Remembers(s.tables[c]) && f in s.fds && exists i :: InMissedSlot(s, c, i, f)
    ensures Unlisted(LoggedOut(s, c), f) && LoggedOut(s, c).fds[f] == s.fds[f]
  {
    HungUpFormed(s, c);
    HangUpCloses(s, c, f);
    SlotsAreTheirs(s, c, f);
    var s' := LoggedOut(s, c);
    hide Inv, ListedFor, LeaverFds, InMissedSlot, Remembers;
    if d :| ListedFor(s', d, f) { HungUpLists(s, c, d, f); }
    assert s'.fds == s.fds - LeaverFds(s, c);
  }

  // ---- Over runs ----

  /** The pipe that the last line of client c left in a new slot. */
  ghost function LastPiped(events: seq<Event>, m: nat, c: nat): Option<Pipe>
    requires m <= |events|
  {
    if m == 0 then None else Piped(events[m - 1], c, LastPiped(events, m - 1, c))
  }

  lemma BootBetween(n: nat, c: nat)
    requires n >= 2
    ensures Between(Booted(n), c, None)
  {
  }

  lemma {:induction false} RunBetween(n: nat, states: seq<Server>, events: seq<Event>, m: nat, c: nat)
    requires RoomyRun(n, states, events) && m < |states| == |events| + 1
    ensures Between(states[m], c, LastPiped(events, m, c))
  {
    hide RoomyRun, Good, Step, Between, Piped;
    if m == 0 {
      RunBoots(n, states, events);
      BootBetween(n, c);
    } else {
      RunBetween(n, states, events, m - 1, c);
      StepOfRun(n, states, events, m - 1);
      StepBetween(states[m - 1], events[m - 1], states[m], c, LastPiped(events, m - 1, c));
    }
  }

  /**
    In every state of every roomy run: when a client hangs up, everything listed for it is
    closed, except both ends of the numbered pipe that its last line made, if that made one.
    They stay open, and nothing lists them.
    */
  lemma HangUpLeavesExactly(n: nat, states: seq<Server>, events: seq<Event>, m: nat, c: nat, f: int)
    requires RoomyRun(n, states, events) && m < |states| == |events| + 1
    requires Formed(states[m]) && Client(states[m], c) && f in states[m].fds
    ensures RecordInRange(states[m].tables[c])
    ensures var s, s', p := states[m], LoggedOut(states[m], c), LastPiped(events, m, c);
            && (f in s'.fds <==>
                !ListedFor(s, c, f) || (p.Some? && (f == p.value.writeFd || f == p.value.readFd)))
            && (f in s'.fds && ListedFor(s, c, f) ==> Unlisted(s', f) && s'.fds[f] == s.fds[f])
  {
    var p := LastPiped(events, m, c);
    RunBetween(n, states, events, m, c);
    RunsKeepTheBooks(n, states, events, m);
    GoodIsInv(states[m]);
    hide RoomyRun, Good, Inv, ListedFor;
    MissedIs(states[m], c, p, f);
    HangUpCloses(states[m], c, f);
    if exists i :: InMissedSlot(states[m], c, i, f) { MissedIsUnlisted(states[m], c, f); }
    hide LeaverFds, Misses, InMissedSlot;
  }
}
