/**
  Logging in and out, lines that start no command, and commands that end: the rest of what
  the select loop of the single-process server does to its books.
  */
module LedgerSession {
  import Hint
  import opened Kernel
  import opened Ledger
  import opened Pipeline
  import opened SlotTable

  // ---- Logging in: np_single_proc.c:26-40, 227-246 ----

  function LoggedIn(s: Server, fd: int, slots: nat): Server
    requires Formed(s) && s.minId < |s.state|
  {
    var id, state := s.minId, s.state[s.minId := true];
    s.(fds := s.fds[fd := Socket(id)], role := s.role[fd := Sock(id)],
       state := state, sockfd := s.sockfd[id := fd], tables := s.tables[id := Initial(slots)],
       userPipe := s.userPipe[id := seq(|s.state|, i => -1)],
       clientNum := s.clientNum + 1, fdIds := s.fdIds[fd := id],
       minId := match Hint.FirstFree(state, 1) case Some(k) => k case None => id)
  }

  /** The hint names an id nobody has. */
  predicate IdFree(s: Server) {
    s.minId < |s.state| && !s.state[s.minId]
  }

  lemma LoginRoles(s: Server, fd: int, slots: nat)
    requires Inv(s) && 1 <= s.minId && IdFree(s) && slots > 0 && fd > 2 && fd !in s.fds
    ensures Formed(LoggedIn(s, fd, slots)) && Roles(LoggedIn(s, fd, slots))
  {
    var s' := LoggedIn(s, fd, slots);
    assert s'.role.Keys == s'.fds.Keys;
    forall f | f in s'.role
      ensures RoleOk(s', f)
    {
      if f != fd {
        assert f in s.role && RoleOk(s, f);
        hide Inv;
      }
    }
  }

  lemma LoginRecords(s: Server, fd: int, slots: nat)
    requires Inv(s) && 1 <= s.minId && IdFree(s) && slots > 0 && fd > 2 && fd !in s.fds
    requires Formed(LoggedIn(s, fd, slots))
    ensures Recorded(LoggedIn(s, fd, slots))
  {
    var s' := LoggedIn(s, fd, slots);
    InitialOk(slots, 0);
    forall c | Client(s', c)
      ensures ClientOwns(s', c) && Ok(s'.tables[c])
    {
      if c != s.minId { assert ClientOwns(s, c) && Ok(s.tables[c]); }
    }
    forall c, i | Client(s', c) && 0 <= i < |s'.tables[c].list| && Live(s'.tables[c], i)
      ensures SlotOwned(s', c, i)
    {
      assert c != s.minId;
      assert SlotOwned(s, c, i);
    }
    forall to, from | 0 <= to < |s'.userPipe| && 0 <= from < |s'.userPipe[to]| && s'.userPipe[to][from] >= 0
      ensures HasRole(s', s'.userPipe[to][from], FromUser(to, from))
    {
      assert to != s.minId;
      assert HasRole(s, s.userPipe[to][from], FromUser(to, from));
    }
  }

  lemma LoginKeepsInv(s: Server, fd: int, slots: nat)
    requires Inv(s) && 1 <= s.minId && IdFree(s) && slots > 0 && fd > 2 && fd !in s.fds
    ensures Inv(LoggedIn(s, fd, slots))
  {
    var s' := LoggedIn(s, fd, slots);
    LoginRoles(s, fd, slots);
    LoginRecords(s, fd, slots);
    assert Once(s');
    forall k, f | 0 <= k < |s'.children| && f in s'.children[k].fds
      ensures ChildEnd(s', k, f)
    {
      assert ChildEnd(s, k, f);
    }
  }

  // ---- A line that starts no command ----

  /**
    A built-in line, or a pipeline whose `> file` cannot be opened, only counts the line. A
    pipe that this line should have read is no longer in the table, but still open.
    */
  function CountedServer(s: Server, c: nat): Server
    requires Formed(s) && Client(s, c)
  {
    var t1 := Counted(s, c);
    var counted := s.(tables := s.tables[c := t1]);
    if t1.outputPoint < 0 || t1.outputPoint >= |t1.list| then counted
    else
      var slot := t1.list[t1.outputPoint];
      counted.(role := s.role[slot.writeFd := Lost(c, Expired)][slot.readFd := Lost(c, Expired)],
               kinds := if slot.readFd in s.fds && IsPipe(s.fds[slot.readFd]) && s.fds[slot.readFd].pipe < |s.kinds|
                        then s.kinds[s.fds[slot.readFd].pipe := Lapsed(c)] else s.kinds)
  }

  /** The slot that runs out on this line. */
  lemma ExpiredSlot(s: Server, c: nat)
    requires Inv(s) && Client(s, c) && Counted(s, c).outputPoint >= 0
    ensures var t1 := Counted(s, c);
            && t1.outputPoint < |t1.list| == |s.tables[c].list| && Live(s.tables[c], t1.outputPoint)
            && !Live(t1, t1.outputPoint)
            && SlotOwned(s, c, t1.outputPoint)
            && t1.list[t1.outputPoint].writeFd == s.tables[c].list[t1.outputPoint].writeFd
            && t1.list[t1.outputPoint].readFd == s.tables[c].list[t1.outputPoint].readFd
    ensures var slot := Counted(s, c).list[Counted(s, c).outputPoint];
            && slot.writeFd in s.fds && slot.readFd in s.fds && slot.readFd > 2 && slot.writeFd > 2
            && s.fds[slot.readFd].ReadEnd? && KindIs(s, s.fds[slot.readFd], Numbered(c))
            && s.fds[slot.writeFd] == WriteEnd(s.fds[slot.readFd].pipe)
  {
    var t := s.tables[c];
    assert Ok(t);
    ExpiredInRange(t.list, |t.list|);
    OutputPointIsNotLive(t);
    SlotBefore(s, c, Counted(s, c).outputPoint);
    assert PipeAt(Counted(s, c), Counted(s, c).outputPoint) == PipeAt(t, Counted(s, c).outputPoint);
    assert RoleOk(s, t.list[Counted(s, c).outputPoint].writeFd) && RoleOk(s, t.list[Counted(s, c).outputPoint].readFd);
  }

  /** No other descriptor is an end of the pipe of the slot that runs out. */
  lemma OnlyItsEnds(s: Server, c: nat, f: int)
    requires Inv(s) && Client(s, c) && Counted(s, c).outputPoint >= 0 && f in s.fds && IsPipe(s.fds[f])
    requires Counted(s, c).outputPoint < |Counted(s, c).list|
    requires f != Counted(s, c).list[Counted(s, c).outputPoint].writeFd
             && f != Counted(s, c).list[Counted(s, c).outputPoint].readFd
    ensures Counted(s, c).list[Counted(s, c).outputPoint].readFd in s.fds
    ensures IsPipe(s.fds[Counted(s, c).list[Counted(s, c).outputPoint].readFd])
    ensures s.fds[f].pipe != s.fds[Counted(s, c).list[Counted(s, c).outputPoint].readFd].pipe
  {
    ExpiredSlot(s, c);
    var slot := Counted(s, c).list[Counted(s, c).outputPoint];
    assert s.fds[f] != s.fds[slot.readFd] && s.fds[f] != s.fds[slot.writeFd];
  }

  /** Which slots are live after counting. */
  lemma CountedSlots(s: Server, c: nat, i: nat)
    requires Inv(s) && Client(s, c) && i < |s.tables[c].list|
    ensures |Counted(s, c).list| == |s.tables[c].list| && PipeAt(Counted(s, c), i) == PipeAt(s.tables[c], i)
    ensures Live(Counted(s, c), i) <==> Live(s.tables[c], i) && i != Counted(s, c).outputPoint
  {
    var t := s.tables[c];
    assert Ok(t);
    OneExpires(t, i);
    ExpiredInRange(t.list, |t.list|);
    assert Counted(s, c).list[i] == Ticked(t.list[i]);
  }

  lemma CountedFormed(s: Server, c: nat)
    requires Inv(s) && Client(s, c)
    ensures Formed(CountedServer(s, c))
  {
    if Counted(s, c).outputPoint >= 0 { ExpiredSlot(s, c); }
    hide Inv, CountDown;
    assert CountedServer(s, c).role.Keys == s.role.Keys;
  }

  predicate IsExpiredEnd(s: Server, c: nat, f: int)
    requires Formed(s) && Client(s, c)
  {
    var t1 := Counted(s, c);
    0 <= t1.outputPoint < |t1.list| && (f == t1.list[t1.outputPoint].writeFd || f == t1.list[t1.outputPoint].readFd)
  }

  lemma ExpiredRole(s: Server, c: nat, f: int)
    requires Inv(s) && Client(s, c) && Formed(CountedServer(s, c)) && IsExpiredEnd(s, c, f)
    ensures HasRole(CountedServer(s, c), f, Lost(c, Expired)) && RoleOk(CountedServer(s, c), f)
  {
    ExpiredSlot(s, c);
    hide Inv, CountDown, SlotOwned;
  }

  /** Counting leaves the roles and the kinds behind all other descriptors alone. */
  lemma OtherEndKept(s: Server, c: nat, f: int)
    requires Inv(s) && Client(s, c) && f in s.role && !IsExpiredEnd(s, c, f)
    ensures f in CountedServer(s, c).role && CountedServer(s, c).role[f] == s.role[f]
    ensures |CountedServer(s, c).kinds| == |s.kinds|
    ensures IsPipe(s.fds[f]) && s.fds[f].pipe < |s.kinds| ==>
              CountedServer(s, c).kinds[s.fds[f].pipe] == s.kinds[s.fds[f].pipe]
  {
    if Counted(s, c).outputPoint >= 0 {
      ExpiredSlot(s, c);
      if IsPipe(s.fds[f]) { OnlyItsEnds(s, c, f); }
    }
    hide Inv, CountDown, SlotOwned;
  }

  /** The slot behind a descriptor stays live unless it is the one that runs out. */
  lemma OtherSlotKept(s: Server, c: nat, f: int, i: nat)
    requires Inv(s) && Client(s, c) && i < |s.tables[c].list| && Live(s.tables[c], i) && !IsExpiredEnd(s, c, f)
    requires f == s.tables[c].list[i].writeFd || f == s.tables[c].list[i].readFd
    ensures i < |Counted(s, c).list| && Live(Counted(s, c), i) && PipeAt(Counted(s, c), i) == PipeAt(s.tables[c], i)
  {
    CountedSlots(s, c, i);
    hide Inv, CountDown;
  }

  lemma OtherRole(s: Server, c: nat, f: int)
    requires Inv(s) && Client(s, c) && Formed(CountedServer(s, c)) && f in s.role && !IsExpiredEnd(s, c, f)
    ensures RoleOk(CountedServer(s, c), f)
  {
    OtherEndKept(s, c, f);
    assert RoleOk(s, f);
    hide Inv, CountDown, SlotOwned, IsExpiredEnd;
    match s.role[f]
    case NumWrite(d, i) => if d == c { OtherSlotKept(s, c, f, i); }
    case NumRead(d, i) => if d == c { OtherSlotKept(s, c, f, i); }
    case _ =>
  }

  lemma CountedSlotOwned(s: Server, c: nat, d: nat, i: nat)
    requires Inv(s) && Client(s, c) && Formed(CountedServer(s, c)) && Client(s, d)
    requires i < |CountedServer(s, c).tables[d].list| && Live(CountedServer(s, c).tables[d], i)
    ensures SlotOwned(CountedServer(s, c), d, i)
  {
    if d == c { CountedSlots(s, c, i); }
    assert SlotOwned(s, d, i);
    assert !IsExpiredEnd(s, c, s.tables[d].list[i].writeFd) && !IsExpiredEnd(s, c, s.tables[d].list[i].readFd) by {
      if Counted(s, c).outputPoint >= 0 { ExpiredSlot(s, c); }
      hide Inv, CountDown;
    }
    OtherEndKept(s, c, s.tables[d].list[i].writeFd);
    OtherEndKept(s, c, s.tables[d].list[i].readFd);
    assert PipeAt(CountedServer(s, c).tables[d], i) == PipeAt(s.tables[d], i);
    hide Inv, CountDown, IsExpiredEnd, Formed;
  }

  lemma CountedRecords(s: Server, c: nat)
    requires Inv(s) && Client(s, c) && Formed(CountedServer(s, c))
    ensures Recorded(CountedServer(s, c))
  {
    var s' := CountedServer(s, c);
    var t1 := Counted(s, c);
    assert Ok(s.tables[c]);
    CountDownOk(s.tables[c]);
    ExpiredInRange(s.tables[c].list, |s.tables[c].list|);
    if t1.outputPoint >= 0 { ExpiredSlot(s, c); }
    forall d | Client(s', d)
      ensures ClientOwns(s', d) && Ok(s'.tables[d])
    {
      assert ClientOwns(s, d) && Ok(s.tables[d]);
    }
    hide CountDown, SlotOwned;
    forall d, i | Client(s', d) && 0 <= i < |s'.tables[d].list| && Live(s'.tables[d], i)
      ensures SlotOwned(s', d, i)
    {
      CountedSlotOwned(s, c, d, i);
    }
  }

  /**
    Counting keeps the books, closes nothing, and leaves both ends of a pipe that runs out open
    with nothing that lists them.
    */
  lemma CountedKeepsInv(s: Server, c: nat)
    requires Inv(s) && Client(s, c)
    ensures Inv(CountedServer(s, c))
    ensures Snapshot(CountedServer(s, c).tables[c])
    ensures CountedServer(s, c).fds == s.fds
    ensures forall f :: IsExpiredEnd(s, c, f) ==> f in s.fds && Listed(s, f) && !Listed(CountedServer(s, c), f)
  {
    CountedIsInv(s, c);
    forall f | IsExpiredEnd(s, c, f)
      ensures f in s.fds && Listed(s, f) && !Listed(CountedServer(s, c), f)
    {
      ExpiredRole(s, c, f);
      ExpiredSlot(s, c);
      UnlistedExactly(s, f);
      UnlistedExactly(CountedServer(s, c), f);
    }
    hide Inv, Listed, IsExpiredEnd, Snapshot, CountDown;
  }

  lemma CountedIsInv(s: Server, c: nat)
    requires Inv(s) && Client(s, c)
    ensures Inv(CountedServer(s, c))
    ensures Snapshot(CountedServer(s, c).tables[c])
    ensures CountedServer(s, c).fds == s.fds
  {
    var s' := CountedServer(s, c);
    CountedFormed(s, c);
    CountedRecords(s, c);
    CountDownSnapshot(s.tables[c]);
    if Counted(s, c).outputPoint >= 0 { ExpiredSlot(s, c); }
    forall f | f in s'.role
      ensures RoleOk(s', f)
    {
      if IsExpiredEnd(s, c, f) { ExpiredRole(s, c, f); } else { OtherRole(s, c, f); }
    }
    forall k, f | 0 <= k < |s'.children| && f in s'.children[k].fds
      ensures ChildEnd(s', k, f)
    {
      assert ChildEnd(s, k, f);
    }
    hide CountDown, RoleOk, Recorded, ChildEnd, SlotOwned, Snapshot;
  }

  // ---- Logging out: np_single_proc.c:49-61, 248-272 ----

  /** The user pipes to and from client c that the loop over ids closes, up to id n. */
  function UserPipeFds(userPipe: seq<seq<int>>, c: nat, n: nat): set<int>
    requires Square(userPipe) && c < |userPipe| && n <= |userPipe|
  {
    if n <= 1 then {}
    else UserPipeFds(userPipe, c, n - 1)
         + (if userPipe[c][n - 1] >= 0 then {userPipe[c][n - 1]} else {})
         + (if userPipe[n - 1][c] >= 0 then {userPipe[n - 1][c]} else {})
  }

  predicate Square(m: seq<seq<int>>) {
    forall i :: 0 <= i < |m| ==> |m[i]| == |m|
  }

  /** The matrix once the ids below n have been gone through: no pipe from client c to them. */
  function ColumnCleared(userPipe: seq<seq<int>>, c: nat, n: nat): (m: seq<seq<int>>)
    requires n <= |userPipe| && forall i :: 0 <= i < |userPipe| ==> c < |userPipe[i]|
    ensures |m| == |userPipe| && forall i :: 0 <= i < |m| ==> |m[i]| == |userPipe[i]|
    ensures forall i, j :: 0 <= i < |m| && 0 <= j < |m[i]| ==>
              m[i][j] == (if 1 <= i < n && j == c && userPipe[i][j] >= 0 then -1 else userPipe[i][j])
  {
    if n <= 1 then userPipe
    else
      var m := ColumnCleared(userPipe, c, n - 1);
      if m[n - 1][c] >= 0 then m[n - 1 := m[n - 1][c := -1]] else m
  }

  /** What the server closes for a client that leaves after its line was counted. */
  function LeaverFds(s: Server, c: nat): set<int>
    requires Formed(s) && Client(s, c) && RecordInRange(s.tables[c])
  {
    {s.sockfd[c]} + RecordedFds(s.tables[c], -1, |s.tables[c].record|) + UserPipeFds(s.userPipe, c, |s.state|)
  }

  function LoggedOut(s: Server, c: nat): Server
    requires Formed(s) && Client(s, c) && RecordInRange(s.tables[c])
  {
    var n := |s.state|;
    s.(fds := s.fds - LeaverFds(s, c), role := s.role - LeaverFds(s, c),
       state := s.state[c := false], sockfd := s.sockfd[c := -1],
       userPipe := ColumnCleared(s.userPipe, c, n)[c := seq(n, i => -1)],
       clientNum := s.clientNum - 1, fdIds := s.fdIds - {s.sockfd[c]},
       minId := if c < s.minId then c else s.minId)
  }

  lemma {:induction false} UserPipeFdBy(userPipe: seq<seq<int>>, c: nat, n: nat, f: int)
    requires Square(userPipe) && c < |userPipe| && n <= |userPipe|
    ensures f in UserPipeFds(userPipe, c, n) <==>
            exists i :: 1 <= i < n && f >= 0 && (userPipe[c][i] == f || userPipe[i][c] == f)
  {
    if n > 1 { UserPipeFdBy(userPipe, c, n - 1, f); }
  }

  /** The server closes exactly what it holds for the leaver. */
  lemma LeaverFdsExactly(s: Server, c: nat, f: int)
    requires Inv(s) && Client(s, c) && Snapshot(s.tables[c]) && f in s.role
    ensures f in LeaverFds(s, c) <==> OfClient(s.role[f], c)
    ensures f in LeaverFds(s, c) <==> ListedFor(s, c, f)
  {
    ListedExactly(s, c, f);
    hide ListedFor;
    var t := s.tables[c];
    assert RoleOk(s, f) && ClientOwns(s, c);
    UserPipeFdBy(s.userPipe, c, |s.state|, f);
    if f in RecordedFds(t, -1, |t.record|) {
      var k := RecordedBy(t, -1, |t.record|, f);
      assert SlotOwned(s, c, t.record[k]);
    }
    if f in UserPipeFds(s.userPipe, c, |s.state|) {
      var i :| 1 <= i < |s.state| && f >= 0 && (s.userPipe[c][i] == f || s.userPipe[i][c] == f);
      assert HasRole(s, f, FromUser(c, i)) || HasRole(s, f, FromUser(i, c));
    }
    if OfClient(s.role[f], c) { LeaverHolds(s, c, f); }
  }

  lemma LeaverHolds(s: Server, c: nat, f: int)
    requires Inv(s) && Client(s, c) && Snapshot(s.tables[c]) && f in s.role && RoleOk(s, f) && OfClient(s.role[f], c)
    ensures f in LeaverFds(s, c)
  {
    var t := s.tables[c];
    UserPipeFdBy(s.userPipe, c, |s.state|, f);
    if s.role[f].NumWrite? || s.role[f].NumRead? {
      var k :| 0 <= k < |t.record| && t.record[k] == s.role[f].slot;
      RecordedHas(t, -1, |t.record|, k);
    } else if s.role[f].FromUser? {
      assert s.userPipe[s.role[f].to][s.role[f].from] == f;
    }
  }

  lemma LogoutFormed(s: Server, c: nat)
    requires Inv(s) && Client(s, c) && Snapshot(s.tables[c])
    ensures Formed(LoggedOut(s, c))
  {
    var s', gone := LoggedOut(s, c), LeaverFds(s, c);
    hide LeaverFds, Inv, Roles, Recorded;
    assert Formed(s) by { assert Inv(s); }
    assert s'.role.Keys == s.role.Keys - gone;
    assert s'.fds.Keys == s.fds.Keys - gone;
  }

  lemma LogoutRole(s: Server, c: nat, f: int)
    requires Inv(s) && Client(s, c) && Snapshot(s.tables[c]) && Formed(LoggedOut(s, c)) && f in LoggedOut(s, c).role
    ensures f in s.role && !OfClient(s.role[f], c) && RoleOk(LoggedOut(s, c), f)
  {
    assert f in s.role && f !in LeaverFds(s, c);
    LeaverFdsExactly(s, c, f);
    assert RoleOk(s, f);
    hide LeaverFds, Inv, Snapshot;
  }

  lemma RoleOutlives(s: Server, c: nat, f: int, r: Role)
    requires Inv(s) && Client(s, c) && Snapshot(s.tables[c]) && HasRole(s, f, r) && !OfClient(r, c)
    ensures HasRole(LoggedOut(s, c), f, r) && f in s.fds && f in LoggedOut(s, c).fds
            && LoggedOut(s, c).fds[f] == s.fds[f]
  {
    LeaverFdsExactly(s, c, f);
    hide LeaverFds;
  }

  lemma LogoutSlotOwned(s: Server, c: nat, d: nat, i: nat)
    requires Inv(s) && Client(s, c) && Snapshot(s.tables[c]) && Formed(LoggedOut(s, c)) && Client(s, d) && d != c
    requires i < |s.tables[d].list| && Live(s.tables[d], i)
    ensures SlotOwned(LoggedOut(s, c), d, i)
  {
    assert SlotOwned(s, d, i);
    RoleOutlives(s, c, s.tables[d].list[i].writeFd, NumWrite(d, i));
    RoleOutlives(s, c, s.tables[d].list[i].readFd, NumRead(d, i));
    hide LeaverFds, Inv, Formed;
  }

  lemma LogoutRecords(s: Server, c: nat)
    requires Inv(s) && Client(s, c) && Snapshot(s.tables[c]) && Formed(LoggedOut(s, c))
    ensures Recorded(LoggedOut(s, c))
  {
    var s' := LoggedOut(s, c);
    RoleOutlives(s, c, STDIN, Std);
    RoleOutlives(s, c, STDOUT, Std);
    RoleOutlives(s, c, STDERR, Std);
    forall d | Client(s', d)
      ensures ClientOwns(s', d) && Ok(s'.tables[d])
    {
      assert ClientOwns(s, d) && Ok(s.tables[d]);
      RoleOutlives(s, c, s.sockfd[d], Sock(d));
    }
    forall d, i | Client(s', d) && 0 <= i < |s'.tables[d].list| && Live(s'.tables[d], i)
      ensures SlotOwned(s', d, i)
    {
      LogoutSlotOwned(s, c, d, i);
    }
    forall to, from | 0 <= to < |s'.userPipe| && 0 <= from < |s'.userPipe[to]| && s'.userPipe[to][from] >= 0
      ensures HasRole(s', s'.userPipe[to][from], FromUser(to, from))
    {
      LogoutUserPipe(s, c, to, from);
    }
    hide LeaverFds;
  }

  /** What is left of the matrix joins other clients. */
  lemma LogoutUserPipe(s: Server, c: nat, to: nat, from: nat)
    requires Inv(s) && Client(s, c) && Snapshot(s.tables[c])
    requires to < |s.state| && from < |s.state| && LoggedOut(s, c).userPipe[to][from] >= 0
    ensures to != c && from != c && s.userPipe[to][from] == LoggedOut(s, c).userPipe[to][from]
    ensures HasRole(LoggedOut(s, c), s.userPipe[to][from], FromUser(to, from))
  {
    assert to != c;
    assert s.userPipe[to][from] == LoggedOut(s, c).userPipe[to][from];
    assert HasRole(s, s.userPipe[to][from], FromUser(to, from)) && RoleOk(s, s.userPipe[to][from]);
    assert to >= 1;
    RoleOutlives(s, c, s.userPipe[to][from], FromUser(to, from));
  }

  lemma LogoutKeepsInv(s: Server, c: nat)
    requires Inv(s) && Client(s, c) && Snapshot(s.tables[c])
    ensures Inv(LoggedOut(s, c))
  {
    var s' := LoggedOut(s, c);
    LogoutFormed(s, c);
    LogoutRecords(s, c);
    forall f | f in s'.role
      ensures RoleOk(s', f)
    {
      LogoutRole(s, c, f);
    }
    forall k, f | 0 <= k < |s'.children| && f in s'.children[k].fds
      ensures ChildEnd(s', k, f)
    {
      assert ChildEnd(s, k, f);
    }
    hide LeaverFds, RoleOk, Recorded;
  }

  /**
    A client that leaves takes with it exactly the open descriptors that the client table
    lists for it: its socket, the ends of its live slots, and the user pipes to it and from
    it. What is no longer listed, as the ends of a pipe that ran out on a line without an
    external command, stays open (see module LedgerLeaks).
    */
  lemma NothingOfLeaverRemains(s: Server, c: nat, f: int)
    requires Inv(s) && Client(s, c) && Snapshot(s.tables[c])
    ensures forall i :: 0 <= i < |s.state| ==> LoggedOut(s, c).userPipe[c][i] < 0 && LoggedOut(s, c).userPipe[i][c] < 0
    ensures f in s.fds ==> (f in LoggedOut(s, c).fds <==> !ListedFor(s, c, f))
    ensures f in LoggedOut(s, c).fds ==>
              var e := LoggedOut(s, c).fds[f];
              && e != Socket(c) && !KindIs(s, e, Numbered(c))
              && forall i :: 0 <= i < |s.state| ==> !KindIsUser(s, e, c, i) && !KindIsUser(s, e, i, c)
  {
    LogoutKeepsInv(s, c);
    forall i | 0 <= i < |s.state|
      ensures LoggedOut(s, c).userPipe[c][i] < 0 && LoggedOut(s, c).userPipe[i][c] < 0
    {
      if LoggedOut(s, c).userPipe[i][c] >= 0 { LogoutUserPipe(s, c, i, c); }
    }
    if f in LoggedOut(s, c).fds {
      assert f in LoggedOut(s, c).role;
      LogoutRole(s, c, f);
      assert RoleOk(s, f);
    }
    if f in s.fds {
      ListedExactly(s, c, f);
      LeaverFdsExactly(s, c, f);
    }
    hide LeaverFds, Inv, ListedFor;
  }
}
