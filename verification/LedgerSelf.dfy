/**
  `<me >me` as a command on its own, with a pipe from the client to itself: single_cmd stores
  and closes whatever its array `fd` happened to hold. Exactly when the client table is still
  true of the open descriptors after that.
  */
module LedgerSelf {
  import opened Kernel
  import opened Ledger
  import opened LedgerCommands
  import opened LedgerLine
  import opened LedgerRuns
  import opened Pipeline
  import opened SlotTable
  import opened Wiring

  // ---- Books without a ledger ----

  /** Why the client table has a descriptor. */
  datatype Reason =
    | AsSocket(client: int)
    | AsWriteEnd(client: int, slot: int)
    | AsReadEnd(client: int, slot: int)
    | AsUserPipe(to: int, from: int)

  predicate Has(s: Server, r: Reason, f: int)
    requires Formed(s)
  {
    match r
    case AsSocket(c) => Client(s, c) && s.sockfd[c] == f
    case AsWriteEnd(c, i) => InSlot(s, c, i, f) && s.tables[c].list[i].writeFd == f
    case AsReadEnd(c, i) => InSlot(s, c, i, f) && s.tables[c].list[i].readFd == f
    case AsUserPipe(to, from) => InMatrix(s, to, from, f) && f >= 0
  }

  /** The descriptor is open on what the client table takes it for. */
  predicate Fits(s: Server, r: Reason, f: int)
    requires Formed(s) && Has(s, r, f)
  {
    && f > 2 && f in s.fds
    && match r
       case AsSocket(c) => s.fds[f] == Socket(c)
       case AsWriteEnd(c, i) => s.fds[f].WriteEnd? && HasEnd(s.fds, s.tables[c].list[i].readFd, ReadEnd(s.fds[f].pipe))
       case AsReadEnd(c, i) => s.fds[f].ReadEnd? && HasEnd(s.fds, s.tables[c].list[i].writeFd, WriteEnd(s.fds[f].pipe))
       case AsUserPipe(to, from) => Client(s, to) && Client(s, from) && s.fds[f].ReadEnd?
  }

  /**
    The client table is true: the standard descriptors are open, every descriptor in the table
    is open on what the table says, and none is in it twice. Roles and kinds play no part.
    */
  ghost predicate BooksHold(s: Server)
    requires Formed(s)
  {
    && HasEnd(s.fds, STDIN, Console) && HasEnd(s.fds, STDOUT, Console) && HasEnd(s.fds, STDERR, Console)
    && (forall r, f :: Has(s, r, f) ==> Fits(s, r, f))
    && (forall r, r', f :: Has(s, r, f) && Has(s, r', f) ==> r == r')
  }

  function RoleOf(r: Reason): Role {
    match r
    case AsSocket(c) => if c >= 0 then Sock(c) else Std
    case AsWriteEnd(c, i) => if c >= 0 && i >= 0 then NumWrite(c, i) else Std
    case AsReadEnd(c, i) => if c >= 0 && i >= 0 then NumRead(c, i) else Std
    case AsUserPipe(to, from) => if to >= 0 && from >= 0 then FromUser(to, from) else Std
  }

  lemma HasItsRole(s: Server, r: Reason, f: int)
    requires Inv(s) && Has(s, r, f)
    ensures HasRole(s, f, RoleOf(r)) && RoleOf(r) != Std && Fits(s, r, f)
  {
    match r {
      case AsSocket(c) => assert ClientOwns(s, c);
      case AsWriteEnd(c, i) => assert SlotOwned(s, c, i);
      case AsReadEnd(c, i) => assert SlotOwned(s, c, i);
      case AsUserPipe(to, from) => assert HasRole(s, s.userPipe[to][from], FromUser(to, from));
    }
    assert RoleOk(s, f);
    if r.AsWriteEnd? { assert RoleOk(s, s.tables[r.client].list[r.slot].readFd); }
    if r.AsReadEnd? { assert RoleOk(s, s.tables[r.client].list[r.slot].writeFd); }
  }

  /** The ledger's invariant implies it. */
  lemma InvHolds(s: Server)
    requires Inv(s)
    ensures BooksHold(s)
  {
    assert RoleOk(s, STDIN) && RoleOk(s, STDOUT) && RoleOk(s, STDERR);
    forall r, f | Has(s, r, f)
      ensures Fits(s, r, f) && HasRole(s, f, RoleOf(r)) && RoleOf(r) != Std
    {
      HasItsRole(s, r, f);
    }
    hide Inv, Has, Fits;
    assert forall r, r' :: RoleOf(r) == RoleOf(r') && RoleOf(r) != Std ==> r == r';
  }

  // ---- The line ----

  /** The same line without what it stored and closed of the array. */
  function Unstored(x: Turn): Turn
    requires LineFormed(x)
  {
    x.(fds := x.entry - InputFds(x.t, x.u, x.line), v := AfterInput(x.t, x.u, x.line))
  }

  lemma SelfIsMine(x: Turn)
    requires LineFormed(x) && SelfPipe(x.t, x.u, x.line)
    ensures ReadsUserPipe(x.t, x.u, x.line) && x.line.userIn == x.u.me && x.line.userOut == x.u.me
    ensures x.line.crossNum == 0 && InputFds(x.t, x.u, x.line) == {x.u.userPipe[x.u.me][x.u.me]}
  {
  }

  lemma UnstoredEffect(s: Server, x: Turn, openOk: bool, junk0: int, junk1: int)
    requires TypedAt(s, x) && SingleDone(x, openOk, junk0, junk1) && SelfPipe(x.t, x.u, x.line)
    ensures Effect(s, Unstored(x), false)
  {
    SelfIsMine(x);
  }

  lemma SelfIsFinal(s: Server, x: Turn, openOk: bool, junk0: int, junk1: int)
    requires TypedAt(s, x) && SingleDone(x, openOk, junk0, junk1) && SelfPipe(x.t, x.u, x.line)
    requires |x.children| > |x.before|
    ensures Ready(x.entry, x.t, x.u, x.line) && |x.children| == |x.before| + 1
    ensures IsFinal(Unstored(x), false, Source(x.entry, x.t, x.u, x.line), SinkEnd(x.entry, x.t, x.u, x.line, x.p0))
    ensures !IsPipe(SinkEnd(x.entry, x.t, x.u, x.line, x.p0))
  {
    SelfIsMine(x);
    assert !MakesUserPipe(x.u, x.line);
    hide Source, Shed, TypedAt;
  }

  lemma SelfCommand(s: Server, x: Turn, openOk: bool, junk0: int, junk1: int, f: int)
    requires Inv(s) && TypedAt(s, x) && SingleDone(x, openOk, junk0, junk1) && SelfPipe(x.t, x.u, x.line)
    requires |x.children| > |x.before| && f in x.children[|x.before|].fds
    ensures Effect(s, Unstored(x), false) && ChildEnd(ServerAfter(s, Unstored(x), false), |x.before|, f)
  {
    UnstoredEffect(s, x, openOk, junk0, junk1);
    SelfIsFinal(s, x, openOk, junk0, junk1);
    SelfIsMine(x);
    var y := Unstored(x);
    assert !MakesUser(y, false);
    var input, output := Source(x.entry, x.t, x.u, x.line), SinkEnd(x.entry, x.t, x.u, x.line, x.p0);
    hide Effect, SingleDone, Inv, Source, SinkEnd, ServerAfter, TypedAt, Ready, Shed, ChildEnd, MakesUser, SelfPipe;
    SourceOk(s, y, false, |x.before|);
    FinalCommand(s, y, false, input, output, f);
  }

  lemma UnstoredKeepsInv(s: Server, x: Turn, openOk: bool, junk0: int, junk1: int)
    requires Inv(s) && TypedAt(s, x) && SingleDone(x, openOk, junk0, junk1) && SelfPipe(x.t, x.u, x.line)
    ensures Effect(s, Unstored(x), false) && Inv(ServerAfter(s, Unstored(x), false))
  {
    UnstoredEffect(s, x, openOk, junk0, junk1);
    var y := Unstored(x);
    assert y.children[..|y.before|] == y.before && |y.children| <= |y.before| + 1;
    forall k, f | |y.before| <= k < |y.children| && f in y.children[k].fds
      ensures ChildEnd(ServerAfter(s, y, false), k, f)
    {
      SelfCommand(s, x, openOk, junk0, junk1, f);
    }
    hide Effect, SingleDone, Inv, ServerAfter, ChildEnd;
    InvAfter(s, y, false);
  }

  /** The server after a line for single_cmd; what the array made it close has no role any more. */
  function SingleAfter(s: Server, x: Turn): Server
    requires LineFormed(x) && x.u.me < |s.tables|
  {
    var s' := ServerAfter(s, x, false);
    if SelfPipe(x.t, x.u, x.line) then s'.(role := s'.role - {x.fd1}) else s'
  }

  /** Client c stores descriptor j0 as its pipe to itself and closes descriptor j1. */
  function WithJunk(s: Server, c: nat, j0: int, j1: int): Server
    requires Formed(s) && c < |s.state|
  {
    s.(fds := s.fds - {j1}, role := s.role - {j1}, userPipe := s.userPipe[c := s.userPipe[c][c := j0]])
  }

  lemma SelfIsJunk(s: Server, x: Turn, openOk: bool, junk0: int, junk1: int)
    requires Inv(s) && TypedAt(s, x) && SingleDone(x, openOk, junk0, junk1) && SelfPipe(x.t, x.u, x.line)
    requires Formed(ServerAfter(s, Unstored(x), false))
    ensures SingleAfter(s, x) == WithJunk(ServerAfter(s, Unstored(x), false), x.u.me, junk0, junk1)
    ensures ServerAfter(s, Unstored(x), false).userPipe[x.u.me][x.u.me] == -1
    ensures Client(ServerAfter(s, Unstored(x), false), x.u.me)
  {
    SelfIsMine(x);
    hide Inv, InputFds, SingleCommand, Ready;
  }

  // ---- What junk does to the books ----

  /** Something in the client table has the descriptor. */
  ghost predicate IsHad(s: Server, f: int)
    requires Formed(s)
  {
    exists r :: Has(s, r, f)
  }

  /** Closing the descriptor closes nothing that is in use. */
  ghost predicate MayClose(s: Server, f: int)
    requires Formed(s)
  {
    !(0 <= f <= 2) && !IsHad(s, f)
  }

  /** The number is no descriptor, or names a read end that stays open and that nothing in the table has. */
  ghost predicate MayStore(s: Server, j0: int, j1: int)
    requires Formed(s)
  {
    j0 < 0 || (j0 > 2 && j0 != j1 && j0 in s.fds && s.fds[j0].ReadEnd? && !IsHad(s, j0))
  }

  lemma JunkFormed(s: Server, c: nat, j0: int, j1: int)
    requires Formed(s) && c < |s.state|
    ensures Formed(WithJunk(s, c, j0, j1))
  {
    assert (s.role - {j1}).Keys == (s.fds - {j1}).Keys;
  }

  lemma JunkHas(s: Server, c: nat, j0: int, j1: int, r: Reason, f: int)
    requires Formed(s) && Client(s, c) && s.userPipe[c][c] == -1 && Formed(WithJunk(s, c, j0, j1))
    ensures Has(WithJunk(s, c, j0, j1), r, f) <==> Has(s, r, f) || (r == AsUserPipe(c, c) && f == j0 >= 0)
  {
  }

  lemma JunkFits(s: Server, c: nat, j0: int, j1: int, r: Reason, f: int)
    requires Formed(s) && Client(s, c) && s.userPipe[c][c] == -1 && Formed(WithJunk(s, c, j0, j1))
    requires BooksHold(s) && MayClose(s, j1) && Has(s, r, f)
    ensures Has(WithJunk(s, c, j0, j1), r, f) && Fits(WithJunk(s, c, j0, j1), r, f)
  {
    JunkHas(s, c, j0, j1, r, f);
    assert Fits(s, r, f) && f != j1;
    if r.AsWriteEnd? { assert Has(s, AsReadEnd(r.client, r.slot), s.tables[r.client].list[r.slot].readFd); }
    if r.AsReadEnd? { assert Has(s, AsWriteEnd(r.client, r.slot), s.tables[r.client].list[r.slot].writeFd); }
  }

  lemma HarmlessHolds(s: Server, c: nat, j0: int, j1: int)
    requires Formed(s) && Client(s, c) && s.userPipe[c][c] == -1 && Formed(WithJunk(s, c, j0, j1))
    requires BooksHold(s) && MayClose(s, j1) && MayStore(s, j0, j1)
    ensures BooksHold(WithJunk(s, c, j0, j1))
  {
    var s' := WithJunk(s, c, j0, j1);
    forall r, f | Has(s', r, f)
      ensures Fits(s', r, f)
    {
      JunkHas(s, c, j0, j1, r, f);
      if Has(s, r, f) { JunkFits(s, c, j0, j1, r, f); }
    }
    forall r, r', f | Has(s', r, f) && Has(s', r', f)
      ensures r == r'
    {
      JunkHas(s, c, j0, j1, r, f);
      JunkHas(s, c, j0, j1, r', f);
    }
    hide Has, Fits, Formed;
  }

  lemma HoldsMeansHarmless(s: Server, c: nat, j0: int, j1: int)
    requires Formed(s) && Client(s, c) && s.userPipe[c][c] == -1 && Formed(WithJunk(s, c, j0, j1))
    requires BooksHold(WithJunk(s, c, j0, j1))
    ensures MayClose(s, j1) && MayStore(s, j0, j1)
  {
    var s', mine := WithJunk(s, c, j0, j1), AsUserPipe(c, c);
    JunkHas(s, c, j0, j1, mine, j0);
    forall r
      ensures !Has(s, r, j1)
    {
      JunkHas(s, c, j0, j1, r, j1);
      assert !Has(s', r, j1);
    }
    if j0 >= 0 {
      assert Fits(s', mine, j0);
      forall r
        ensures !Has(s, r, j0)
      {
        JunkHas(s, c, j0, j1, r, j0);
        assert !Has(s, mine, j0);
      }
    }
  }

  /** What the array held does no harm, once the line's input was taken over. */
  ghost predicate Harmless(s: Server, x: Turn, junk0: int, junk1: int)
    requires LineFormed(x) && x.u.me < |s.tables|
  {
    var r := ServerAfter(s, Unstored(x), false);
    Formed(r) && MayClose(r, junk1) && MayStore(r, junk0, junk1)
  }

  lemma SelfIsExact(s: Server, x: Turn, openOk: bool, junk0: int, junk1: int)
    requires Inv(s) && TypedAt(s, x) && SingleDone(x, openOk, junk0, junk1) && SelfPipe(x.t, x.u, x.line)
    ensures Formed(SingleAfter(s, x)) && (BooksHold(SingleAfter(s, x)) <==> Harmless(s, x, junk0, junk1))
  {
    UnstoredKeepsInv(s, x, openOk, junk0, junk1);
    var r := ServerAfter(s, Unstored(x), false);
    assert Formed(r);
    SelfIsJunk(s, x, openOk, junk0, junk1);
    hide SelfPipe, SingleDone, TypedAt, Effect, ServerAfter, SingleAfter, BooksHold, MayClose, MayStore, Inv;
    JunkIsExact(r, x.u.me, junk0, junk1);
  }

  /**
    A command on its own leaves the client table true if and only if it is not `<me >me` with a
    pipe from me to me, or what the array held does no harm: the number it stores is negative
    or names an open read end that nothing in the table has, and the one it closes names
    nothing in the table and no standard descriptor.
    */
  lemma SingleKeepsBooksExactlyWhen(s: Server, x: Turn, openOk: bool, junk0: int, junk1: int)
    requires Inv(s) && TypedAt(s, x) && SingleDone(x, openOk, junk0, junk1)
    ensures LineFormed(x) && Formed(SingleAfter(s, x))
    ensures BooksHold(SingleAfter(s, x)) <==> (SelfPipe(x.t, x.u, x.line) ==> Harmless(s, x, junk0, junk1))
  {
    if !SelfPipe(x.t, x.u, x.line) {
      SingleKeepsInv(s, x, openOk, junk0, junk1);
      InvHolds(ServerAfter(s, x, false));
    } else {
      SelfIsExact(s, x, openOk, junk0, junk1);
    }
    hide Inv, SingleDone, BooksHold, TypedAt, Harmless;
  }

  lemma JunkIsExact(s: Server, c: nat, j0: int, j1: int)
    requires Inv(s) && Client(s, c) && s.userPipe[c][c] == -1
    ensures Formed(s) && Formed(WithJunk(s, c, j0, j1))
    ensures BooksHold(WithJunk(s, c, j0, j1)) <==> MayClose(s, j1) && MayStore(s, j0, j1)
  {
    InvHolds(s);
    assert Formed(s);
    JunkFormed(s, c, j0, j1);
    hide Inv, BooksHold, MayClose, MayStore, Formed;
    if MayClose(s, j1) && MayStore(s, j0, j1) { HarmlessHolds(s, c, j0, j1); }
    if BooksHold(WithJunk(s, c, j0, j1)) { HoldsMeansHarmless(s, c, j0, j1); }
  }

  // ---- Going on ----

  lemma JunkRoles(s: Server, c: nat, j0: int, j1: int)
    requires Inv(s) && Client(s, c) && s.userPipe[c][c] == -1 && j0 < 0 && Formed(WithJunk(s, c, j0, j1))
    ensures Roles(WithJunk(s, c, j0, j1)) && Once(WithJunk(s, c, j0, j1)) && Commands(WithJunk(s, c, j0, j1))
  {
    var s' := WithJunk(s, c, j0, j1);
    forall f | f in s'.role
      ensures RoleOk(s', f)
    {
      assert RoleOk(s, f);
    }
    forall k, f | 0 <= k < |s'.children| && f in s'.children[k].fds
      ensures ChildEnd(s', k, f)
    {
      assert ChildEnd(s, k, f);
    }
    hide Recorded;
  }

  lemma RoleStaysHad(s: Server, c: nat, j0: int, j1: int, r: Reason, f: int)
    requires Inv(s) && c < |s.state| && MayClose(s, j1) && Has(s, r, f)
    ensures HasRole(s, f, RoleOf(r)) && HasRole(WithJunk(s, c, j0, j1), f, RoleOf(r)) && f != j1
    ensures f in s.fds && f in WithJunk(s, c, j0, j1).fds && WithJunk(s, c, j0, j1).fds[f] == s.fds[f]
  {
    HasItsRole(s, r, f);
  }

  lemma JunkSlot(s: Server, c: nat, j0: int, j1: int, d: nat, i: nat)
    requires Inv(s) && Client(s, c) && MayClose(s, j1) && Formed(WithJunk(s, c, j0, j1))
    requires Client(s, d) && i < |s.tables[d].list| && Live(s.tables[d], i)
    ensures SlotOwned(WithJunk(s, c, j0, j1), d, i)
  {
    assert SlotOwned(s, d, i);
    RoleStaysHad(s, c, j0, j1, AsWriteEnd(d, i), s.tables[d].list[i].writeFd);
    RoleStaysHad(s, c, j0, j1, AsReadEnd(d, i), s.tables[d].list[i].readFd);
    hide Inv, MayClose, Formed;
  }

  lemma JunkRecorded(s: Server, c: nat, j0: int, j1: int)
    requires Inv(s) && Client(s, c) && s.userPipe[c][c] == -1 && j0 < 0 && MayClose(s, j1)
    requires Formed(WithJunk(s, c, j0, j1))
    ensures Recorded(WithJunk(s, c, j0, j1))
  {
    var s' := WithJunk(s, c, j0, j1);
    assert HasRole(s, STDIN, Std) && HasRole(s, STDOUT, Std) && HasRole(s, STDERR, Std);
    forall d | Client(s', d)
      ensures ClientOwns(s', d) && Ok(s'.tables[d])
    {
      assert ClientOwns(s, d) && Ok(s.tables[d]);
      RoleStaysHad(s, c, j0, j1, AsSocket(d), s.sockfd[d]);
    }
    forall d, i | Client(s', d) && 0 <= i < |s'.tables[d].list| && Live(s'.tables[d], i)
      ensures SlotOwned(s', d, i)
    {
      JunkSlot(s, c, j0, j1, d, i);
    }
    forall to, from | 0 <= to < |s'.userPipe| && 0 <= from < |s'.userPipe[to]| && s'.userPipe[to][from] >= 0
      ensures HasRole(s', s'.userPipe[to][from], FromUser(to, from))
    {
      RoleStaysHad(s, c, j0, j1, AsUserPipe(to, from), s.userPipe[to][from]);
    }
    hide Inv, IsHad, SlotOwned;
  }

  lemma JunkKeepsGood(s: Server, c: nat, j0: int, j1: int)
    requires Good(s) && Client(s, c) && s.userPipe[c][c] == -1 && j0 < 0 && MayClose(s, j1)
    ensures Good(WithJunk(s, c, j0, j1))
  {
    assert Inv(s);
    JunkFormed(s, c, j0, j1);
    JunkRoles(s, c, j0, j1);
    JunkRecorded(s, c, j0, j1);
    hide Inv, Roles, Recorded, Once, Commands, MayClose;
    InvFrom(WithJunk(s, c, j0, j1));
  }

  /** With room, a line that does no harm and stores no descriptor keeps everything the server needs. */
  lemma SelfPipeGood(s: Server, x: Turn, openOk: bool, junk0: int, junk1: int)
    requires Good(s) && StartsAt(s, x) && SingleDone(x, openOk, junk0, junk1) && SelfPipe(x.t, x.u, x.line)
    requires junk0 < 0 && Harmless(s, x, junk0, junk1) && Room(SingleAfter(s, x))
    ensures Good(SingleAfter(s, x))
  {
    LineHint(s, x);
    assert Inv(s);
    var y := Unstored(x);
    UnstoredKeepsInv(s, x, openOk, junk0, junk1);
    assert Formed(ServerAfter(s, y, false));
    SelfIsJunk(s, x, openOk, junk0, junk1);
    assert StartsAt(s, y);
    assert Room(ServerAfter(s, y, false)) by { hide Inv, Good, Effect, SingleDone, MayClose; }
    hide Inv, Good, Room, SingleDone, Effect, StartsAt, SelfPipe, ServerAfter, SingleAfter, MayClose;
    GoodAgain(s, y);
    JunkKeepsGood(ServerAfter(s, y, false), x.u.me, junk0, junk1);
  }

  lemma GoodAgain(s: Server, y: Turn)
    requires Good(s) && StartsAt(s, y) && Effect(s, y, false)
    requires Inv(ServerAfter(s, y, false)) && Room(ServerAfter(s, y, false))
    ensures Good(ServerAfter(s, y, false))
  {
    LineGood(s, y, false);
  }
}
