/**
  Who owns which descriptor of the single-process server. The ledger gives every open
  descriptor one role; since a descriptor has only one role, descriptors recorded for
  different purposes are different, and since every role is recorded, nothing open is
  forgotten except what is marked as lost.
  */
module Ledger {
  import opened Kernel
  import opened Options
  import opened Pipeline
  import opened SlotTable
  import opened Wiring

  /** Why a descriptor is open although nothing records it. */
  datatype Loss =
    | Expired       // a numbered pipe that ran out on a line without an external command
    | StrayFile     // the file of `> file` on a pipeline that also has |n or !n
    | StrayPipe     // the pipe of `>id` on a pipeline that also has `> file`

  datatype Role =
    | Std
    | Listening
    | Sock(client: nat)
    | NumWrite(client: nat, slot: nat)
    | NumRead(client: nat, slot: nat)
    | FromUser(to: nat, from: nat)
    | Lost(client: nat, why: Loss)

  /** What a pipe was made for; `writer` is the index of the command that writes it. */
  datatype Kind =
    | Stage(writer: nat)
    | Numbered(client: nat)
    | User(to: nat, from: nat, writer: nat)
    | Lapsed(client: nat)   // a numbered pipe that ran out unread
    | Stray

  /**
    The single-process server: its descriptors, the client table (index 0 is not used), the
    commands it started, how ids are given out, and the ledger. `fdIds` is fd_id_list
    without its entries of -1.
    */
  datatype Server = Server(
    fds: Fds,
    state: seq<bool>,
    sockfd: seq<int>,
    userPipe: seq<seq<int>>,
    tables: seq<Table>,
    children: seq<Child>,
    minId: nat,
    clientNum: int,
    fdIds: map<int, nat>,
    role: map<int, Role>,
    kinds: seq<Kind>)

  predicate Formed(s: Server) {
    && |s.state| >= 2 && |s.sockfd| == |s.state| && |s.tables| == |s.state| && |s.userPipe| == |s.state|
    && (forall i :: 0 <= i < |s.userPipe| ==> |s.userPipe[i]| == |s.state|)
    && s.role.Keys == s.fds.Keys
  }

  predicate Client(s: Server, c: int) {
    1 <= c < |s.state| && s.state[c]
  }

  predicate KindIs(s: Server, e: End, k: Kind) {
    IsPipe(e) && e.pipe < |s.kinds| && s.kinds[e.pipe] == k
  }

  predicate KindIsUser(s: Server, e: End, to: nat, from: nat) {
    && IsPipe(e) && e.pipe < |s.kinds|
    && s.kinds[e.pipe].User? && s.kinds[e.pipe].to == to && s.kinds[e.pipe].from == from
  }

  /** The role of an open descriptor is true of it. */
  predicate RoleOk(s: Server, f: int)
    requires Formed(s) && f in s.role
  {
    match s.role[f]
    case Std => 0 <= f <= 2 && s.fds[f] == Console
    case Listening => f > 2 && s.fds[f] == Listener
    case Sock(c) => f > 2 && Client(s, c) && s.sockfd[c] == f && s.fds[f] == Socket(c)
    case NumWrite(c, i) =>
      && f > 2 && Client(s, c) && i < |s.tables[c].list| && Live(s.tables[c], i) && s.tables[c].list[i].writeFd == f
      && s.fds[f].WriteEnd? && KindIs(s, s.fds[f], Numbered(c))
    case NumRead(c, i) =>
      && f > 2 && Client(s, c) && i < |s.tables[c].list| && Live(s.tables[c], i) && s.tables[c].list[i].readFd == f
      && s.fds[f].ReadEnd? && KindIs(s, s.fds[f], Numbered(c))
    case FromUser(to, from) =>
      && f > 2 && Client(s, to) && Client(s, from) && s.userPipe[to][from] == f
      && s.fds[f].ReadEnd? && KindIsUser(s, s.fds[f], to, from)
    case Lost(c, why) =>
      && f > 2
      && (match why case Expired => KindIs(s, s.fds[f], Lapsed(c))
                    case StrayPipe => KindIs(s, s.fds[f], Stray)
                    case StrayFile => s.fds[f] == File(0))
  }

  predicate HasRole(s: Server, f: int, r: Role) {
    f in s.role && s.role[f] == r
  }

  /** Everything the client table records is open and is owned as recorded. */
  predicate ClientOwns(s: Server, c: nat)
    requires Formed(s) && Client(s, c)
  {
    && HasRole(s, s.sockfd[c], Sock(c))
    && s.tables[c].outputPoint < |s.tables[c].list|
  }

  predicate SlotOwned(s: Server, c: nat, i: nat)
    requires Formed(s) && Client(s, c) && i < |s.tables[c].list|
  {
    var slot := s.tables[c].list[i];
    && HasRole(s, slot.writeFd, NumWrite(c, i)) && HasRole(s, slot.readFd, NumRead(c, i))
    && slot.writeFd in s.fds && slot.readFd in s.fds
    && IsPipe(s.fds[slot.writeFd]) && IsPipe(s.fds[slot.readFd]) && s.fds[slot.writeFd].pipe == s.fds[slot.readFd].pipe
  }

  ghost predicate Recorded(s: Server)
    requires Formed(s)
  {
    && HasRole(s, STDIN, Std) && HasRole(s, STDOUT, Std) && HasRole(s, STDERR, Std)
    && (forall c :: Client(s, c) ==> ClientOwns(s, c) && Ok(s.tables[c]))
    && (forall c, i :: Client(s, c) && 0 <= i < |s.tables[c].list| && Live(s.tables[c], i) ==> SlotOwned(s, c, i))
    && (forall to, from :: 0 <= to < |s.userPipe| && 0 <= from < |s.userPipe[to]| && s.userPipe[to][from] >= 0 ==>
          HasRole(s, s.userPipe[to][from], FromUser(to, from)))
  }

  /** What a command may hold of pipe e at descriptor f. */
  predicate ChildEnd(s: Server, k: nat, f: int)
    requires k < |s.children| && f in s.children[k].fds
  {
    var e := s.children[k].fds[f];
    IsPipe(e) ==>
      && e.pipe < |s.kinds|
      && match s.kinds[e.pipe]
         case Stage(w) => if e.WriteEnd? then k == w && f == STDOUT else k == w + 1 && f == STDIN
         case Numbered(c) =>
           c == s.children[k].client ==>
             if e.WriteEnd? then s.children[k].sink == Some(e.pipe) && (f == STDOUT || f == STDERR) else f == STDIN
         case User(_, _, w) => e.WriteEnd? ==> k == w
         case _ => true
  }

  ghost predicate Commands(s: Server) {
    forall k, f :: 0 <= k < |s.children| && f in s.children[k].fds ==> ChildEnd(s, k, f)
  }

  /** The server itself holds an end of a pipe at most once. */
  ghost predicate Once(s: Server) {
    forall f, g :: f in s.fds && g in s.fds && f != g && IsPipe(s.fds[f]) ==> s.fds[f] != s.fds[g]
  }

  ghost predicate Roles(s: Server)
    requires Formed(s)
  {
    forall f :: f in s.role ==> RoleOk(s, f)
  }

  ghost predicate Inv(s: Server) {
    Formed(s) && Roles(s) && Recorded(s) && Once(s) && Commands(s)
  }

  // ---- Consequences ----

  /**
    A recorded user pipe joins two clients that are logged in, its descriptor is open, and
    it is different from every other user pipe, every socket and every live numbered pipe.
    */
  lemma UserPipesAreApart(s: Server, to: nat, from: nat)
    requires Inv(s) && to < |s.state| && from < |s.state| && s.userPipe[to][from] >= 0
    ensures Client(s, to) && Client(s, from)
    ensures s.userPipe[to][from] in s.fds && s.fds[s.userPipe[to][from]].ReadEnd?
    ensures forall i, j :: 0 <= i < |s.state| && 0 <= j < |s.state| && (i, j) != (to, from) ==>
              s.userPipe[i][j] != s.userPipe[to][from]
    ensures forall c :: Client(s, c) ==> s.sockfd[c] != s.userPipe[to][from]
    ensures forall c, i :: Client(s, c) && 0 <= i < |s.tables[c].list| && Live(s.tables[c], i) ==>
              s.tables[c].list[i].writeFd != s.userPipe[to][from] && s.tables[c].list[i].readFd != s.userPipe[to][from]
  {
    var f := s.userPipe[to][from];
    assert HasRole(s, f, FromUser(to, from)) && RoleOk(s, f);
    forall i, j | 0 <= i < |s.state| && 0 <= j < |s.state| && s.userPipe[i][j] == f
      ensures (i, j) == (to, from)
    {
      assert HasRole(s, s.userPipe[i][j], FromUser(i, j));
    }
    forall c | Client(s, c)
      ensures s.sockfd[c] != f
    {
      assert ClientOwns(s, c);
    }
    forall c, i | Client(s, c) && 0 <= i < |s.tables[c].list| && Live(s.tables[c], i)
      ensures s.tables[c].list[i].writeFd != f && s.tables[c].list[i].readFd != f
    {
      assert SlotOwned(s, c, i);
    }
  }

  predicate InSlot(s: Server, c: int, i: int, f: int)
    requires Formed(s)
  {
    && Client(s, c) && 0 <= i < |s.tables[c].list| && Live(s.tables[c], i)
    && (s.tables[c].list[i].writeFd == f || s.tables[c].list[i].readFd == f)
  }

  predicate InMatrix(s: Server, to: int, from: int, f: int)
    requires Formed(s)
  {
    0 <= to < |s.userPipe| && 0 <= from < |s.userPipe[to]| && s.userPipe[to][from] == f
  }

  /** Client c has the descriptor: as its socket, in a live slot, or as a user pipe to it or from it. */
  ghost predicate ListedFor(s: Server, c: int, f: int)
    requires Formed(s)
  {
    || (Client(s, c) && s.sockfd[c] == f)
    || (exists i :: InSlot(s, c, i, f))
    || (exists i :: InMatrix(s, c, i, f) || InMatrix(s, i, c, f))
  }

  /** Something in the client table has the descriptor. */
  ghost predicate Listed(s: Server, f: int)
    requires Formed(s)
  {
    exists c :: ListedFor(s, c, f)
  }

  /** The role belongs to client c. */
  predicate OfClient(r: Role, c: int) {
    match r
    case Sock(d) => d == c
    case NumWrite(d, _) => d == c
    case NumRead(d, _) => d == c
    case FromUser(to, from) => to == c || from == c
    case _ => false
  }

  /** The client table has a descriptor for exactly the clients that its role names. */
  lemma ListedExactly(s: Server, c: int, f: int)
    requires Inv(s) && f in s.fds
    ensures ListedFor(s, c, f) <==> OfClient(s.role[f], c)
  {
    assert f in s.role && RoleOk(s, f);
    if Client(s, c) && s.sockfd[c] == f { assert ClientOwns(s, c); }
    if i :| InSlot(s, c, i, f) { assert SlotOwned(s, c, i); }
    if i :| InMatrix(s, c, i, f) { assert HasRole(s, s.userPipe[c][i], FromUser(c, i)); }
    if i :| InMatrix(s, i, c, f) { assert HasRole(s, s.userPipe[i][c], FromUser(i, c)); }
    if OfClient(s.role[f], c) { RoleIsListed(s, c, f); }
  }

  lemma RoleIsListed(s: Server, c: int, f: int)
    requires Formed(s) && f in s.role && RoleOk(s, f) && OfClient(s.role[f], c)
    ensures ListedFor(s, c, f)
  {
    match s.role[f]
    case NumWrite(_, i) => assert InSlot(s, c, i, f);
    case NumRead(_, i) => assert InSlot(s, c, i, f);
    case FromUser(to, from) => assert InMatrix(s, to, from, f);
    case _ =>
  }

  predicate OfNobody(r: Role) {
    r.Std? || r.Listening? || r.Lost?
  }

  lemma UnlistedExactly(s: Server, f: int)
    requires Inv(s) && f in s.fds
    ensures Listed(s, f) <==> !OfNobody(s.role[f])
  {
    forall c
      ensures ListedFor(s, c, f) <==> OfClient(s.role[f], c)
    {
      ListedExactly(s, c, f);
    }
    match s.role[f]
    case Sock(c) => assert OfClient(s.role[f], c);
    case NumWrite(c, _) => assert OfClient(s.role[f], c);
    case NumRead(c, _) => assert OfClient(s.role[f], c);
    case FromUser(c, _) => assert OfClient(s.role[f], c);
    case _ =>
    hide Inv, ListedFor;
  }

  /** The ends of a numbered pipe that has not lapsed are those of live slots. */
  lemma NumberedEndsAreLiveSlots(s: Server, f: int, c: nat)
    requires Inv(s) && f in s.fds
    ensures KindIs(s, s.fds[f], Numbered(c)) <==>
            (Client(s, c) && exists i :: 0 <= i < |s.tables[c].list| && Live(s.tables[c], i)
                                      && (s.tables[c].list[i].writeFd == f || s.tables[c].list[i].readFd == f))
    ensures KindIs(s, s.fds[f], Lapsed(c)) <==> s.role[f] == Lost(c, Expired)
  {
    assert RoleOk(s, f);
    if i :| Client(s, c) && 0 <= i < |s.tables[c].list| && Live(s.tables[c], i)
            && (s.tables[c].list[i].writeFd == f || s.tables[c].list[i].readFd == f) {
      assert SlotOwned(s, c, i);
    }
  }

  /**
    End-of-file: a numbered pipe of client c is held for writing only by the server, by c's
    commands whose |n or !n resolved to it, and by commands of other clients.
    */
  lemma WritersAreResolved(s: Server, p: nat, c: nat, k: nat, f: int)
    requires Inv(s) && p < |s.kinds| && s.kinds[p] == Numbered(c)
    requires k < |s.children| && f in s.children[k].fds && s.children[k].fds[f] == WriteEnd(p)
    ensures s.children[k].sink == Some(p) || s.children[k].client != c
  {
    assert ChildEnd(s, k, f);
  }

  // ---- A line of the acting client ----

  function UsersOf(s: Server, me: nat): Users
    requires Formed(s) && Client(s, me)
  {
    Users(me, s.sockfd[me], s.state, s.userPipe)
  }

  /** The acting client's table once the line has been counted. */
  function Counted(s: Server, me: nat): Table
    requires Formed(s) && Client(s, me)
  {
    CountDown(s.tables[me])
  }

  /** A live slot before counting, with the same descriptors, behind each live or expired slot. */
  lemma SlotBefore(s: Server, me: nat, i: nat)
    requires Inv(s) && Client(s, me) && i < |s.tables[me].list|
    requires Live(Counted(s, me), i) || Counted(s, me).outputPoint == i
    ensures Live(s.tables[me], i) && SlotOwned(s, me, i)
    ensures PipeAt(Counted(s, me), i) == PipeAt(s.tables[me], i)
  {
    var t := s.tables[me];
    assert ClientOwns(s, me) && Ok(t);
    ExpiredInRange(t.list, |t.list|);
    assert Counted(s, me).list[i] == Ticked(t.list[i]);
    assert Live(t, i);
  }

  lemma RecordedOwned(s: Server, me: nat, f: int) returns (i: nat)
    requires Inv(s) && Client(s, me)
    requires RecordInRange(Counted(s, me)) && f in RecordedFds(Counted(s, me), -1, |Counted(s, me).record|)
    ensures i < |s.tables[me].list| && Live(Counted(s, me), i)
    ensures HasRole(s, f, NumWrite(me, i)) || HasRole(s, f, NumRead(me, i))
    ensures f in s.fds && f > 2
  {
    var t1 := Counted(s, me);
    assert Ok(s.tables[me]);
    CountDownOk(s.tables[me]);
    var k := RecordedBy(t1, -1, |t1.record|, f);
    i := t1.record[k];
    SlotBefore(s, me, i);
    assert RoleOk(s, f);
  }

  lemma CountedApart(s: Server, me: nat)
    requires Inv(s) && Client(s, me)
    ensures RecordApart(Counted(s, me)) && Ok(Counted(s, me))
            && -1 <= Counted(s, me).outputPoint < |Counted(s, me).list|
  {
    var t1 := Counted(s, me);
    assert Ok(s.tables[me]);
    CountDownOk(s.tables[me]);
    forall k | 0 <= k < |t1.record|
      ensures SlotOwned(s, me, t1.record[k]) && PipeAt(t1, t1.record[k]) == PipeAt(s.tables[me], t1.record[k])
    {
      SlotBefore(s, me, t1.record[k]);
    }
    forall i, j | 0 <= i < |t1.record| && 0 <= j < |t1.record| && t1.record[i] != t1.record[j]
      ensures Apart(t1.list[t1.record[i]], t1.list[t1.record[j]])
    {
      assert SlotOwned(s, me, t1.record[i]) && SlotOwned(s, me, t1.record[j]);
      assert PipeAt(t1, t1.record[i]) == PipeAt(s.tables[me], t1.record[i]);
      assert PipeAt(t1, t1.record[j]) == PipeAt(s.tables[me], t1.record[j]);
    }
  }

  /** The role under which the line's first command takes over a descriptor. */
  lemma InputOwned(s: Server, me: nat, line: Line, f: int)
    requires Inv(s) && Client(s, me) && f in InputFds(Counted(s, me), UsersOf(s, me), line)
    ensures f in s.role && f in s.fds && f > 2
    ensures s.role[f] == (if Counted(s, me).outputPoint < 0 then FromUser(me, line.userIn)
                          else if f == s.tables[me].list[Counted(s, me).outputPoint].writeFd
                          then NumWrite(me, Counted(s, me).outputPoint)
                          else NumRead(me, Counted(s, me).outputPoint))
  {
    var t1 := Counted(s, me);
    if t1.outputPoint >= 0 {
      SlotBefore(s, me, t1.outputPoint);
    } else {
      assert HasRole(s, s.userPipe[me][line.userIn], FromUser(me, line.userIn));
    }
    assert RoleOk(s, f);
  }

  lemma LineReady(s: Server, me: nat, line: Line)
    requires Inv(s) && Client(s, me)
    ensures Ready(s.fds, Counted(s, me), UsersOf(s, me), line)
  {
    var t1, u := Counted(s, me), UsersOf(s, me);
    CountedApart(s, me);
    assert ClientOwns(s, me) && RoleOk(s, s.sockfd[me]);
    assert RoleOk(s, STDIN) && RoleOk(s, STDOUT) && RoleOk(s, STDERR);
    forall f | f in RecordedFds(t1, -1, |t1.record|)
      ensures f in s.fds && f > 2 && f != u.sock
    {
      var i := RecordedOwned(s, me, f);
    }
    forall f | f in InputFds(t1, u, line)
      ensures f in s.fds && f > 2 && f != u.sock && f !in RecordedFds(t1, -1, |t1.record|)
    {
      InputOwned(s, me, line, f);
      if f in RecordedFds(t1, -1, |t1.record|) {
        var i := RecordedOwned(s, me, f);
        OutputPointIsNotLive(s.tables[me]);
      }
    }
    if t1.outputPoint >= 0 { SlotBefore(s, me, t1.outputPoint); }
  }

  lemma OutputPointIsNotLive(t: Table)
    requires CountDown(t).outputPoint >= 0
    ensures !Live(CountDown(t), CountDown(t).outputPoint)
  {
    ExpiredInRange(t.list, |t.list|);
  }
}
