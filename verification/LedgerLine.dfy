/**
  What a line of external commands does to the ledger: single_cmd and ordinary_pipe keep
  the invariant, whatever the line is resolved to.
  */
module LedgerLine {
  import opened Chains
  import opened Kernel
  import opened Ledger
  import opened Pipeline
  import opened SlotTable
  import opened Wiring

  // ---- The books after the line ----

  /** The line adds a numbered pipe. */
  predicate AddsNumbered(x: Turn)
    requires RecordInRange(x.t)
  {
    x.line.crossNum != 0 && Resolved(x.t, x.line) < 0
  }

  /** A pipeline looks at the user table again for its last stage, after its first stage took over its input. */
  predicate MakesUser(x: Turn, pipeline: bool)
    requires UsersFormed(x.u)
  {
    MakesUserPipe(if pipeline then AfterInput(x.t, x.u, x.line) else x.u, x.line)
  }

  /** The line's new user pipe is stored: ordinary_pipe skips that when there is a `> file`. */
  predicate StoresUser(x: Turn, pipeline: bool)
    requires UsersFormed(x.u)
  {
    MakesUser(x, pipeline) && !(pipeline && x.line.redir)
  }

  /** The line's new user pipe is left behind with both ends open. */
  predicate LeavesPipe(x: Turn, pipeline: bool)
    requires UsersFormed(x.u)
  {
    MakesUser(x, pipeline) && pipeline && x.line.redir
  }

  /** The opened file is left behind: it is only closed when there is no |n or !n. */
  predicate LeavesFile(x: Turn, pipeline: bool) {
    pipeline && x.line.redir && x.line.crossNum != 0
  }

  ghost predicate LineFormed(x: Turn) {
    UsersFormed(x.u) && RecordInRange(x.t) && -1 <= x.t.outputPoint < |x.t.list| && x.t.minInput < |x.t.list|
  }

  /** The descriptors that are new in the server, with the reason why each stays open. */
  function Gained(x: Turn, pipeline: bool): map<int, Role>
    requires LineFormed(x)
  {
    var file := if LeavesFile(x, pipeline) then map[x.fdRedir := Lost(x.u.me, StrayFile)] else map[];
    if AddsNumbered(x) then file[x.fd0 := NumRead(x.u.me, x.t.minInput)][x.fd1 := NumWrite(x.u.me, x.t.minInput)]
    else if StoresUser(x, pipeline) then file[x.fd0 := FromUser(x.line.userOut, x.u.me)]
    else if LeavesPipe(x, pipeline) then file[x.fd0 := Lost(x.u.me, StrayPipe)][x.fd1 := Lost(x.u.me, StrayPipe)]
    else file
  }

  /** Where the new pipe's number comes: after those between the stages. */
  function LastPipe(x: Turn, pipeline: bool): nat
    requires pipeline ==> x.line.stages >= 1
  {
    x.p0 + if pipeline then x.line.stages - 1 else 0
  }

  /** What the pipes of the line were made for. */
  function LineKinds(x: Turn, pipeline: bool): seq<Kind>
    requires LineFormed(x) && (pipeline ==> x.line.stages >= 1)
  {
    var links := if pipeline then x.line.stages - 1 else 0;
    seq(links, i requires 0 <= i < links => Stage(|x.before| + i))
    + (if AddsNumbered(x) then [Numbered(x.u.me)]
       else if StoresUser(x, pipeline) then [User(x.line.userOut, x.u.me, |x.before| + links)]
       else if LeavesPipe(x, pipeline) then [Stray]
       else [])
  }

  function StoredUsers(x: Turn, pipeline: bool): Users
    requires LineFormed(x)
  {
    var w := AfterInput(x.t, x.u, x.line);
    if StoresUser(x, pipeline) then
      w.(userPipe := w.userPipe[x.line.userOut := w.userPipe[x.line.userOut][w.me := x.fd0]])
    else w
  }

  function ServerAfter(s: Server, x: Turn, pipeline: bool): Server
    requires LineFormed(x) && (pipeline ==> x.line.stages >= 1) && x.u.me < |s.tables|
  {
    s.(fds := x.fds, userPipe := x.v.userPipe, tables := s.tables[x.u.me := x.t'], children := x.children,
       role := (s.role - InputFds(x.t, x.u, x.line)) + Gained(x, pipeline),
       kinds := s.kinds + LineKinds(x, pipeline))
  }

  // ---- The line as the wiring reports it ----

  /** The line was typed by client x.u.me of server s, whose table has its hint on a free slot. */
  ghost predicate TypedAt(s: Server, x: Turn) {
    StartsAt(s, x) && HintFree(x.t)
  }

  /** The line starts from server s, with the acting client's table counted down. */
  ghost predicate StartsAt(s: Server, x: Turn) {
    && Formed(s) && Client(s, x.u.me)
    && x.entry == s.fds && x.before == s.children && x.p0 == |s.kinds|
    && x.t == Counted(s, x.u.me) && x.u == UsersOf(s, x.u.me)
    && LineFormed(x)
  }

  /** The server keeps what it had, without the input taken over and with what it gained. */
  ghost predicate FdsAfter(x: Turn, pipeline: bool)
    requires LineFormed(x)
  {
    && (forall f :: f in x.fds <==> (f in x.entry && f !in InputFds(x.t, x.u, x.line)) || f in Gained(x, pipeline))
    && (forall f :: f in Gained(x, pipeline) ==> f > 2 && (f !in x.entry || f in InputFds(x.t, x.u, x.line)))
    && (forall f :: f in x.fds && f !in Gained(x, pipeline) ==> x.fds[f] == x.entry[f])
  }

  /** The new descriptors are the ends of the line's last pipe, or its file. */
  ghost predicate GainedEnds(x: Turn, pipeline: bool)
    requires LineFormed(x) && (pipeline ==> x.line.stages >= 1)
  {
    && (AddsNumbered(x) || LeavesPipe(x, pipeline) ==>
          x.fd0 != x.fd1 && HasEnd(x.fds, x.fd0, ReadEnd(LastPipe(x, pipeline)))
            && HasEnd(x.fds, x.fd1, WriteEnd(LastPipe(x, pipeline))))
    && (StoresUser(x, pipeline) ==> HasEnd(x.fds, x.fd0, ReadEnd(LastPipe(x, pipeline))))
    && (LeavesFile(x, pipeline) ==>
          && HasEnd(x.fds, x.fdRedir, File(0))
          && (AddsNumbered(x) ==> x.fdRedir != x.fd0 && x.fdRedir != x.fd1))
  }

  predicate HasEnd(fds: Fds, f: int, e: End) {
    f in fds && fds[f] == e
  }

  ghost predicate Effect(s: Server, x: Turn, pipeline: bool) {
    && TypedAt(s, x) && (pipeline ==> x.line.stages >= 2)
    && FdsAfter(x, pipeline) && GainedEnds(x, pipeline)
    && x.pipes == x.p0 + |LineKinds(x, pipeline)|
    && x.t' == TableAfterLine(x) && x.v == StoredUsers(x, pipeline)
  }

  lemma StoresSame(t: Table, u: Users, line: Line)
    requires UsersFormed(u) && !SelfPipe(t, u, line)
    ensures MakesUserPipe(AfterInput(t, u, line), line) <==> MakesUserPipe(u, line)
  {
  }

  lemma SingleEffect(s: Server, x: Turn, openOk: bool, junk0: int, junk1: int)
    requires TypedAt(s, x) && SingleDone(x, openOk, junk0, junk1) && !SelfPipe(x.t, x.u, x.line)
    ensures Effect(s, x, false)
  {
    StoresSame(x.t, x.u, x.line);
  }

  lemma PipelineEffect(s: Server, x: Turn)
    requires TypedAt(s, x) && PipelineDone(x)
    ensures Effect(s, x, true)
  {
    PipelineFds(x);
    PipelineGains(x);
    hide AfterInput, MakesUserPipe, FdsAfter, GainedEnds, TypedAt;
  }

  lemma PipelineFds(x: Turn)
    requires LineFormed(x) && PipelineDone(x)
    ensures FdsAfter(x, true)
  {
    hide Find, Update;
  }

  lemma PipelineGains(x: Turn)
    requires LineFormed(x) && PipelineDone(x)
    ensures GainedEnds(x, true)
  {
  }

  // ---- Formed ----

  lemma SameKeys(s: Server, x: Turn, pipeline: bool)
    requires Formed(s) && Effect(s, x, pipeline)
    ensures ServerAfter(s, x, pipeline).role.Keys == x.fds.Keys
  {
    var role' := ServerAfter(s, x, pipeline).role;
    var input, gained := InputFds(x.t, x.u, x.line), Gained(x, pipeline);
    assert s.role.Keys == x.entry.Keys;
    hide InputFds, Gained, Formed, GainedEnds, TypedAt;
    assert role'.Keys == (s.role.Keys - input) + gained.Keys;
    forall f: int
      ensures f in x.fds.Keys <==> f in (x.entry.Keys - input) + gained.Keys
    {
      assert f in x.fds <==> (f in x.entry && f !in input) || f in gained;
    }
  }

  lemma AfterIsFormed(s: Server, x: Turn, pipeline: bool)
    requires Formed(s) && Effect(s, x, pipeline)
    ensures Formed(ServerAfter(s, x, pipeline))
  {
    SameKeys(s, x, pipeline);
    hide FdsAfter, GainedEnds, Gained, LineKinds, InputFds;
  }

  // ---- The slots of the acting client ----

  /** Which slots are live after the line, and with which descriptors. */
  lemma SlotsAfter(s: Server, x: Turn, i: nat)
    requires Inv(s) && TypedAt(s, x) && x.t' == TableAfterLine(x) && i < |s.tables[x.u.me].list|
    ensures |x.t'.list| == |s.tables[x.u.me].list|
    ensures AddsNumbered(x) && i == x.t.minInput ==> Live(x.t', i) && PipeAt(x.t', i) == Pipe(x.fd1, x.fd0)
    ensures !(AddsNumbered(x) && i == x.t.minInput) ==>
              (Live(x.t', i) <==> Live(s.tables[x.u.me], i) && i != x.t.outputPoint)
                && PipeAt(x.t', i) == PipeAt(s.tables[x.u.me], i)
    ensures Live(s.tables[x.u.me], i) && i != x.t.outputPoint ==> !(AddsNumbered(x) && i == x.t.minInput)
  {
    var t := s.tables[x.u.me];
    assert ClientOwns(s, x.u.me) && Ok(t);
    OneExpires(t, i);
    ExpiredInRange(t.list, |t.list|);
    assert x.t.list[i] == Ticked(t.list[i]);
  }

  /** A slot one of whose descriptors was not taken over as input is not the expired one. */
  lemma NotExpired(s: Server, x: Turn, i: nat)
    requires Inv(s) && TypedAt(s, x) && i < |s.tables[x.u.me].list| && Live(s.tables[x.u.me], i)
    requires s.tables[x.u.me].list[i].writeFd !in InputFds(x.t, x.u, x.line)
             || s.tables[x.u.me].list[i].readFd !in InputFds(x.t, x.u, x.line)
    ensures i != x.t.outputPoint
  {
    if i == x.t.outputPoint { SlotBefore(s, x.u.me, i); }
  }

  lemma TableAfterOk(s: Server, x: Turn)
    requires Inv(s) && TypedAt(s, x) && x.t' == TableAfterLine(x)
    ensures Ok(x.t') && x.t'.outputPoint < |x.t'.list|
  {
    var t := s.tables[x.u.me];
    assert Ok(t);
    CountDownOk(t);
    if AddsNumbered(x) {
      FindNoneMeansNew(x.t, x.line.crossNum);
      UpdateOk(x.t, Pipe(x.fd1, x.fd0), x.line.crossNum);
    }
  }

  // ---- Roles that the line does not touch ----

  lemma KindKept(s: Server, x: Turn, pipeline: bool, e: End)
    requires LineFormed(x) && (pipeline ==> x.line.stages >= 1) && x.u.me < |s.tables|
    requires IsPipe(e) && e.pipe < |s.kinds|
    ensures e.pipe < |ServerAfter(s, x, pipeline).kinds| && ServerAfter(s, x, pipeline).kinds[e.pipe] == s.kinds[e.pipe]
  {
  }

  /** The role under which the first command takes a descriptor over is the acting client's. */
  lemma UntouchedIsKept(s: Server, x: Turn, pipeline: bool, f: int)
    requires Inv(s) && Effect(s, x, pipeline) && f in s.role && f !in InputFds(x.t, x.u, x.line)
    ensures f in x.fds && f in s.fds && x.fds[f] == s.fds[f] && f !in Gained(x, pipeline)
    ensures HasRole(ServerAfter(s, x, pipeline), f, s.role[f])
  {
  }

  lemma UserPipeKept(s: Server, x: Turn, pipeline: bool, to: nat, from: nat)
    requires Inv(s) && Effect(s, x, pipeline)
    requires to < |s.userPipe| && from < |s.userPipe[to]| && s.userPipe[to][from] >= 0
    requires s.userPipe[to][from] !in InputFds(x.t, x.u, x.line)
    ensures to < |x.v.userPipe| && from < |x.v.userPipe[to]| && x.v.userPipe[to][from] == s.userPipe[to][from]
  {
    hide FdsAfter, GainedEnds, LineKinds, Inv;
  }

  lemma OldSlotRole(s: Server, x: Turn, pipeline: bool, f: int, i: nat)
    requires Inv(s) && Effect(s, x, pipeline) && f in s.role && f !in InputFds(x.t, x.u, x.line)
    requires s.role[f] == NumWrite(x.u.me, i) || s.role[f] == NumRead(x.u.me, i)
    requires Formed(ServerAfter(s, x, pipeline))
    ensures RoleOk(ServerAfter(s, x, pipeline), f)
  {
    UntouchedIsKept(s, x, pipeline, f);
    assert RoleOk(s, f);
    NotExpired(s, x, i);
    SlotsAfter(s, x, i);
    KindKept(s, x, pipeline, s.fds[f]);
    hide Inv, FdsAfter, GainedEnds, LineKinds, Gained;
  }

  lemma OldRoleKept(s: Server, x: Turn, pipeline: bool, f: int)
    requires Inv(s) && Effect(s, x, pipeline) && f in s.role && f !in InputFds(x.t, x.u, x.line)
    requires Formed(ServerAfter(s, x, pipeline))
    ensures RoleOk(ServerAfter(s, x, pipeline), f)
  {
    UntouchedIsKept(s, x, pipeline, f);
    assert RoleOk(s, f);
    if IsPipe(s.fds[f]) { KindKept(s, x, pipeline, s.fds[f]); }
    hide Inv, FdsAfter, GainedEnds, LineKinds, Gained, AfterInput, TableAfterLine;
    match s.role[f]
    case NumWrite(c, i) => if c == x.u.me { OldSlotRole(s, x, pipeline, f, i); }
    case NumRead(c, i) => if c == x.u.me { OldSlotRole(s, x, pipeline, f, i); }
    case FromUser(to, from) => UserPipeKept(s, x, pipeline, to, from);
    case _ =>
  }

  // ---- Roles that the line adds ----

  lemma NewKind(s: Server, x: Turn, pipeline: bool)
    requires Effect(s, x, pipeline) && (AddsNumbered(x) || StoresUser(x, pipeline) || LeavesPipe(x, pipeline))
    ensures LastPipe(x, pipeline) < |ServerAfter(s, x, pipeline).kinds|
    ensures ServerAfter(s, x, pipeline).kinds[LastPipe(x, pipeline)] ==
            (if AddsNumbered(x) then Numbered(x.u.me)
             else if StoresUser(x, pipeline) then
               User(x.line.userOut, x.u.me, |x.before| + if pipeline then x.line.stages - 1 else 0)
             else Stray)
  {
  }

  lemma NewNumberedOk(s: Server, x: Turn, pipeline: bool, f: int)
    requires Inv(s) && Effect(s, x, pipeline) && AddsNumbered(x) && (f == x.fd0 || f == x.fd1)
    requires Formed(ServerAfter(s, x, pipeline))
    ensures f in ServerAfter(s, x, pipeline).role && RoleOk(ServerAfter(s, x, pipeline), f)
  {
    SlotsAfter(s, x, x.t.minInput);
    NewKind(s, x, pipeline);
    hide LineKinds, Find, CountDown, Update, TableAfterLine, AfterInput, InputFds, Inv, Resolved;
  }

  lemma NewUserOk(s: Server, x: Turn, pipeline: bool)
    requires Inv(s) && Effect(s, x, pipeline) && StoresUser(x, pipeline)
    requires Formed(ServerAfter(s, x, pipeline))
    ensures x.fd0 in ServerAfter(s, x, pipeline).role && RoleOk(ServerAfter(s, x, pipeline), x.fd0)
  {
    NewKind(s, x, pipeline);
    hide LineKinds, Find, CountDown, Update, TableAfterLine, InputFds, Inv, Resolved;
  }

  lemma NewStrayOk(s: Server, x: Turn, pipeline: bool, f: int)
    requires Inv(s) && Effect(s, x, pipeline) && LeavesPipe(x, pipeline) && (f == x.fd0 || f == x.fd1)
    requires Formed(ServerAfter(s, x, pipeline))
    ensures f in ServerAfter(s, x, pipeline).role && RoleOk(ServerAfter(s, x, pipeline), f)
  {
    NewKind(s, x, pipeline);
    hide LineKinds, Find, CountDown, Update, TableAfterLine, InputFds, Inv, AfterInput;
  }

  lemma NewFileOk(s: Server, x: Turn, pipeline: bool)
    requires Inv(s) && Effect(s, x, pipeline) && LeavesFile(x, pipeline)
    requires Formed(ServerAfter(s, x, pipeline))
    ensures x.fdRedir in ServerAfter(s, x, pipeline).role && RoleOk(ServerAfter(s, x, pipeline), x.fdRedir)
  {
    hide LineKinds, Find, CountDown, Update, TableAfterLine, InputFds, Inv, AfterInput;
  }

  lemma NewRoleOk(s: Server, x: Turn, pipeline: bool, f: int)
    requires Inv(s) && Effect(s, x, pipeline) && f in Gained(x, pipeline)
    requires Formed(ServerAfter(s, x, pipeline))
    ensures f in ServerAfter(s, x, pipeline).role && RoleOk(ServerAfter(s, x, pipeline), f)
  {
    if AddsNumbered(x) && (f == x.fd0 || f == x.fd1) {
      NewNumberedOk(s, x, pipeline, f);
    } else if StoresUser(x, pipeline) && f == x.fd0 {
      NewUserOk(s, x, pipeline);
    } else if LeavesPipe(x, pipeline) && (f == x.fd0 || f == x.fd1) {
      NewStrayOk(s, x, pipeline, f);
    } else {
      NewFileOk(s, x, pipeline);
    }
    hide *;
  }

  lemma RolesAfter(s: Server, x: Turn, pipeline: bool)
    requires Inv(s) && Effect(s, x, pipeline) && Formed(ServerAfter(s, x, pipeline))
    ensures Roles(ServerAfter(s, x, pipeline))
  {
    forall f | f in ServerAfter(s, x, pipeline).role
      ensures RoleOk(ServerAfter(s, x, pipeline), f)
    {
      if f in Gained(x, pipeline) { NewRoleOk(s, x, pipeline, f); } else { OldRoleKept(s, x, pipeline, f); }
    }
  }

  // ---- Everything recorded is still owned ----

  /** A descriptor whose role is not one that input is taken over under stays. */
  lemma RoleStays(s: Server, x: Turn, pipeline: bool, f: int, r: Role)
    requires Inv(s) && Effect(s, x, pipeline) && HasRole(s, f, r)
    requires x.t.outputPoint < 0 ==> r != FromUser(x.u.me, x.line.userIn)
    requires x.t.outputPoint >= 0 ==> r != NumWrite(x.u.me, x.t.outputPoint) && r != NumRead(x.u.me, x.t.outputPoint)
    ensures HasRole(ServerAfter(s, x, pipeline), f, r) && f in x.fds && f in s.fds && x.fds[f] == s.fds[f]
  {
    if f in InputFds(x.t, x.u, x.line) { InputOwned(s, x.u.me, x.line, f); }
    hide Inv, Effect;
    if f !in InputFds(x.t, x.u, x.line) { UntouchedIsKept(s, x, pipeline, f); }
  }

  lemma SlotOwnedAfter(s: Server, x: Turn, pipeline: bool, c: nat, i: nat)
    requires Inv(s) && Effect(s, x, pipeline) && Formed(ServerAfter(s, x, pipeline)) && Client(s, c)
    requires i < |ServerAfter(s, x, pipeline).tables[c].list| && Live(ServerAfter(s, x, pipeline).tables[c], i)
    ensures SlotOwned(ServerAfter(s, x, pipeline), c, i)
  {
    if c == x.u.me { SlotsAfter(s, x, i); }
    if c == x.u.me && AddsNumbered(x) && i == x.t.minInput {
      hide Inv, CountDown, Update, LineKinds, TableAfterLine, AfterInput, Resolved, TypedAt;
    } else {
      assert SlotOwned(s, c, i);
      OldSlotOwned(s, x, pipeline, c, i);
    }
  }

  lemma OldSlotOwned(s: Server, x: Turn, pipeline: bool, c: nat, i: nat)
    requires Inv(s) && Effect(s, x, pipeline) && Formed(ServerAfter(s, x, pipeline)) && Client(s, c)
    requires i < |s.tables[c].list| && Live(s.tables[c], i) && SlotOwned(s, c, i)
    requires c == x.u.me ==> i != x.t.outputPoint
    requires i < |ServerAfter(s, x, pipeline).tables[c].list|
    requires PipeAt(ServerAfter(s, x, pipeline).tables[c], i) == PipeAt(s.tables[c], i)
    ensures SlotOwned(ServerAfter(s, x, pipeline), c, i)
  {
    RoleStays(s, x, pipeline, s.tables[c].list[i].writeFd, NumWrite(c, i));
    RoleStays(s, x, pipeline, s.tables[c].list[i].readFd, NumRead(c, i));
    hide Inv, Effect, Formed;
  }

  lemma UserRecordedAfter(s: Server, x: Turn, pipeline: bool, to: nat, from: nat)
    requires Inv(s) && Effect(s, x, pipeline) && Formed(ServerAfter(s, x, pipeline))
    requires to < |x.v.userPipe| && from < |x.v.userPipe[to]| && x.v.userPipe[to][from] >= 0
    ensures HasRole(ServerAfter(s, x, pipeline), x.v.userPipe[to][from], FromUser(to, from))
  {
    if StoresUser(x, pipeline) && to == x.line.userOut && from == x.u.me {
      hide Inv, LineKinds, Resolved, TableAfterLine, InputFds;
    } else {
      OldUserPipe(s, x, pipeline, to, from);
      RoleStays(s, x, pipeline, s.userPipe[to][from], FromUser(to, from));
      hide *;
    }
  }

  /** An entry that the line did not store was there before and is not the one taken over. */
  lemma OldUserPipe(s: Server, x: Turn, pipeline: bool, to: nat, from: nat)
    requires Inv(s) && Effect(s, x, pipeline) && Formed(ServerAfter(s, x, pipeline))
    requires to < |x.v.userPipe| && from < |x.v.userPipe[to]| && x.v.userPipe[to][from] >= 0
    requires !(StoresUser(x, pipeline) && to == x.line.userOut && from == x.u.me)
    ensures to < |s.userPipe| && from < |s.userPipe[to]| && s.userPipe[to][from] == x.v.userPipe[to][from]
    ensures HasRole(s, s.userPipe[to][from], FromUser(to, from))
    ensures x.t.outputPoint < 0 ==> FromUser(to, from) != FromUser(x.u.me, x.line.userIn)
  {
    assert to < |s.userPipe| && from < |s.userPipe[to]| && s.userPipe[to][from] == x.v.userPipe[to][from];
    assert HasRole(s, s.userPipe[to][from], FromUser(to, from)) && RoleOk(s, s.userPipe[to][from]);
    hide FdsAfter, GainedEnds, LineKinds, Commands, Roles, Once, TableAfterLine, Recorded, KindIsUser, StoresUser;
  }

  lemma StdStays(s: Server, x: Turn, pipeline: bool)
    requires Inv(s) && Effect(s, x, pipeline)
    ensures var s' := ServerAfter(s, x, pipeline);
            HasRole(s', STDIN, Std) && HasRole(s', STDOUT, Std) && HasRole(s', STDERR, Std)
  {
    RoleStays(s, x, pipeline, STDIN, Std);
    RoleStays(s, x, pipeline, STDOUT, Std);
    RoleStays(s, x, pipeline, STDERR, Std);
    hide Effect, ServerAfter;
  }

  lemma ClientOwnsAfter(s: Server, x: Turn, pipeline: bool, c: nat)
    requires Inv(s) && Effect(s, x, pipeline) && Formed(ServerAfter(s, x, pipeline)) && Client(s, c)
    ensures ClientOwns(ServerAfter(s, x, pipeline), c) && Ok(ServerAfter(s, x, pipeline).tables[c])
  {
    assert ClientOwns(s, c) && Ok(s.tables[c]);
    RoleStays(s, x, pipeline, s.sockfd[c], Sock(c));
    TableAfterOk(s, x);
    hide Inv, FdsAfter, GainedEnds, LineKinds, Gained, TableAfterLine;
  }

  lemma RecordedAfter(s: Server, x: Turn, pipeline: bool)
    requires Inv(s) && Effect(s, x, pipeline) && Formed(ServerAfter(s, x, pipeline))
    ensures Recorded(ServerAfter(s, x, pipeline))
  {
    var s' := ServerAfter(s, x, pipeline);
    hide Inv, Effect, SlotOwned, ClientOwns;
    StdStays(s, x, pipeline);
    forall c | Client(s', c)
      ensures ClientOwns(s', c) && Ok(s'.tables[c])
    {
      ClientOwnsAfter(s, x, pipeline, c);
    }
    forall c, i | Client(s', c) && 0 <= i < |s'.tables[c].list| && Live(s'.tables[c], i)
      ensures SlotOwned(s', c, i)
    {
      SlotOwnedAfter(s, x, pipeline, c, i);
    }
    forall to, from | 0 <= to < |s'.userPipe| && 0 <= from < |s'.userPipe[to]| && s'.userPipe[to][from] >= 0
      ensures HasRole(s', s'.userPipe[to][from], FromUser(to, from))
    {
      UserRecordedAfter(s, x, pipeline, to, from);
    }
  }

  // ---- Ends are held once ----

  /** The pipes of the server are those made so far. */
  lemma ServerBelow(s: Server)
    requires Formed(s) && Roles(s)
    ensures Below(s.fds, |s.kinds|)
  {
    forall f | f in s.fds && IsPipe(s.fds[f])
      ensures s.fds[f].pipe < |s.kinds|
    {
      assert RoleOk(s, f);
    }
  }

  /** A new descriptor is an end of the line's last pipe, a different end from every other new one, or a file. */
  lemma GainedEnd(x: Turn, pipeline: bool, f: int)
    requires LineFormed(x) && (pipeline ==> x.line.stages >= 1) && GainedEnds(x, pipeline) && f in Gained(x, pipeline)
    ensures f in x.fds
    ensures x.fds[f] == File(0) || (x.fds[f] == ReadEnd(LastPipe(x, pipeline)) && f == x.fd0)
            || (x.fds[f] == WriteEnd(LastPipe(x, pipeline)) && f == x.fd1)
  {
    hide Resolved, LastPipe;
  }

  lemma OnceAfter(s: Server, x: Turn, pipeline: bool)
    requires Inv(s) && Effect(s, x, pipeline)
    ensures Once(ServerAfter(s, x, pipeline))
  {
    ServerBelow(s);
    forall f, g | f in x.fds && g in x.fds && f != g && IsPipe(x.fds[f])
      ensures x.fds[f] != x.fds[g]
    {
      if f in Gained(x, pipeline) { GainedEnd(x, pipeline, f); }
      if g in Gained(x, pipeline) { GainedEnd(x, pipeline, g); }
      OncePair(s, x, pipeline, f, g);
    }
  }

  lemma OncePair(s: Server, x: Turn, pipeline: bool, f: int, g: int)
    requires Once(s) && Effect(s, x, pipeline) && Below(s.fds, |s.kinds|)
    requires f in x.fds && g in x.fds && f != g && IsPipe(x.fds[f])
    requires forall h :: (h == f || h == g) && h in Gained(x, pipeline) ==>
               x.fds[h] == File(0) || (x.fds[h] == ReadEnd(LastPipe(x, pipeline)) && h == x.fd0)
               || (x.fds[h] == WriteEnd(LastPipe(x, pipeline)) && h == x.fd1)
    ensures x.fds[f] != x.fds[g]
  {
    hide Gained, GainedEnds, LineKinds, InputFds, TableAfterLine, StoredUsers, Counted, UsersOf;
  }

  // ---- What the commands hold ----

  /**
    What a command of the acting client may inherit: nothing of that client's numbered pipes,
    and no end of a stage.
    */
  predicate Inheritable(s: Server, me: nat, e: End) {
    IsPipe(e) ==>
      && e.pipe < |s.kinds|
      && match s.kinds[e.pipe]
         case Stage(_) => false
         case Numbered(c) => c != me
         case User(_, _, _) => e.ReadEnd?
         case _ => true
  }

  /** Every descriptor of the server that a command keeps. */
  lemma KeptEnd(s: Server, x: Turn, f: int)
    requires Inv(s) && TypedAt(s, x) && f in s.fds && f !in Shed(x.t, x.u, x.line)
    ensures Inheritable(s, x.u.me, s.fds[f])
  {
    assert RoleOk(s, f);
    match s.role[f]
    case NumWrite(c, i) => if c == x.u.me { LiveIsShed(s, x, i); }
    case NumRead(c, i) => if c == x.u.me { LiveIsShed(s, x, i); }
    case _ =>
  }

  lemma LiveIsShed(s: Server, x: Turn, i: nat)
    requires Inv(s) && TypedAt(s, x) && i < |s.tables[x.u.me].list| && Live(s.tables[x.u.me], i)
    ensures s.tables[x.u.me].list[i].writeFd in Shed(x.t, x.u, x.line)
    ensures s.tables[x.u.me].list[i].readFd in Shed(x.t, x.u, x.line)
  {
    var t := s.tables[x.u.me];
    assert ClientOwns(s, x.u.me) && Ok(t);
    CountDownOk(t);
    OneExpires(t, i);
    assert x.t.list[i] == Ticked(t.list[i]);
    if i != x.t.outputPoint {
      assert Live(x.t, i) && i in x.t.record;
      var k :| 0 <= k < |x.t.record| && x.t.record[k] == i;
      RecordedHas(x.t, -1, |x.t.record|, k);
    }
  }

  /** What the first command reads. */
  lemma SourceEnd(s: Server, x: Turn)
    requires Inv(s) && TypedAt(s, x) && Ready(x.entry, x.t, x.u, x.line)
    ensures var e := Source(x.entry, x.t, x.u, x.line);
            IsPipe(e) ==> e.ReadEnd? && e.pipe < |s.kinds| && (s.kinds[e.pipe].Numbered? || s.kinds[e.pipe].User?)
  {
    assert ClientOwns(s, x.u.me) && RoleOk(s, s.sockfd[x.u.me]);
    forall f | f in InputFds(x.t, x.u, x.line)
      ensures RoleOk(s, f)
    {
      InputOwned(s, x.u.me, x.line, f);
    }
    if x.t.outputPoint >= 0 {
      SlotBefore(s, x.u.me, x.t.outputPoint);
      assert x.t.list[x.t.outputPoint].readFd == s.tables[x.u.me].list[x.t.outputPoint].readFd;
      assert x.t.list[x.t.outputPoint].readFd in InputFds(x.t, x.u, x.line);
    } else if ReadsUserPipe(x.t, x.u, x.line) {
      InputOwned(s, x.u.me, x.line, x.u.userPipe[x.u.me][x.line.userIn]);
    }
  }

  /** What the last command writes to. */
  lemma SinkIs(s: Server, x: Turn, pipeline: bool, from: Fds, w: Users)
    requires Inv(s) && Effect(s, x, pipeline)
    requires w == x.u || w == AfterInput(x.t, x.u, x.line)
    requires MakesUserPipe(w, x.line) == MakesUser(x, pipeline)
    requires w.sock in from && w.sock in s.fds && from[w.sock] == s.fds[w.sock]
    requires Resolved(x.t, x.line) >= 0 ==>
               && x.t.list[Resolved(x.t, x.line)].writeFd in from && x.t.list[Resolved(x.t, x.line)].writeFd in s.fds
               && from[x.t.list[Resolved(x.t, x.line)].writeFd] == s.fds[x.t.list[Resolved(x.t, x.line)].writeFd]
    ensures var e := SinkEnd(from, x.t, w, x.line, LastPipe(x, pipeline));
            var s' := ServerAfter(s, x, pipeline);
            IsPipe(e) ==>
              && e.WriteEnd? && e.pipe < |s'.kinds|
              && ((s'.kinds[e.pipe] == Numbered(x.u.me) && x.line.crossNum != 0)
                  || s'.kinds[e.pipe] == User(x.line.userOut, x.u.me,
                                              |x.before| + if pipeline then x.line.stages - 1 else 0))
  {
    assert ClientOwns(s, x.u.me) && RoleOk(s, s.sockfd[x.u.me]);
    if Resolved(x.t, x.line) >= 0 {
      ResolvedEnd(s, x);
      KindKept(s, x, pipeline, s.fds[x.t.list[Resolved(x.t, x.line)].writeFd]);
    } else if AddsNumbered(x) || StoresUser(x, pipeline) || LeavesPipe(x, pipeline) {
      NewKind(s, x, pipeline);
    }
    hide Inv, ServerAfter, FdsAfter, GainedEnds, CountDown, Find, Ready, Resolved, InputFds, AfterInput,
      UsersFormed, RoleOk;
  }

  lemma ResolvedEnd(s: Server, x: Turn)
    requires Inv(s) && TypedAt(s, x) && Resolved(x.t, x.line) >= 0
    requires x.t.list[Resolved(x.t, x.line)].writeFd in s.fds
    ensures s.fds[x.t.list[Resolved(x.t, x.line)].writeFd].WriteEnd?
    ensures KindIs(s, s.fds[x.t.list[Resolved(x.t, x.line)].writeFd], Numbered(x.u.me))
  {
    var i := Resolved(x.t, x.line);
    assert Ok(s.tables[x.u.me]);
    CountDownOk(s.tables[x.u.me]);
    assert i in x.t.record;
    assert Live(x.t, i);
    SlotBefore(s, x.u.me, i);
    assert x.t.list[i].writeFd == s.tables[x.u.me].list[i].writeFd;
    assert RoleOk(s, s.tables[x.u.me].list[i].writeFd);
  }
}
