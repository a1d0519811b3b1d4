/**
  What the single-process server leaves open for good: descriptors that nothing in the
  client table has. Which lines leave some, over whole runs, and what becomes of both ends of
  every numbered pipe.
  */
module LedgerLeaks {
  import opened Kernel
  import opened Ledger
  import opened LedgerCommands
  import opened LedgerEnds
  import opened LedgerLine
  import opened LedgerRuns
  import opened LedgerSession
  import opened Pipeline
  import opened SlotTable
  import opened Wiring

  // ---- A descriptor that nothing lists is never closed ----

  /** The descriptor is open, and nothing in the client table has it. */
  ghost predicate Unlisted(s: Server, f: int) {
    Formed(s) && f in s.fds && !Listed(s, f)
  }

  /** Nobody's role. */
  predicate Nobodys(s: Server, f: int) {
    f in s.fds && f in s.role && OfNobody(s.role[f])
  }

  lemma UnlistedIsNobodys(s: Server, f: int)
    requires Inv(s)
    ensures Unlisted(s, f) <==> Nobodys(s, f)
  {
    assert Formed(s);
    if f in s.fds { UnlistedExactly(s, f); }
    hide Inv, Listed;
  }

  /** Still open on the same end, still nobody's. */
  predicate StaysNobodys(s: Server, s': Server, f: int)
    requires f in s.fds
  {
    Nobodys(s', f) && s'.fds[f] == s.fds[f]
  }

  lemma CountingKeepsNobodys(s: Server, c: nat, f: int)
    requires Good(s) && Client(s, c) && Nobodys(s, f)
    ensures StaysNobodys(s, CountedServer(s, c), f) && !IsExpiredEnd(s, c, f)
  {
    GoodIsInv(s);
    if Counted(s, c).outputPoint >= 0 { ExpiredSlot(s, c); }
    hide Good, Inv, Counted;
    assert CountedServer(s, c).fds == s.fds;
    if !IsExpiredEnd(s, c, f) { OtherEndKept(s, c, f); }
  }

  lemma LeavingKeepsNobodys(s: Server, c: nat, f: int)
    requires Good(s) && Client(s, c) && Snapshot(s.tables[c]) && Nobodys(s, f)
    ensures StaysNobodys(s, LoggedOut(s, c), f)
  {
    GoodIsInv(s);
    RoleOutlives(s, c, f, s.role[f]);
    hide Good, Inv, LoggedOut;
  }

  lemma LogOutKeepsNobodys(s: Server, c: nat, f: int)
    requires Good(s) && Client(s, c) && Nobodys(s, f)
    requires Formed(CountedServer(s, c)) && RecordInRange(CountedServer(s, c).tables[c])
    ensures StaysNobodys(s, LoggedOut(CountedServer(s, c), c), f)
  {
    BuiltInGood(s, c);
    CountingKeepsNobodys(s, c, f);
    assert Client(CountedServer(s, c), c);
    hide Good, Snapshot, CountedServer, LoggedOut;
    LeavingKeepsNobodys(CountedServer(s, c), c, f);
  }

  lemma LineKeepsNobodys(s: Server, e: Event, s': Server, f: int)
    requires Good(s) && Step(s, e, s') && IsLine(e) && Nobodys(s, f)
    ensures StaysNobodys(s, s', f)
  {
    LineEffect(s, e, s');
    GoodIsInv(s);
    hide Good, Inv, Effect, Step, TypedAt;
    RoleStays(s, e.x, e.RunPipeline?, f, s.role[f]);
  }

  lemma StepKeepsNobodys(s: Server, e: Event, s': Server, f: int)
    requires Good(s) && Step(s, e, s') && Nobodys(s, f)
    ensures StaysNobodys(s, s', f)
  {
    if IsLine(e) {
      LineKeepsNobodys(s, e, s', f);
    } else if e.BuiltIn? {
      CountingKeepsNobodys(s, e.client, f);
    } else if e.LogOut? {
      LogOutKeepsNobodys(s, e.client, f);
    }
    hide Good, CountedServer, LoggedOut;
  }

  /** What nothing lists the server never closes, and never lists again. */
  lemma UnlistedStays(s: Server, e: Event, s': Server, f: int)
    requires Good(s) && Good(s') && Step(s, e, s') && Unlisted(s, f)
    ensures Unlisted(s', f) && s'.fds[f] == s.fds[f]
  {
    GoodIsInv(s);
    GoodIsInv(s');
    hide Good, Step, Unlisted, Inv;
    UnlistedIsNobodys(s, f);
    UnlistedIsNobodys(s', f);
    StepKeepsNobodys(s, e, s', f);
  }

  // ---- Which events leave one ----

  /** The event leaves the server with a descriptor that nothing lists and that was not such before. */
  ghost predicate Strands(s: Server, s': Server, f: int) {
    Unlisted(s', f) && !(Unlisted(s, f) && s.fds[f] == s'.fds[f])
  }

  /** A numbered pipe of client c runs out on its next line. */
  predicate RunsOut(s: Server, c: nat) {
    Formed(s) && Client(s, c) && Counted(s, c).outputPoint >= 0
  }

  /** A pipe runs out on a line without an external command, or a pipeline's file meets a new pipe or |n. */
  ghost predicate Leaves(s: Server, e: Event) {
    match e
    case BuiltIn(c) => RunsOut(s, c)
    case LogOut(c) => RunsOut(s, c)
    case RunPipeline(x) => LineFormed(x) && x.line.redir && (x.line.crossNum != 0 || MakesUser(x, true))
    case _ => false
  }

  lemma CountingStrands(s: Server, c: nat, f: int)
    requires Good(s) && Client(s, c)
    ensures f in s.fds && Nobodys(CountedServer(s, c), f) ==> IsExpiredEnd(s, c, f) || Nobodys(s, f)
    ensures IsExpiredEnd(s, c, f) ==> f in s.fds && Nobodys(CountedServer(s, c), f) && !Nobodys(s, f)
  {
    GoodIsInv(s);
    CountedFormed(s, c);
    if Counted(s, c).outputPoint >= 0 { ExpiredSlot(s, c); }
    hide Good, Inv, Counted;
    if IsExpiredEnd(s, c, f) {
      ExpiredRole(s, c, f);
    } else if f in s.role {
      OtherEndKept(s, c, f);
    }
  }

  lemma LeavingStrands(s: Server, c: nat, f: int)
    requires Good(s) && Client(s, c) && Snapshot(s.tables[c])
    ensures Nobodys(LoggedOut(s, c), f) <==> Nobodys(s, f)
  {
    GoodIsInv(s);
    LogoutFormed(s, c);
    if Nobodys(s, f) { LeavingKeepsNobodys(s, c, f); }
    hide Good, Inv, LeaverFds;
  }

  /** The pipe that runs out is stranded, and nothing else. */
  lemma CountedStrandsExactly(s: Server, e: Event, s': Server, c: nat, f: int)
    requires Good(s) && Step(s, e, s') && (e == BuiltIn(c) || e == LogOut(c)) && Client(s, c)
    ensures f in s'.fds ==> f in s.fds && s'.fds[f] == s.fds[f]
    ensures Nobodys(s', f) <==> Nobodys(s, f) || IsExpiredEnd(s, c, f)
  {
    BuiltInGood(s, c);
    CountingStrands(s, c, f);
    if Nobodys(s, f) { CountingKeepsNobodys(s, c, f); }
    assert Client(CountedServer(s, c), c);
    assert CountedServer(s, c).fds == s.fds;
    hide Good, Snapshot, Counted;
    if e == LogOut(c) { LeavingStrands(CountedServer(s, c), c, f); }
    hide LeaverFds, IsExpiredEnd, CountedServer;
  }

  lemma LineStrandsExactly(s: Server, e: Event, s': Server, f: int)
    requires Good(s) && Step(s, e, s') && IsLine(e)
    ensures LineFormed(e.x) && (e.RunPipeline? ==> e.x.line.stages >= 1)
    ensures Nobodys(s', f) <==>
            Nobodys(s, f) || (f in Gained(e.x, e.RunPipeline?) && Gained(e.x, e.RunPipeline?)[f].Lost?)
  {
    LineEffect(s, e, s');
    if Nobodys(s, f) { LineKeepsNobodys(s, e, s', f); }
    hide Good, Step;
    RolesOfLine(s, e.x, e.RunPipeline?, f);
    hide Effect, ServerAfter, Gained;
  }

  lemma RolesOfLine(s: Server, x: Turn, pipeline: bool, f: int)
    requires Effect(s, x, pipeline)
    ensures var role' := ServerAfter(s, x, pipeline).role;
            if f in Gained(x, pipeline) then f in role' && role'[f] == Gained(x, pipeline)[f] && f in x.fds
              && !role'[f].Std? && !role'[f].Listening?
            else f in role' ==> f in s.role && role'[f] == s.role[f] && f !in InputFds(x.t, x.u, x.line)
  {
    hide GainedEnds, LineKinds, InputFds, TypedAt;
  }

  /** A descriptor that the line added was not open before, or was open on something else. */
  lemma GainedIsNew(s: Server, e: Event, s': Server, f: int)
    requires Good(s) && Step(s, e, s') && IsLine(e) && LineFormed(e.x) && f in Gained(e.x, e.RunPipeline?)
    ensures !Nobodys(s, f)
  {
    LineEffect(s, e, s');
    GoodIsInv(s);
    assert s.role.Keys == s.fds.Keys;
    hide Good, Inv, Step, GainedEnds, Gained, LineKinds;
    if f in s.fds { InputOwned(s, e.x.u.me, e.x.line, f); }
  }

  lemma LineLoses(x: Turn, pipeline: bool)
    requires LineFormed(x) && (pipeline ==> x.line.stages >= 1) && GainedEnds(x, pipeline)
    ensures (exists f :: f in Gained(x, pipeline) && Gained(x, pipeline)[f].Lost?)
            <==> pipeline && x.line.redir && (x.line.crossNum != 0 || MakesUser(x, pipeline))
  {
    assert MakesUser(x, pipeline) ==> x.line.crossNum == 0;
    hide MakesUser, Resolved;
    if LeavesFile(x, pipeline) { assert x.fdRedir in Gained(x, pipeline) && Gained(x, pipeline)[x.fdRedir].Lost?; }
    if LeavesPipe(x, pipeline) { assert x.fd0 in Gained(x, pipeline) && Gained(x, pipeline)[x.fd0].Lost?; }
  }

  /**
    A step leaves the server with a new descriptor that nothing in the client table has, if
    and only if a numbered pipe runs out on a line that starts no external command, or the
    line is a pipeline with `> file` and also |n, !n or a new user pipe.
    */
  lemma StrandsExactlyWhen(s: Server, e: Event, s': Server)
    requires Good(s) && Good(s') && Step(s, e, s')
    ensures (exists f :: Strands(s, s', f)) <==> Leaves(s, e)
  {
    GoodIsInv(s);
    GoodIsInv(s');
    StrandsAreStranding(s, s');
    hide Inv, Strands, Stranding, Good;
    if IsLine(e) {
      LineStranding(s, e, s');
    } else if e.BuiltIn? || e.LogOut? {
      CountedStranding(s, e, s', e.client);
    } else {
      NoStranding(s, e, s');
    }
    hide Step, RunsOut;
  }

  lemma StrandsAreStranding(s: Server, s': Server)
    requires Inv(s) && Inv(s')
    ensures forall f :: Strands(s, s', f) <==> Stranding(s, s', f)
  {
    forall f
      ensures Strands(s, s', f) <==> Stranding(s, s', f)
    {
      UnlistedIsNobodys(s, f);
      UnlistedIsNobodys(s', f);
    }
    hide Inv, Unlisted, Nobodys;
  }

  lemma NoStranding(s: Server, e: Event, s': Server)
    requires Good(s) && Step(s, e, s') && (e.LogIn? || e.Ended?)
    ensures forall f :: !Stranding(s, s', f)
  {
    assert s.role.Keys == s.fds.Keys;
    hide Good;
  }

  predicate Stranding(s: Server, s': Server, f: int) {
    Nobodys(s', f) && !(Nobodys(s, f) && s.fds[f] == s'.fds[f])
  }

  lemma CountedStranding(s: Server, e: Event, s': Server, c: nat)
    requires Good(s) && Step(s, e, s') && (e == BuiltIn(c) || e == LogOut(c))
    ensures Client(s, c) && Formed(s)
    ensures (exists f :: Stranding(s, s', f)) <==> RunsOut(s, c)
  {
    assert Client(s, c);
    GoodIsInv(s);
    if Counted(s, c).outputPoint >= 0 { ExpiredSlot(s, c); }
    forall f
      ensures Stranding(s, s', f) <==> IsExpiredEnd(s, c, f)
    {
      CountedStrandsExactly(s, e, s', c, f);
      CountingStrands(s, c, f);
    }
    if RunsOut(s, c) { assert IsExpiredEnd(s, c, Counted(s, c).list[Counted(s, c).outputPoint].readFd); }
    hide Good, Inv, Step, Stranding, Counted;
  }

  lemma LineStranding(s: Server, e: Event, s': Server)
    requires Good(s) && Step(s, e, s') && IsLine(e)
    ensures (exists f :: Stranding(s, s', f)) <==> Leaves(s, e)
  {
    LineEffect(s, e, s');
    var x, pipeline := e.x, e.RunPipeline?;
    LineLoses(x, pipeline);
    forall f
      ensures Stranding(s, s', f) <==> f in Gained(x, pipeline) && Gained(x, pipeline)[f].Lost?
    {
      LineStrandsExactly(s, e, s', f);
      if f in Gained(x, pipeline) { GainedIsNew(s, e, s', f); }
      if Nobodys(s, f) { LineKeepsNobodys(s, e, s', f); }
    }
    hide Good, Step, Effect, Stranding, Gained, MakesUser;
  }

  // ---- What a line of commands leaves behind ----

  lemma LineKeepsInv(s: Server, e: Event, s': Server)
    requires Good(s) && Step(s, e, s') && IsLine(e)
    ensures Inv(s')
  {
    LineEffect(s, e, s');
    GoodIsInv(s);
    hide Good, Inv, Effect, TypedAt;
    if e.RunPipeline? {
      PipelineKeepsInv(s, e.x);
    } else {
      SingleKeepsInv(s, e.x, e.openOk, e.junk0, e.junk1);
    }
  }

  /** A descriptor of the server is new: it was not open, or it was open on something else. */
  predicate Opened(s: Server, s': Server, f: int) {
    f in s'.fds && !(f in s.fds && s.fds[f] == s'.fds[f])
  }

  lemma GainedIsOpened(s: Server, x: Turn, pipeline: bool, f: int)
    requires Inv(s) && Effect(s, x, pipeline)
    ensures Opened(s, ServerAfter(s, x, pipeline), f) <==> f in Gained(x, pipeline)
  {
    ServerBelow(s);
    if f in Gained(x, pipeline) { GainedEnd(x, pipeline, f); }
    if f in InputFds(x.t, x.u, x.line) {
      InputOwned(s, x.u.me, x.line, f);
      assert RoleOk(s, f);
    }
    hide Inv, Gained, GainedEnds, LineKinds, InputFds, TableAfterLine;
  }

  /**
    A line of commands opens a descriptor that is no client's socket, no end of a live slot
    and no recorded user pipe afterwards, if and only if it is a pipeline with `> file` and
    also |n, !n or a new user pipe. A command on its own never does.
    */
  lemma StraysExactlyWhen(s: Server, e: Event, s': Server)
    requires Good(s) && Step(s, e, s') && IsLine(e)
    ensures (exists f :: Opened(s, s', f) && Unlisted(s', f)) <==> Leaves(s, e)
  {
    LineEffect(s, e, s');
    LineKeepsInv(s, e, s');
    var x, pipeline := e.x, e.RunPipeline?;
    LineLoses(x, pipeline);
    GoodIsInv(s);
    forall f
      ensures Opened(s, s', f) && Unlisted(s', f) <==> f in Gained(x, pipeline) && Gained(x, pipeline)[f].Lost?
    {
      GainedIsOpened(s, x, pipeline, f);
      UnlistedIsNobodys(s', f);
      RolesOfLine(s, x, pipeline, f);
    }
    hide Good, Inv, Step, Effect, Unlisted, Opened, Gained, MakesUser;
  }

  // ---- Runs ----

  lemma RunBoots(n: nat, states: seq<Server>, events: seq<Event>)
    requires RoomyRun(n, states, events)
    ensures n >= 2 && |states| == |events| + 1 && states[0] == Booted(n)
  {
    hide Room, Step;
  }

  lemma NextStaysUnlisted(n: nat, states: seq<Server>, events: seq<Event>, m: nat, f: int)
    requires RoomyRun(n, states, events) && m < |events| && m + 1 < |states| && Unlisted(states[m], f)
    ensures Unlisted(states[m + 1], f) && states[m + 1].fds[f] == states[m].fds[f]
  {
    StepOfRun(n, states, events, m);
    hide RoomyRun, Good, Step, Unlisted;
    UnlistedStays(states[m], events[m], states[m + 1], f);
  }

  /** A descriptor that nothing lists stays open on the same end for the rest of the run. */
  lemma {:induction false} UnlistedForGood(n: nat, states: seq<Server>, events: seq<Event>, j: nat, m: nat, f: int)
    requires RoomyRun(n, states, events) && j <= m < |states| && Unlisted(states[j], f)
    ensures Unlisted(states[m], f) && states[m].fds[f] == states[j].fds[f]
  {
    RunBoots(n, states, events);
    hide RoomyRun, Unlisted;
    if j < m {
      UnlistedForGood(n, states, events, j, m - 1, f);
      NextStaysUnlisted(n, states, events, m - 1, f);
    }
  }

  /** The standard descriptors and the listening socket stay as they are. */
  lemma BootStays(n: nat, states: seq<Server>, events: seq<Event>, m: nat, f: int)
    requires RoomyRun(n, states, events) && m < |states| && 0 <= f <= 3
    ensures f in Booted(n).fds && Unlisted(states[m], f) && states[m].fds[f] == Booted(n).fds[f]
  {
    BootedGood(n);
    GoodIsInv(Booted(n));
    UnlistedIsNobodys(Booted(n), f);
    assert states[0] == Booted(n) && Nobodys(Booted(n), f);
    hide IsRun, Good, Unlisted;
    UnlistedForGood(n, states, events, 0, m, f);
  }

  lemma StrandedIsNew(n: nat, states: seq<Server>, events: seq<Event>, j: nat, f: int)
    requires RoomyRun(n, states, events) && j < |events| && j + 1 < |states| && Strands(states[j], states[j + 1], f)
    ensures !(0 <= f <= 3)
  {
    hide RoomyRun, Unlisted, Booted;
    if 0 <= f <= 3 {
      BootStays(n, states, events, j, f);
      BootStays(n, states, events, j + 1, f);
    }
  }

  lemma LeavingLeaves(n: nat, states: seq<Server>, events: seq<Event>, j: nat, m: nat)
    requires RoomyRun(n, states, events) && j < m < |states| && j < |events| && Leaves(states[j], events[j])
    ensures exists f :: !(0 <= f <= 3) && Unlisted(states[m], f)
  {
    StepOfRun(n, states, events, j);
    StrandsExactlyWhen(states[j], events[j], states[j + 1]);
    hide RoomyRun, Good, Step, Leaves;
    var f :| Strands(states[j], states[j + 1], f);
    StrandedIsNew(n, states, events, j, f);
    hide Unlisted;
    UnlistedForGood(n, states, events, j + 1, m, f);
  }

  lemma BootHasNoOther(n: nat, f: int)
    requires n >= 2 && !(0 <= f <= 3)
    ensures !Unlisted(Booted(n), f)
  {
  }

  lemma StrandingLeaves(n: nat, states: seq<Server>, events: seq<Event>, j: nat, f: int)
    requires RoomyRun(n, states, events) && j < |events| && j + 1 < |states| && Strands(states[j], states[j + 1], f)
    ensures Leaves(states[j], events[j])
  {
    StepOfRun(n, states, events, j);
    StrandsExactlyWhen(states[j], events[j], states[j + 1]);
    hide RoomyRun, Good, Step, Leaves, Strands;
  }

  /**
    Descriptor conservation over whole runs. Besides the standard descriptors and the
    listening socket, everything open is a client's socket, an end of a live slot or a
    recorded user pipe, unless some earlier line was one that leaves a descriptor behind; and
    after such a line there is always one that nothing lists.
    */
  lemma {:induction false} StrandedExactly(n: nat, states: seq<Server>, events: seq<Event>, m: nat)
    requires RoomyRun(n, states, events) && m < |states| == |events| + 1
    ensures (exists f :: !(0 <= f <= 3) && Unlisted(states[m], f))
            <==> exists j :: 0 <= j < m && Leaves(states[j], events[j])
  {
    hide RoomyRun, Leaves, Unlisted;
    RunBoots(n, states, events);
    if j :| 0 <= j < m && Leaves(states[j], events[j]) { LeavingLeaves(n, states, events, j, m); }
    if f :| !(0 <= f <= 3) && Unlisted(states[m], f) {
      if m == 0 {
        BootHasNoOther(n, f);
      } else if Strands(states[m - 1], states[m], f) {
        StrandingLeaves(n, states, events, m - 1, f);
      } else {
        StrandedExactly(n, states, events, m - 1);
      }
    }
  }

  // ---- Numbered pipes ----

  /** The line makes numbered pipe p for client c. */
  ghost predicate MakesNumbered(s: Server, e: Event, c: nat, p: nat) {
    && IsLine(e) && StartsAt(s, e.x) && e.x.u.me == c && AddsNumbered(e.x)
    && (e.RunPipeline? ==> e.x.line.stages >= 1) && p == LastPipe(e.x, e.RunPipeline?)
  }

  predicate SlotPipe(s: Server, c: nat, i: int, p: nat) {
    && Formed(s) && Client(s, c) && 0 <= i < |s.tables[c].list| && Live(s.tables[c], i)
    && HasEnd(s.fds, s.tables[c].list[i].readFd, ReadEnd(p)) && HasEnd(s.fds, s.tables[c].list[i].writeFd, WriteEnd(p))
  }

  /** The pipe waits in a slot of client c for its line. */
  ghost predicate LivePipe(s: Server, c: nat, p: nat) {
    exists i :: SlotPipe(s, c, i, p)
  }

  /** Numbered pipe p runs out on this line of client c, which starts no external command. */
  ghost predicate Lapses(s: Server, e: Event, c: nat, p: nat) {
    && (e == BuiltIn(c) || e == LogOut(c)) && RunsOut(s, c)
    && var t := Counted(s, c);
       t.outputPoint < |t.list| && HasEnd(s.fds, t.list[t.outputPoint].readFd, ReadEnd(p))
  }

  lemma CountingMovesKinds(s: Server, d: nat, c: nat, p: nat)
    requires Good(s) && Client(s, d) && p < |s.kinds| && s.kinds[p] == Numbered(c)
    ensures p < |CountedServer(s, d).kinds|
    ensures CountedServer(s, d).kinds[p] == (if c == d && Lapses(s, BuiltIn(d), c, p) then Lapsed(c) else Numbered(c))
  {
    GoodIsInv(s);
    if Counted(s, d).outputPoint >= 0 { ExpiredSlot(s, d); }
    hide Good, Inv, Counted;
  }

  lemma LineKeepsKinds(s: Server, e: Event, s': Server, c: nat, p: nat)
    requires Good(s) && Step(s, e, s') && IsLine(e) && p < |s.kinds|
    ensures p < |s'.kinds| && s'.kinds[p] == s.kinds[p]
  {
    LineEffect(s, e, s');
    KindKept(s, e.x, e.RunPipeline?, ReadEnd(p));
    hide Good, Step, FdsAfter, GainedEnds, LineKinds;
  }

  /** A numbered pipe keeps its kind until it lapses. */
  lemma StepMovesKinds(s: Server, e: Event, s': Server, c: nat, p: nat)
    requires Good(s) && Step(s, e, s') && p < |s.kinds| && s.kinds[p] == Numbered(c)
    ensures p < |s'.kinds| && s'.kinds[p] == (if Lapses(s, e, c, p) then Lapsed(c) else Numbered(c))
  {
    hide Good, CountedServer, RunsOut;
    if IsLine(e) {
      LineKeepsKinds(s, e, s', c, p);
    } else if e.BuiltIn? || e.LogOut? {
      CountingMovesKinds(s, e.client, c, p);
    }
    hide SingleDone, PipelineDone, StartsAt, ServerAfter, Counted;
  }

  lemma MadeIsNumbered(s: Server, e: Event, s': Server, c: nat, p: nat)
    requires Good(s) && Step(s, e, s') && MakesNumbered(s, e, c, p)
    ensures p < |s'.kinds| && s'.kinds[p] == Numbered(c)
  {
    LineEffect(s, e, s');
    NewKind(s, e.x, e.RunPipeline?);
    hide Good, Step, Effect, ServerAfter;
  }

  /** Some line after k, before m, lets the pipe lapse. */
  ghost predicate HasLapsed(states: seq<Server>, events: seq<Event>, k: nat, m: nat, c: nat, p: nat) {
    exists j :: k < j < m && j < |states| && j < |events| && Lapses(states[j], events[j], c, p)
  }

  lemma JustMade(n: nat, states: seq<Server>, events: seq<Event>, k: nat, c: nat, p: nat)
    requires RoomyRun(n, states, events) && k < |events| && k + 1 < |states|
             && MakesNumbered(states[k], events[k], c, p)
    ensures p < |states[k + 1].kinds| && states[k + 1].kinds[p] == Numbered(c)
  {
    StepOfRun(n, states, events, k);
    hide RoomyRun, Good, Step, MakesNumbered;
    MadeIsNumbered(states[k], events[k], states[k + 1], c, p);
  }

  lemma NextOrLapses(n: nat, states: seq<Server>, events: seq<Event>, m: nat, c: nat, p: nat)
    requires RoomyRun(n, states, events) && m < |events| && m + 1 < |states| && p < |states[m].kinds|
             && states[m].kinds[p] == Numbered(c)
    ensures p < |states[m + 1].kinds|
    ensures states[m + 1].kinds[p] == (if Lapses(states[m], events[m], c, p) then Lapsed(c) else Numbered(c))
  {
    StepOfRun(n, states, events, m);
    hide RoomyRun, Good, Step, Lapses;
    StepMovesKinds(states[m], events[m], states[m + 1], c, p);
  }

  lemma {:induction false} NumberedOrLapsed(n: nat, states: seq<Server>, events: seq<Event>, k: nat, m: nat, c: nat,
                                            p: nat)
    requires RoomyRun(n, states, events) && k < m < |states| == |events| + 1
             && MakesNumbered(states[k], events[k], c, p)
    ensures HasLapsed(states, events, k, m, c, p) || (p < |states[m].kinds| && states[m].kinds[p] == Numbered(c))
  {
    hide RoomyRun, MakesNumbered, Lapses;
    if m == k + 1 {
      JustMade(n, states, events, k, c, p);
    } else {
      NumberedOrLapsed(n, states, events, k, m - 1, c, p);
      if !HasLapsed(states, events, k, m - 1, c, p) { NextOrLapses(n, states, events, m - 1, c, p); }
    }
  }

  lemma OpenNumberedIsLive(s: Server, c: nat, p: nat, f: int)
    requires Good(s) && p < |s.kinds| && s.kinds[p] == Numbered(c) && f in s.fds && IsEndOf(s.fds[f], p)
    ensures exists i :: SlotPipe(s, c, i, p) && InSlot(s, c, i, f)
  {
    GoodIsInv(s);
    NumberedEndsAreLiveSlots(s, f, c);
    var i :| 0 <= i < |s.tables[c].list| && Live(s.tables[c], i)
             && (s.tables[c].list[i].writeFd == f || s.tables[c].list[i].readFd == f);
    assert SlotOwned(s, c, i);
    assert RoleOk(s, s.tables[c].list[i].writeFd) && RoleOk(s, s.tables[c].list[i].readFd);
    assert SlotPipe(s, c, i, p) && InSlot(s, c, i, f);
  }

  /** Both ends of a pipe that lapses are left open and unlisted. */
  lemma LapsingLeaves(s: Server, e: Event, s': Server, c: nat, p: nat)
    requires Good(s) && Good(s') && Step(s, e, s') && Lapses(s, e, c, p)
    ensures exists f, g :: Unlisted(s', f) && s'.fds[f] == ReadEnd(p) && Unlisted(s', g) && s'.fds[g] == WriteEnd(p)
  {
    GoodIsInv(s);
    GoodIsInv(s');
    ExpiredSlot(s, c);
    var slot := Counted(s, c).list[Counted(s, c).outputPoint];
    var f, g := slot.readFd, slot.writeFd;
    assert IsExpiredEnd(s, c, f) && IsExpiredEnd(s, c, g);
    hide Inv, Good, Counted, Unlisted;
    CountedStrandsExactly(s, e, s', c, f);
    CountedStrandsExactly(s, e, s', c, g);
    UnlistedIsNobodys(s', f);
    UnlistedIsNobodys(s', g);
    hide Step;
    assert s'.fds[f] == ReadEnd(p) && s'.fds[g] == WriteEnd(p);
  }

  lemma LapsedStaysOpen(n: nat, states: seq<Server>, events: seq<Event>, j: nat, m: nat, c: nat, p: nat)
    requires RoomyRun(n, states, events) && j < m < |states| == |events| + 1 && Lapses(states[j], events[j], c, p)
    ensures exists f, g :: Unlisted(states[m], f) && states[m].fds[f] == ReadEnd(p) &&
                           Unlisted(states[m], g) && states[m].fds[g] == WriteEnd(p)
  {
    StepOfRun(n, states, events, j);
    LapsingLeaves(states[j], events[j], states[j + 1], c, p);
    hide RoomyRun, Good, Step, Lapses, Unlisted;
    var f, g :| Unlisted(states[j + 1], f) && states[j + 1].fds[f] == ReadEnd(p) && Unlisted(states[j + 1], g)
      && states[j + 1].fds[g] == WriteEnd(p);
    UnlistedForGood(n, states, events, j + 1, m, f);
    UnlistedForGood(n, states, events, j + 1, m, g);
  }

  /**
    What becomes of the numbered pipe p that line k of client c makes. In every later state
    each open end of p is an end of a live slot of c that holds both ends, unless p has
    lapsed: its deadline fell on a line of c without an external command. From then on both
    ends are open and nothing lists them.
    */
  lemma NumberedEndsExactly(n: nat, states: seq<Server>, events: seq<Event>, k: nat, m: nat, c: nat, p: nat)
    requires RoomyRun(n, states, events) && k < m < |states| == |events| + 1
             && MakesNumbered(states[k], events[k], c, p)
    ensures (exists f :: f in states[m].fds && IsEndOf(states[m].fds[f], p))
            <==> LivePipe(states[m], c, p) || HasLapsed(states, events, k, m, c, p)
    ensures !HasLapsed(states, events, k, m, c, p) ==>
              forall f :: f in states[m].fds && IsEndOf(states[m].fds[f], p) ==>
                  exists i :: SlotPipe(states[m], c, i, p) && InSlot(states[m], c, i, f)
    ensures HasLapsed(states, events, k, m, c, p) ==>
              exists f, g :: Unlisted(states[m], f) && states[m].fds[f] == ReadEnd(p) &&
                             Unlisted(states[m], g) && states[m].fds[g] == WriteEnd(p)
  {
    NumberedOrLapsed(n, states, events, k, m, c, p);
    RunsKeepTheBooks(n, states, events, m);
    hide RoomyRun, Good, MakesNumbered, Lapses;
    if j :| k < j < m && j < |states| && j < |events| && Lapses(states[j], events[j], c, p) {
      LapsedStaysOpen(n, states, events, j, m, c, p);
    } else {
      forall f | f in states[m].fds && IsEndOf(states[m].fds[f], p)
        ensures exists i :: SlotPipe(states[m], c, i, p) && InSlot(states[m], c, i, f)
      {
        OpenNumberedIsLive(states[m], c, p, f);
      }
    }
    if i :| SlotPipe(states[m], c, i, p) {
      assert IsEndOf(states[m].fds[states[m].tables[c].list[i].readFd], p);
    }
  }

  /** A pipe made with |1 or !1 runs out on the client's next line; a built-in line lets it lapse. */
  lemma NextLineDecides(s: Server, e: Event, s': Server, c: nat, p: nat)
    requires Good(s) && Good(s') && Step(s, e, s') && MakesNumbered(s, e, c, p) && Abs(e.x.line.crossNum) == 1
    ensures Lapses(s', BuiltIn(c), c, p)
  {
    MadeIsInserted(s, e, s', c, p);
    GoodIsInv(s');
    hide Good, Step, StartsAt, Inv, Ok, AddsNumbered, TableAfterLine;
    InvIsOk(s', c);
    InsertedIsNext(e.x);
  }

  lemma MadeIsInserted(s: Server, e: Event, s': Server, c: nat, p: nat)
    requires Good(s) && Step(s, e, s') && MakesNumbered(s, e, c, p)
    ensures Formed(s') && Client(s', c) && s'.tables[c] == e.x.t' == TableAfterLine(e.x)
            && HasEnd(s'.fds, e.x.fd0, ReadEnd(p))
  {
    LineEffect(s, e, s');
    hide Good, Step, FdsAfter, LineKinds, Gained;
    AfterIsFormed(s, e.x, e.RunPipeline?);
  }

  lemma InvIsOk(s: Server, c: nat)
    requires Inv(s) && Client(s, c)
    ensures Ok(s.tables[c])
  {
  }

  lemma InsertedIsNext(x: Turn)
    requires LineFormed(x) && AddsNumbered(x) && x.t' == TableAfterLine(x) && Ok(x.t') && Abs(x.line.crossNum) == 1
    ensures var t := CountDown(x.t'); t.outputPoint == x.t.minInput < |t.list| && t.list[t.outputPoint].readFd == x.fd0
  {
    var i := x.t.minInput;
    assert x.t'.list[i] == Slot(1, x.fd1, x.fd0);
    OneExpires(x.t', i);
    assert CountDown(x.t').list[i] == Ticked(x.t'.list[i]);
    hide Ok, Resolved;
  }

  // ---- The line on which a pipe runs out ----

  /** The client whose line it is. */
  predicate TypedLine(e: Event, c: nat) {
    e == BuiltIn(c) || e == LogOut(c) || (IsLine(e) && e.x.u.me == c)
  }

  /**
    A line leaves an end of the numbered pipe that runs out on it open if and only if it starts
    no external command.
    */
  lemma RunOutStaysExactlyWhen(s: Server, e: Event, s': Server, c: nat, p: nat)
    requires Good(s) && Good(s') && Step(s, e, s') && TypedLine(e, c) && RunsOut(s, c)
    requires Counted(s, c).outputPoint < |Counted(s, c).list|
    requires HasEnd(s.fds, Counted(s, c).list[Counted(s, c).outputPoint].readFd, ReadEnd(p))
    ensures (exists f :: f in s'.fds && IsEndOf(s'.fds[f], p)) <==> e.BuiltIn? || e.LogOut?
  {
    if IsLine(e) {
      assert ReadsPipe(s, e, c, p);
      ReadingReleases(s, e, s', c, p);
    } else {
      assert Lapses(s, e, c, p);
      LapsingLeaves(s, e, s', c, p);
    }
    hide Good, Step, Counted;
  }

  /**
    Of what the client table has for a client exactly the two ends of a pipe that runs out on
    the `exit` line stay open when the client leaves; everything else that was open stays.
    */
  lemma LeaverLeavesExactly(s: Server, s': Server, c: nat, f: int)
    requires Good(s) && Step(s, LogOut(c), s') && f in s.fds
    ensures Client(s, c) && Formed(s) && Formed(s')
    ensures f in s'.fds <==> !ListedFor(s, c, f) || IsExpiredEnd(s, c, f)
    ensures f in s'.fds ==> s'.fds[f] == s.fds[f]
    ensures forall g :: g in s'.fds ==> !ListedFor(s', c, g)
  {
    assert Client(s, c);
    GoodIsInv(s);
    CountedKeepsInv(s, c);
    var s1 := CountedServer(s, c);
    assert Client(s1, c);
    hide Good, Inv, Counted, ListedFor, Listed;
    CountedListsFor(s, c, f);
    LogoutKeepsInv(s1, c);
    NothingOfLeaverRemains(s1, c, f);
    forall g | g in s'.fds
      ensures !ListedFor(s', c, g)
    {
      ListedExactly(s', c, g);
      LogoutRole(s1, c, g);
    }
    hide CountedServer, LoggedOut;
  }

  lemma CountedListsFor(s: Server, c: nat, f: int)
    requires Inv(s) && Client(s, c) && Inv(CountedServer(s, c)) && f in s.fds
    ensures ListedFor(CountedServer(s, c), c, f) <==> ListedFor(s, c, f) && !IsExpiredEnd(s, c, f)
  {
    assert CountedServer(s, c).fds == s.fds;
    ListedExactly(s, c, f);
    ListedExactly(CountedServer(s, c), c, f);
    assert f in s.role;
    hide Inv, Counted, ListedFor;
    if IsExpiredEnd(s, c, f) { ExpiredRole(s, c, f); } else { OtherEndKept(s, c, f); }
  }
}
